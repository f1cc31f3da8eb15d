# vidicon light-trail filter, modelled in Dafny

This project models the core of the FFmpeg video filter `vidicon` (`libavfilter/vf_vidicon.c`).
The filter imitates the persistence of a vidicon camera tube. Each colour channel of each pixel
keeps an accumulator and a burn-in history across frames. Each frame decays both and blends in
the new sample. Highlights above a knee burn in. The accumulator is converted back to a byte
with saturation.

The model covers the four parts of that file that carry the filter's logic:

- **Split and merge** (`planes.dfy`). `split_rgb24_to_planes` de-interleaves a packed RGB24
  line into three byte planes. `merge_planes_to_rgb24` interleaves them back. Both are loops
  over arrays. They are proved inverse to each other and to write nothing outside their ranges.
- **Parameter resolution** (`params.dfy`, and `TrailContext.ResolveParameters` in
  `vidicon.dfy`). These are config_input's replacements of unset per-channel fade, gain and
  burn values. Fade and gain are unset below 0. Burn is unset below -1.
- **The accumulation step** (`accumulate.dfy`, `saturation.dfy`). This is
  `process_color_plane_sse2`, modelled as follows:
  - the vector loop `x += 8`, whose last block runs past `width`;
  - each SSE2 lane as one scalar step;
  - the float recurrence over reals, as the function `Step`;
  - the conversion `_mm_cvtps_epi32` / `_mm_packs_epi32` / `_mm_packus_epi16` exactly, over
    integers.
- **The instance and the frame driver** (`grids.dfy`, `vidicon.dfy`). The class `TrailContext`
  is `VidiconTrailContext`:
  - its constructor is config_input, which allocates the grids and planes and resolves the
    options;
  - `FilterFrame` is filter_frame's row loop.

  Each `float **` grid is the sequence of its `height` row arrays. A ghost map tells the rows
  apart. A frame is its byte buffer, with line `y` at offset `y * stride`.

`FilterFrame` is proved against the value-level predicate `LinesFiltered`. For every row `y`:

- row `y` of each channel's accumulator and burn-in grid takes exactly one `Step` with that
  channel's samples of line `y`;
- line `y` then shows the output bytes of the new accumulators;
- no other row and no byte outside the frame's pixels changes.

The lemmas about `Step` then give the filter's promised behaviour:

- the knee at sample 243;
- burn-in stays non-negative;
- decay by `fade^n` on black input, from a state without burn-in history;
- the geometric fixed point of a constant input, and convergence to it: after n frames the
  distance to the fixed point is the initial distance times `fade^n`. This holds from a state
  without burn-in history for a sample below the knee (`ConstantInputConverges`), and from
  any state for any sample when the burn depth is 0, as the default burn option gives
  (`ConstantInputConvergesWithoutDepth`; with a black input it is the decay by `fade^n`).

A pixel that has once gone past the knee with a positive burn depth keeps a positive burn-in
history, which shrinks by 0.99 a frame and never reaches 0; of the results above only the
knee and the non-negativity of burn-in then apply to it.

The saturation lemmas give the output conversion.

The output conversion saturates, with one exception. `_mm_cvtps_epi32` returns the integer
indefinite `0x80000000` for a scaled accumulator of 2^31 - 0.5 or more, and the pack chain turns
that into 0 (black). `ConvertLaneOverflowIsBlack` states this. With `fade = 1` a steadily bright
pixel could reach that value after a very long run.

For widths that are not a multiple of eight, each pixel `x < width` still takes exactly the
scalar step. The lanes of the last block beyond `width` read the scratch planes' tail. The
split never writes that tail, so it stays zero (`TailsBlack`).

## Model

| member | source | states |
|---|---|---|
| Saturation.Clamp | libavfilter/vf_vidicon.c:222-223 | the reference clamp: the result lies in [lo, hi], equals k inside, lo below and hi above |
| Saturation.RoundHalfEven | libavfilter/vf_vidicon.c:219-220 | _mm_cvtps_epi32's rounding: the result is within 1/2 of x, and an exact tie goes to the even integer |
| Saturation.RoundOfInteger | libavfilter/vf_vidicon.c:219-220 | rounding leaves an integral value unchanged |
| Saturation.CvtPsLane | libavfilter/vf_vidicon.c:219-220 | one lane of `_mm_cvtps_epi32`: x rounded to the nearest integer, ties to even, when -2^31 - 0.5 <= x < 2^31 - 0.5, which is exactly when that rounding fits in int32; the integer indefinite -2^31 otherwise |
| Saturation.PacksLane | libavfilter/vf_vidicon.c:222 | one lane of `_mm_packs_epi32`: the int32 clamped to [-32768, 32767] |
| Saturation.PackusLane | libavfilter/vf_vidicon.c:223 | one lane of `_mm_packus_epi16`: the int16 clamped to [0, 255] |
| Saturation.PacksEpi32 | libavfilter/vf_vidicon.c:222 | eight int16 lanes: lane i is lane i of a followed by b, clamped to [-32768, 32767] |
| Saturation.PackusEpi16 | libavfilter/vf_vidicon.c:223 | sixteen byte lanes: lane i is lane i of a followed by b, clamped to [0, 255] |
| Saturation.ConvertLane | libavfilter/vf_vidicon.c:219-223 | the conversion of one lane is the int32 that `_mm_cvtps_epi32` gives, clamped to [0, 255] |
| Saturation.PackChainIsClamp | libavfilter/vf_vidicon.c:222-223 | signed saturation to int16 followed by unsigned saturation to uint8 equals clamp(k, 0, 255) for every int32 k: it saturates and never wraps |
| Saturation.StoredBlockIsClamp | libavfilter/vf_vidicon.c:219-226 | the eight bytes stored after packs(lo, hi) and packus(_, zero) are the eight int32 lanes in order, each clamped to [0, 255]; the upper eight bytes are 0 |
| Saturation.ConvertLaneCases | libavfilter/vf_vidicon.c:219-223 | the lane conversion for every real: the clamped rounded value while the rounding fits in int32, 0 when it rounds to 2^31 or above, and 0 for every non-positive value |
| Saturation.ConvertLaneSaturatesHigh | libavfilter/vf_vidicon.c:219-223 | a scaled value in (254.5, 2^31 - 0.5) converts to 255 |
| Saturation.ConvertLaneOverflowIsBlack | libavfilter/vf_vidicon.c:219-223 | a scaled value of at least 2^31 - 0.5 converts to 0, because of the integer indefinite |
| Saturation.ConvertLaneOfByte | libavfilter/vf_vidicon.c:219-223 | a value already in [0, 255] passes through unchanged |
| Planes.Channel | libavfilter/vf_vidicon.c:137-144 | channel c of a line has width entries, and entry x is byte 3x + c of the line |
| Planes.Interleave | libavfilter/vf_vidicon.c:147-154 | a merged line has three bytes per pixel: bytes 3x, 3x + 1 and 3x + 2 are pixel x of the r, g and b planes |
| Planes.MergeOfSplit | libavfilter/vf_vidicon.c:137-154 | splitting a line and merging the planes gives back its first 3 * width bytes |
| Planes.SplitOfMerge | libavfilter/vf_vidicon.c:137-154 | merging three planes and splitting the result gives back the three planes |
| Planes.SplitRgb24ToPlanes | libavfilter/vf_vidicon.c:137-144 | plane c gets byte 3x + c of the line for each x < width, i.e. the line's channel c; entries from width on are unchanged |
| Planes.MergePlanesToRgb24 | libavfilter/vf_vidicon.c:147-154 | bytes 3x + 0/1/2 of the line get pixel x of the r/g/b planes, i.e. the interleaving of the planes; every byte outside the line's 3 * width bytes is unchanged |
| Params.ResolveLevel | libavfilter/vf_vidicon.c:107-113 | a resolved fade or gain is set (>= 0) and is the channel's own value, the shared value or the hard default |
| Params.ResolveBurnLevel | libavfilter/vf_vidicon.c:115-117 | a resolved burn is set (>= -1) and is the channel's own value, the shared value or 0 |
| Params.ResolveLevelTable | libavfilter/vf_vidicon.c:107-113 | fade/gain decision table: an own value >= 0 (0 included) is kept; else a shared value >= 0 is taken; else the default (0.5 for fade, 1.0 for gain) |
| Params.ResolveBurnLevelTable | libavfilter/vf_vidicon.c:115-117 | burn decision table with threshold -1: an own value >= -1 is kept; else a shared value >= -1 is taken; else 0 |
| Params.Resolve | libavfilter/vf_vidicon.c:106-117 | after the resolution block every per-channel fade and gain is set (>= 0) and every per-channel burn is set (>= -1); the shared fade, gain and burn stay as they are |
| Params.ResolveIsResolvedAndIdempotent | libavfilter/vf_vidicon.c:106-117 | after resolution every per-channel fade and gain is >= 0 and every burn >= -1; resolving again changes nothing |
| Params.ResolveKeepsResolved | libavfilter/vf_vidicon.c:106-117 | options whose per-channel values are all set are left as they are |
| Params.DefaultsResolveToHardDefaults | libavfilter/vf_vidicon.c:310-325 | with the option table's defaults (-1, -1, -2) every channel falls through to 0.5, 1.0 and 0.0 |
| Params.ResolvedRanges | libavfilter/vf_vidicon.c:310-325 | options within the table's ranges resolve to fade in [0, 1], gain in [0, 2] and burn in [-1, 1] for every channel |
| Accumulate.PlaneLen | libavfilter/vf_vidicon.c:170 | the number of entries the `x += 8` loop touches is a multiple of 8, at least width and less than width + 8 |
| Accumulate.Normalize | libavfilter/vf_vidicon.c:172-179 | a sample scaled by 1/255 lies in [0, 1] |
| Accumulate.Highlight | libavfilter/vf_vidicon.c:193-195 | the highlight max(0, v * 20b - 19b) is never negative |
| Accumulate.Step | libavfilter/vf_vidicon.c:189-207 | one frame of one pixel: the new burn-in is never below the decayed history, burn * burnFade |
| Accumulate.BurnInAtKnee | libavfilter/vf_vidicon.c:193-199 | for blend >= 0 a step raises the burn-in above its decayed history exactly when blend > 0 and the sample is at least 243 |
| Accumulate.Output | libavfilter/vf_vidicon.c:219-226 | the output byte is ConvertLane of 255 * acc; its cases are stated by OutputCases |
| Accumulate.OutputCases | libavfilter/vf_vidicon.c:219-226 | the output byte of an accumulator: 0 for acc <= 0; within 1/2 of 255 * acc while that is at most 254.5; 255 above that up to 2^31 - 0.5; 0 again from there on |
| Accumulate.HighlightKnee | libavfilter/vf_vidicon.c:166-167 | for blend >= 0 a sample burns in (positive highlight) exactly when blend > 0 and the sample is at least 243, i.e. above 19/20 of full scale |
| Accumulate.HighlightOfWhite | libavfilter/vf_vidicon.c:193-195 | a full-scale sample contributes exactly 20b - 19b = b |
| Accumulate.BurnStaysNonNegative | libavfilter/vf_vidicon.c:197-199 | with a non-negative decay, the new burn-in is at least the decayed history, and a non-negative history stays non-negative |
| Accumulate.ZeroInputOnlyDecays | libavfilter/vf_vidicon.c:189-207 | with zero input and no burn-in, a step only multiplies the accumulator by fade |
| Accumulate.ZeroSignalDecay | libavfilter/vf_vidicon.c:197-207 | after n black frames from a state without burn-in, the accumulator is its old value times fade^n and the burn-in stays 0 |
| Accumulate.PowDecays | libavfilter/vf_vidicon.c:201-203 | for fade in [0, 1] the decay factor fade^n stays in [0, 1] and does not grow with n |
| Accumulate.GeometricFixedPoint | libavfilter/vf_vidicon.c:189-207 | a constant sample below the knee with no burn-in has the fixed point v * blend / (1 - fade): one Step leaves it unchanged |
| Accumulate.FixedPoint | libavfilter/vf_vidicon.c:197-207 | for fade != 1 the fixed point fix = v * blend / (1 - fade) solves fix * (1 - fade) = v * blend |
| Accumulate.StepTowards | libavfilter/vf_vidicon.c:189-207 | below the knee a step from (a, 0) gives (fix + (a - fix) * fade, 0): the distance to the fixed point is multiplied by fade and the burn-in stays 0 |
| Accumulate.FramesTowards | libavfilter/vf_vidicon.c:189-207 | n frames of a constant sample below the knee apply that contraction n times |
| Accumulate.ConstantInputConverges | libavfilter/vf_vidicon.c:189-207 | after n frames of a constant sample below the knee from (a, 0) the state is (fix + (a - fix) * fade^n, 0), with fix = v * blend / (1 - fade) |
| Accumulate.ConstantInputApproaches | libavfilter/vf_vidicon.c:189-207 | for a constant sample below the knee, from a state without burn-in, and fade in [0, 1): the distance to the fixed point after n frames is at most the distance after m <= n frames, which is at most the initial distance |
| Accumulate.StepWithoutDepth | libavfilter/vf_vidicon.c:197-207 | with burn depth 0, for every sample and every burn-in history, a step gives fix + (acc - fix) * fade for any fix with fix * (1 - fade) = v * blend |
| Accumulate.FramesTowardsWithoutDepth | libavfilter/vf_vidicon.c:197-207 | with burn depth 0, n constant frames apply that contraction n times, whatever the burn-in |
| Accumulate.ConstantInputConvergesWithoutDepth | libavfilter/vf_vidicon.c:189-207 | with burn depth 0, for any sample and any start state, the accumulator after n constant frames is fix + (acc - fix) * fade^n |
| Accumulate.PowMonotone | libavfilter/vf_vidicon.c:201-203 | for fade in [0, 1] and m <= n, 0 <= fade^n <= fade^m <= 1 |
| Accumulate.ProcessLane | libavfilter/vf_vidicon.c:172-226 | one lane: pixel i takes one Step with its sample and the output byte of the new accumulator is stored; nothing else changes |
| Accumulate.ProcessBlock | libavfilter/vf_vidicon.c:170-227 | one iteration of the loop: pixels x .. x+7 each take one Step and get their output byte; nothing outside the block changes |
| Accumulate.ProcessColorPlane | libavfilter/vf_vidicon.c:158-228 | every pixel below PlaneLen(width) takes one Step with its sample: all of the row plus the tail of the last block. dst holds their output bytes; nothing beyond PlaneLen(width) changes. The arrays must hold PlaneLen(width) entries |
| Grids.ScratchAsWrittenTooShort | libavfilter/vf_vidicon.c:98-104 | the scratch planes as allocated (height * sizeof(float *) bytes) are shorter than the PlaneLen(width) bytes the loop touches whenever width > 8 * height |
| Grids.ScratchAsWrittenTooShortAt1920x200 | libavfilter/vf_vidicon.c:98-104 | for a 1920 x 200 frame: 1600 bytes allocated against 1920 touched |
| Grids.RowAsWrittenTooShort | libavfilter/vf_vidicon.c:81-96 | a grid row as allocated (width floats) is shorter than the PlaneLen(width) floats the loop touches whenever width is not a multiple of 8 |
| Grids.NewGrid | libavfilter/vf_vidicon.c:77-96 | one grid: h zeroed rows of n floats, each a newly allocated array tagged with (grid, row) |
| Grids.NewPlane | libavfilter/vf_vidicon.c:98-104 | one newly allocated, zeroed scratch plane of n bytes |
| Grids.Allocate | libavfilter/vf_vidicon.c:76-104 | all allocations of config_input, corrected: six zeroed grids of h distinct, newly allocated rows of PlaneLen(w) floats and six distinct, newly allocated, zeroed planes of PlaneLen(w) bytes |
| Vidicon.ChannelCoeffs | libavfilter/vf_vidicon.c:248-250 | the coefficients (fade, gain / 2, 0.99, burn / 10) passed for one channel; what they mean is stated by ChannelCoeffsMeaning |
| Vidicon.ChannelCoeffsMeaning | libavfilter/vf_vidicon.c:248-250 | the coefficients passed for a channel keep its fade, make the blend gain / 2 and the burn depth burn / 10, and fix the burn-in decay at 0.99; within the option ranges the blend lies in [0, 1] and the burn depth in [-0.1, 0.1] |
| Vidicon.LineStart | libavfilter/vf_vidicon.c:244 | line y starts at offset y * stride |
| Vidicon.DenseFrameFits | libavfilter/vf_vidicon.c:242-244 | a buffer of height * stride bytes with 3 * width <= stride holds every line |
| Vidicon.LinesApart | libavfilter/vf_vidicon.c:242-253 | the pixels of an earlier line end before a later line starts |
| Vidicon.LaterLineOutside | libavfilter/vf_vidicon.c:242-253 | the bytes of line y lie outside the pixels of lines 0 .. y-1 |
| Vidicon.LineSamples | libavfilter/vf_vidicon.c:170-179 | the samples a plane call sees for channel c: component c of each pixel below width, and 0 for the tail lanes up to PlaneLen(width) |
| Vidicon.LineSamplesAreChannel | libavfilter/vf_vidicon.c:246 | on the pixels of the line those samples are the channel plane split_rgb24_to_planes extracts |
| Vidicon.LineSamplesOfSameLine | libavfilter/vf_vidicon.c:246 | the samples of a line depend only on that line's bytes |
| Vidicon.LineShowsKept | libavfilter/vf_vidicon.c:251 | a merged line keeps showing its accumulators while its own bytes are unchanged |
| Vidicon.NoLinesFiltered | libavfilter/vf_vidicon.c:242 | before the row loop, zero lines are filtered |
| Vidicon.ChannelStep | libavfilter/vf_vidicon.c:248-250 | stepping row y of a channel from an unmodified line extends the stepped rows to 0 .. y and leaves rows after y fresh |
| Vidicon.LinesShownStep | libavfilter/vf_vidicon.c:251 | merging line y keeps lines 0 .. y-1 showing their accumulators |
| Vidicon.FrameKeptStep | libavfilter/vf_vidicon.c:251 | after merging line y, only bytes of lines 0 .. y differ from the original frame |
| Vidicon.FilterLineStep | libavfilter/vf_vidicon.c:242-253 | one loop turn preserves the loop invariant: with lines 0 .. y-1 filtered, filtering line y leaves lines 0 .. y filtered, each row stepped with its line's original samples |
| Vidicon.TrailContext.constructor | libavfilter/vf_vidicon.c:69-117 | config_input: the geometry is the input's; every grid row and scratch plane is a newly allocated array, zeroed and sized as the loop needs; the options are resolved |
| Vidicon.TrailContext.ResolveParameters | libavfilter/vf_vidicon.c:106-117 | the statements of the resolution block turn the options o into Resolve(o) |
| Vidicon.TrailContext.ResolveFades | libavfilter/vf_vidicon.c:107-109 | each fade field becomes ResolveLevel of its old value, the shared fade and 0.5 |
| Vidicon.TrailContext.ResolveGains | libavfilter/vf_vidicon.c:111-113 | each gain field becomes ResolveLevel of its old value, the shared gain and 1.0 |
| Vidicon.TrailContext.ResolveBurns | libavfilter/vf_vidicon.c:115-117 | each burn field becomes ResolveBurnLevel of its old value and the shared burn |
| Vidicon.TrailContext.RowDistinct | libavfilter/vf_vidicon.c:81-96 | the six rows y of the grids are six different arrays |
| Vidicon.TrailContext.RowsApart | libavfilter/vf_vidicon.c:81-96 | rows r and y of the grids share no array when r != y |
| Vidicon.TrailContext.SplitLine | libavfilter/vf_vidicon.c:246 | the scratch planes src hold the line's samples of each channel, and their tails stay 0 |
| Vidicon.TrailContext.ProcessPlanes | libavfilter/vf_vidicon.c:248-250 | row y of each channel takes one Step with coefficients (fade, gain / 2, 0.99, burn / 10) and the samples in src; out holds the output bytes |
| Vidicon.TrailContext.MergeLine | libavfilter/vf_vidicon.c:251 | the line shows the output bytes held in out; no other byte of the frame changes |
| Vidicon.TrailContext.FilterRow | libavfilter/vf_vidicon.c:244-251 | the loop body for one line: row y of each channel takes one Step with the line's samples, the line shows the new accumulators, and no other frame byte changes |
| Vidicon.TrailContext.FilterLine | libavfilter/vf_vidicon.c:242-253 | FilterRow stated on contents: besides row y, no grid row changes |
| Vidicon.TrailContext.FilterNextLine | libavfilter/vf_vidicon.c:242-253 | one turn of the row loop advances LinesFiltered from y to y + 1 lines |
| Vidicon.TrailContext.FilterFrame | libavfilter/vf_vidicon.c:230-256 | filter_frame's row loop: every row y of every channel took exactly one Step with its line's original samples, every line shows its new accumulators, and no other byte of the frame changes |

## Left out

- Floats are modelled by reals: the model has no single-precision rounding and no NaN or infinity. Saturation and the `_mm_cvtps_epi32` rounding (ties to even, the default MXCSR mode) are modelled exactly.
- SSE2 registers as such: each lane is one scalar step, the eight lanes of a block run in order, and each lane reads and writes only its own index (ProcessLane).
- `query_formats`, the pad, filter and class tables, `av_log` in config_input, `av_frame_make_writable` and `ff_filter_frame`: host-framework calls outside the filter's logic. The option table appears only through its defaults and ranges (`DEFAULT_OPTIONS`, `InOptionRange`).
- `uninit` and allocation failure: `av_mallocz` is modelled as an allocation that succeeds. Memory release has no counterpart in Dafny.
- Vidicon.TrailContext.FilterFrame: requires the frame's width and height to equal the configured ones. filter_frame does not check this. A wider or taller frame would index the grids out of range; a smaller one would be processed on part of the grids, which the model does not cover.
- Vidicon.TrailContext.FilterFrame: models a non-negative `linesize[0]` only (line y at offset y * stride).
- Vidicon.TrailContext.constructor: assigns the resolved options Resolve(o) directly. `ResolveParameters` models the block's statements on the fields and proves they compute the same Resolve.
- The unused fields `blend_factor` and `fade_factor` are not part of the model.
- The `int` loop counters are not modelled as 32-bit: frame sizes are taken to fit.

## Findings

| source | as written | input that shows it | evidently intended | confidence | as-written member | corrected member |
|---|---|---|---|---|---|---|
| libavfilter/vf_vidicon.c:98-104 | the six scratch planes are allocated `height * sizeof(float *)` bytes, though they hold one line of bytes | a 1920 x 200 frame: 1600 bytes allocated, while the plane loop reads and writes 1920 | one line of PlaneLen(width) bytes per plane | high, not executed | Grids.ScratchAsWrittenTooShort (Grids.ScratchAsWrittenTooShortAt1920x200) | Grids.Allocate |
| libavfilter/vf_vidicon.c:81-96 | each grid row is allocated `width` floats, but the block loop loads and stores eight floats at a time up to PlaneLen(width) | width 1 (any width not a multiple of 8): 1 float allocated, 8 touched | rows of PlaneLen(width) floats | high, not executed | Grids.RowAsWrittenTooShort | Grids.NewGrid |
