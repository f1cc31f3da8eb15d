/**
  The filter instance (VidiconTrailContext) and its two entry points: config_input, which
  allocates the persistent state and resolves the per-channel parameters, and filter_frame,
  which splits each line of a frame into planes, runs the accumulation step on each plane
  and merges the result back into the line in place.

  A frame is its byte buffer data[0] with line y starting at offset y * stride (linesize[0]).
  Each float ** grid is the sequence of its height row arrays, each allocated on its own.
 */
module Vidicon {
  import opened Ints
  import opened Params
  import opened Planes
  import opened Accumulate
  import opened Grids

  /** The burn-in decay that filter_frame passes to every plane. */
  const BURN_FADE: real := 0.99

  /** The coefficients filter_frame passes for one channel: fade, gain / 2, 0.99, burn / 10. */
  function ChannelCoeffs(fade: real, gain: real, burn: real): Coeffs
  {
    Coeffs(fade, gain / 2.0, BURN_FADE, burn / 10.0)
  }

  /** The coefficients recover the channel's options (fade as is, gain as twice the blend, burn
      as ten times the burn depth) with the burn-in decay fixed at 0.99; within the option
      ranges the blend lies in [0, 1] and the burn depth in [-0.1, 0.1]. */
  lemma ChannelCoeffsMeaning(fade: real, gain: real, burn: real)
    ensures ChannelCoeffs(fade, gain, burn).fade == fade
    ensures ChannelCoeffs(fade, gain, burn).blend * 2.0 == gain
    ensures ChannelCoeffs(fade, gain, burn).burnDepth * 10.0 == burn
    ensures ChannelCoeffs(fade, gain, burn).burnFade == BURN_FADE
    ensures 0.0 <= gain <= 2.0 ==> 0.0 <= ChannelCoeffs(fade, gain, burn).blend <= 1.0
    ensures -1.0 <= burn <= 1.0 ==> -0.1 <= ChannelCoeffs(fade, gain, burn).burnDepth <= 0.1
  {
  }

  /** Offset of line y in a frame buffer: line y starts at y * stride, as
      `frame->data[0] + y * stride` computes it. It is defined by adding stride line by line,
      with the product as its ensures, so that the proofs about consecutive lines reason on
      sums and the solver does not reason about a product of two variables there. */
  function LineStart(y: nat, stride: nat): (off: nat)
    ensures off == y * stride
  {
    if y == 0 then 0 else LineStart(y - 1, stride) + stride
  }

  /** A frame buffer of len bytes holds height lines of width packed pixels, stride apart. */
  predicate FrameFits(len: nat, stride: nat, width: nat, height: nat)
  {
    && 3 * width <= stride
    && forall y :: 0 <= y < height ==> LineStart(y, stride) + 3 * width <= len
  }

  /** Byte i of a frame buffer belongs to the pixels of some line. */
  predicate InPixelArea(i: nat, stride: nat, width: nat, height: nat)
  {
    exists y :: 0 <= y < height && LineStart(y, stride) <= i < LineStart(y, stride) + 3 * width
  }

  /** The usual frame buffer of height * stride bytes holds every line. */
  lemma DenseFrameFits(len: nat, stride: nat, width: nat, height: nat)
    requires 3 * width <= stride && height * stride <= len
    ensures FrameFits(len, stride, width, height)
  {
    forall y | 0 <= y < height
      ensures LineStart(y, stride) + 3 * width <= len
    {
      LinesApart(stride, width, y, height);
    }
  }

  /** The pixels of an earlier line end before a later line starts. */
  lemma {:induction false} LinesApart(stride: nat, width: nat, r: nat, y: nat)
    requires 3 * width <= stride && r < y
    ensures LineStart(r, stride) + 3 * width <= LineStart(y, stride)
    decreases y
  {
    if r < y - 1 {
      LinesApart(stride, width, r, y - 1);
    }
  }

  /** The bytes of line y lie outside the pixels of lines 0 .. y-1. */
  lemma LaterLineOutside(i: nat, stride: nat, width: nat, y: nat)
    requires 3 * width <= stride && LineStart(y, stride) <= i
    ensures !InPixelArea(i, stride, width, y)
  {
    if InPixelArea(i, stride, width, y) {
      var r :| 0 <= r < y && LineStart(r, stride) <= i < LineStart(r, stride) + 3 * width;
      LinesApart(stride, width, r, y);
      assert false;
    }
  }

  /** A byte outside the pixels of lines 0 .. y is outside those of lines 0 .. y-1 and of line y. */
  lemma PixelAreaGrows(i: nat, stride: nat, width: nat, y: nat)
    requires !InPixelArea(i, stride, width, y + 1)
    ensures !InPixelArea(i, stride, width, y)
    ensures !(LineStart(y, stride) <= i < LineStart(y, stride) + 3 * width)
  {
  }

  /** The samples process_color_plane_sse2 sees for channel c (0 = red, 1 = green, 2 = blue) of
      the line at offset off of frame buffer d: component c of pixel x for x < width, and a
      black tail lane for width <= x < PlaneLen(width). */
  function LineSamples(d: seq<byte>, off: nat, c: nat, width: nat): (s: seq<byte>)
    requires c < 3 && off + 3 * width <= |d|
    ensures |s| == PlaneLen(width)
    ensures forall x :: 0 <= x < width ==> s[x] == d[off + 3 * x + c]
    ensures forall x :: width <= x < |s| ==> s[x] == 0
  {
    seq(PlaneLen(width), x requires 0 <= x < PlaneLen(width) => if x < width then d[off + 3 * x + c] else 0)
  }

  /** The samples of a line's pixels are its channel planes, as split_rgb24_to_planes splits it. */
  lemma LineSamplesAreChannel(d: seq<byte>, off: nat, c: nat, width: nat)
    requires c < 3 && off + 3 * width <= |d|
    ensures LineSamples(d, off, c, width)[..width] == Channel(d[off..off + 3 * width], c, width)
  {
  }

  /** The samples of a line depend only on the line's own bytes. */
  lemma LineSamplesOfSameLine(d0: seq<byte>, d1: seq<byte>, off: nat, width: nat)
    requires off + 3 * width <= |d0| && off + 3 * width <= |d1|
    requires forall i :: off <= i < off + 3 * width ==> d0[i] == d1[i]
    ensures LineSamples(d0, off, 0, width) == LineSamples(d1, off, 0, width)
    ensures LineSamples(d0, off, 1, width) == LineSamples(d1, off, 1, width)
    ensures LineSamples(d0, off, 2, width) == LineSamples(d1, off, 2, width)
  {
  }

  /** The line at offset off of data shows the accumulators: byte 3x + c is the output byte of
      entry x of channel c's accumulator row. */
  predicate LineShows(data: seq<byte>, off: nat, aR: seq<real>, aG: seq<real>, aB: seq<real>, width: nat)
  {
    && off + 3 * width <= |data| && width <= |aR| && width <= |aG| && width <= |aB|
    && forall x :: 0 <= x < width ==>
      && data[off + 3 * x] == Output(aR[x])
      && data[off + 3 * x + 1] == Output(aG[x])
      && data[off + 3 * x + 2] == Output(aB[x])
  }

  /** A line keeps showing the accumulators in a buffer that agrees with it on the line. */
  lemma LineShowsKept(d0: seq<byte>, d1: seq<byte>, off: nat, aR: seq<real>, aG: seq<real>, aB: seq<real>, width: nat)
    requires LineShows(d0, off, aR, aG, aB, width)
    requires off + 3 * width <= |d1|
    requires forall i :: off <= i < off + 3 * width ==> d1[i] == d0[i]
    ensures LineShows(d1, off, aR, aG, aB, width)
  {
  }

  /** The contents of the rows of a grid, in order. */
  ghost function Rows(g: seq<array<real>>): (v: seq<seq<real>>)
    reads g
    ensures |v| == |g| && forall r :: 0 <= r < |g| ==> v[r] == g[r][..]
  {
    seq(|g|, r requires 0 <= r < |g| reads g => g[r][..])
  }

  /** The contents of the six grids of an instance. */
  datatype GridContents = GridContents(
    accR: seq<seq<real>>, accG: seq<seq<real>>, accB: seq<seq<real>>,
    burnR: seq<seq<real>>, burnG: seq<seq<real>>, burnB: seq<seq<real>>)

  /** Rows 0 .. y-1 of one channel's grids (acc, burn) have each taken one Step from
      (acc0, burn0) with the channel-c samples of their line in frame d0. */
  predicate ChannelStepped(k: Coeffs, acc: seq<seq<real>>, burn: seq<seq<real>>, acc0: seq<seq<real>>, burn0: seq<seq<real>>,
                           d0: seq<byte>, stride: nat, width: nat, c: nat, y: nat)
  {
    && c < 3 && y <= |acc| && y <= |burn| && y <= |acc0| && y <= |burn0|
    && forall r :: 0 <= r < y ==>
         && LineStart(r, stride) + 3 * width <= |d0|
         && RowStepped(k, acc[r], burn[r], acc0[r], burn0[r], LineSamples(d0, LineStart(r, stride), c, width))
  }

  /** Rows y and later of one channel's grids (acc, burn) are as in (acc0, burn0). */
  predicate ChannelFresh(acc: seq<seq<real>>, burn: seq<seq<real>>, acc0: seq<seq<real>>, burn0: seq<seq<real>>, y: nat)
  {
    && |acc| == |burn| == |acc0| == |burn0|
    && forall r :: y <= r < |acc| ==> acc[r] == acc0[r] && burn[r] == burn0[r]
  }

  /** One channel's grids (acc2, burn2) differ from (acc1, burn1) at most in row y. */
  predicate ChannelSameExceptRow(acc1: seq<seq<real>>, burn1: seq<seq<real>>, acc2: seq<seq<real>>, burn2: seq<seq<real>>, y: nat)
  {
    && |acc1| == |burn1| == |acc2| == |burn2|
    && forall r :: 0 <= r < |acc1| && r != y ==> acc2[r] == acc1[r] && burn2[r] == burn1[r]
  }

  /** Lines 0 .. y-1 of frame d show rows 0 .. y-1 of the accumulators. */
  predicate LinesShown(d: seq<byte>, aR: seq<seq<real>>, aG: seq<seq<real>>, aB: seq<seq<real>>, stride: nat, width: nat, y: nat)
  {
    && y <= |aR| && y <= |aG| && y <= |aB|
    && forall r :: 0 <= r < y ==> LineShows(d, LineStart(r, stride), aR[r], aG[r], aB[r], width)
  }

  /** Frame d differs from d0 only in the pixels of lines 0 .. y-1. */
  predicate FrameKept(d0: seq<byte>, d: seq<byte>, stride: nat, width: nat, y: nat)
  {
    && |d| == |d0|
    && forall i :: 0 <= i < |d| && !InPixelArea(i, stride, width, y) ==> d[i] == d0[i]
  }

  /** The effect of filtering the line at offset off of frame d1 with row y of grids g1,
      giving frame d2 and grids g2: row y of each channel takes one Step with that channel's
      samples of the line, the line shows the new accumulators, and no other row and no byte
      outside the line changes. */
  predicate LineFiltered(d1: seq<byte>, g1: GridContents, d2: seq<byte>, g2: GridContents,
                         off: nat, width: nat, y: nat, kR: Coeffs, kG: Coeffs, kB: Coeffs)
  {
    && off + 3 * width <= |d1| == |d2|
    && y < |g1.accR| && y < |g1.accG| && y < |g1.accB|
    && ChannelSameExceptRow(g1.accR, g1.burnR, g2.accR, g2.burnR, y)
    && ChannelSameExceptRow(g1.accG, g1.burnG, g2.accG, g2.burnG, y)
    && ChannelSameExceptRow(g1.accB, g1.burnB, g2.accB, g2.burnB, y)
    && RowStepped(kR, g2.accR[y], g2.burnR[y], g1.accR[y], g1.burnR[y], LineSamples(d1, off, 0, width))
    && RowStepped(kG, g2.accG[y], g2.burnG[y], g1.accG[y], g1.burnG[y], LineSamples(d1, off, 1, width))
    && RowStepped(kB, g2.accB[y], g2.burnB[y], g1.accB[y], g1.burnB[y], LineSamples(d1, off, 2, width))
    && LineShows(d2, off, g2.accR[y], g2.accG[y], g2.accB[y], width)
    && forall i :: 0 <= i < |d1| && !(off <= i < off + 3 * width) ==> d2[i] == d1[i]
  }

  /** Lines 0 .. y-1 of a frame whose bytes were d0 have been filtered from grids whose contents
      were g0, giving frame d and grids g: each of those rows has taken one Step with the samples
      of its line in d0 and its line in d shows it, the other rows are as in g0, and only bytes
      of those lines differ from d0. */
  predicate LinesFiltered(d0: seq<byte>, g0: GridContents, d: seq<byte>, g: GridContents,
                          stride: nat, width: nat, height: nat, y: nat, kR: Coeffs, kG: Coeffs, kB: Coeffs)
  {
    && y <= height && FrameFits(|d0|, stride, width, height)
    && |g0.accR| == |g0.accG| == |g0.accB| == height
    && ChannelStepped(kR, g.accR, g.burnR, g0.accR, g0.burnR, d0, stride, width, 0, y)
    && ChannelStepped(kG, g.accG, g.burnG, g0.accG, g0.burnG, d0, stride, width, 1, y)
    && ChannelStepped(kB, g.accB, g.burnB, g0.accB, g0.burnB, d0, stride, width, 2, y)
    && ChannelFresh(g.accR, g.burnR, g0.accR, g0.burnR, y)
    && ChannelFresh(g.accG, g.burnG, g0.accG, g0.burnG, y)
    && ChannelFresh(g.accB, g.burnB, g0.accB, g0.burnB, y)
    && LinesShown(d, g.accR, g.accG, g.accB, stride, width, y)
    && FrameKept(d0, d, stride, width, y)
  }

  /** Before the row loop no line has been filtered. */
  lemma NoLinesFiltered(d0: seq<byte>, g0: GridContents, stride: nat, width: nat, height: nat, kR: Coeffs, kG: Coeffs, kB: Coeffs)
    requires FrameFits(|d0|, stride, width, height)
    requires |g0.accR| == |g0.burnR| == |g0.accG| == |g0.burnG| == |g0.accB| == |g0.burnB| == height
    ensures LinesFiltered(d0, g0, d0, g0, stride, width, height, 0, kR, kG, kB)
  {
  }

  /** Filtering line y of one channel, while the line still holds its bytes of d0, extends the
      stepped rows to 0 .. y and the fresh rows shrink to y+1 and later. */
  lemma ChannelStep(k: Coeffs, acc0: seq<seq<real>>, burn0: seq<seq<real>>, acc1: seq<seq<real>>, burn1: seq<seq<real>>,
                    acc2: seq<seq<real>>, burn2: seq<seq<real>>, d0: seq<byte>, d1: seq<byte>,
                    stride: nat, width: nat, c: nat, y: nat)
    requires c < 3 && y < |acc0| && LineStart(y, stride) + 3 * width <= |d0| == |d1|
    requires ChannelStepped(k, acc1, burn1, acc0, burn0, d0, stride, width, c, y)
    requires ChannelFresh(acc1, burn1, acc0, burn0, y)
    requires ChannelSameExceptRow(acc1, burn1, acc2, burn2, y)
    requires RowStepped(k, acc2[y], burn2[y], acc1[y], burn1[y], LineSamples(d1, LineStart(y, stride), c, width))
    requires forall i :: LineStart(y, stride) <= i < LineStart(y, stride) + 3 * width ==> d1[i] == d0[i]
    ensures ChannelStepped(k, acc2, burn2, acc0, burn0, d0, stride, width, c, y + 1)
    ensures ChannelFresh(acc2, burn2, acc0, burn0, y + 1)
  {
    LineSamplesOfSameLine(d0, d1, LineStart(y, stride), width);
  }

  /** Merging line y into a frame keeps the earlier lines shown, since the lines do not overlap. */
  lemma LinesShownStep(d1: seq<byte>, d2: seq<byte>, aR1: seq<seq<real>>, aG1: seq<seq<real>>, aB1: seq<seq<real>>,
                       aR2: seq<seq<real>>, aG2: seq<seq<real>>, aB2: seq<seq<real>>, stride: nat, width: nat, y: nat)
    requires 3 * width <= stride && |d1| == |d2|
    requires LinesShown(d1, aR1, aG1, aB1, stride, width, y)
    requires y < |aR2| && y < |aG2| && y < |aB2|
    requires forall r :: 0 <= r < y ==> aR2[r] == aR1[r] && aG2[r] == aG1[r] && aB2[r] == aB1[r]
    requires LineShows(d2, LineStart(y, stride), aR2[y], aG2[y], aB2[y], width)
    requires forall i :: 0 <= i < |d1| && !(LineStart(y, stride) <= i < LineStart(y, stride) + 3 * width) ==> d2[i] == d1[i]
    ensures LinesShown(d2, aR2, aG2, aB2, stride, width, y + 1)
  {
    forall r | 0 <= r < y
      ensures LineShows(d2, LineStart(r, stride), aR2[r], aG2[r], aB2[r], width)
    {
      LinesApart(stride, width, r, y);
      LineShowsKept(d1, d2, LineStart(r, stride), aR2[r], aG2[r], aB2[r], width);
    }
  }

  /** Changing only the bytes of line y grows the changed area by that line. */
  lemma FrameKeptStep(d0: seq<byte>, d1: seq<byte>, d2: seq<byte>, stride: nat, width: nat, y: nat)
    requires FrameKept(d0, d1, stride, width, y) && |d2| == |d1|
    requires forall i :: 0 <= i < |d1| && !(LineStart(y, stride) <= i < LineStart(y, stride) + 3 * width) ==> d2[i] == d1[i]
    ensures FrameKept(d0, d2, stride, width, y + 1)
  {
    forall i | 0 <= i < |d2| && !InPixelArea(i, stride, width, y + 1)
      ensures d2[i] == d0[i]
    {
      PixelAreaGrows(i, stride, width, y);
    }
  }

  /** Filtering line y after lines 0 .. y-1 have been filtered gives lines 0 .. y filtered: the
      line still holds its original bytes when it is split, and later lines neither read nor
      write the bytes of earlier ones. */
  lemma FilterLineStep(d0: seq<byte>, g0: GridContents, d1: seq<byte>, g1: GridContents, d2: seq<byte>, g2: GridContents,
                       stride: nat, width: nat, height: nat, y: nat, kR: Coeffs, kG: Coeffs, kB: Coeffs)
    requires y < height
    requires LinesFiltered(d0, g0, d1, g1, stride, width, height, y, kR, kG, kB)
    requires LineFiltered(d1, g1, d2, g2, LineStart(y, stride), width, y, kR, kG, kB)
    ensures LinesFiltered(d0, g0, d2, g2, stride, width, height, y + 1, kR, kG, kB)
  {
    var line := LineStart(y, stride);
    forall i | line <= i < line + 3 * width
      ensures d1[i] == d0[i]
    {
      LaterLineOutside(i, stride, width, y);
    }
    ChannelStep(kR, g0.accR, g0.burnR, g1.accR, g1.burnR, g2.accR, g2.burnR, d0, d1, stride, width, 0, y);
    ChannelStep(kG, g0.accG, g0.burnG, g1.accG, g1.burnG, g2.accG, g2.burnG, d0, d1, stride, width, 1, y);
    ChannelStep(kB, g0.accB, g0.burnB, g1.accB, g1.burnB, g2.accB, g2.burnB, d0, d1, stride, width, 2, y);
    LinesShownStep(d1, d2, g1.accR, g1.accG, g1.accB, g2.accR, g2.accG, g2.accB, stride, width, y);
    FrameKeptStep(d0, d1, d2, stride, width, y);
  }

  /** The state of one vidicon filter instance. */
  class TrailContext {
    // per-channel and shared options
    var fadeR: real
    var fadeG: real
    var fadeB: real
    var gainR: real
    var gainG: real
    var gainB: real
    var burnR: real
    var burnG: real
    var burnB: real
    var fade: real
    var gain: real
    var burn: real

    // stream geometry
    var width: nat
    var height: nat

    // persistent accumulator and burn-in grids: height row pointers each
    var accumR: seq<array<real>>
    var accumG: seq<array<real>>
    var accumB: seq<array<real>>
    var burnAccR: seq<array<real>>
    var burnAccG: seq<array<real>>
    var burnAccB: seq<array<real>>

    // scratch planes for one row
    var srcR: array<byte>
    var srcG: array<byte>
    var srcB: array<byte>
    var outR: array<byte>
    var outG: array<byte>
    var outB: array<byte>

    /** Tells the grid rows apart: row y of accumR, accumG, accumB, burnAccR, burnAccG and
        burnAccB is tagged (0, y) .. (5, y). */
    ghost var Tag: map<array<real>, (nat, nat)>

    /** The option fields as one value. */
    function Opts(): Options
      reads this
    {
      Options(fade, gain, burn, fadeR, fadeG, fadeB, gainR, gainG, gainB, burnR, burnG, burnB)
    }

    /** Every grid has height rows of PlaneLen(width) entries, every scratch plane
        PlaneLen(width) bytes, and no two rows or planes are the same object. */
    ghost predicate Valid()
      reads this`width, this`height, this`Tag, this`accumR, this`accumG, this`accumB
      reads this`burnAccR, this`burnAccG, this`burnAccB
      reads this`srcR, this`srcG, this`srcB, this`outR, this`outG, this`outB
    {
      Allocated(width, height, Tag, accumR, accumG, accumB, burnAccR, burnAccG, burnAccB, srcR, srcG, srcB, outR, outG, outB)
    }

    /** A frame buffer that is none of the scratch planes. */
    predicate IsFrameBuffer(data: array<byte>)
      reads this
    {
      data != srcR && data != srcG && data != srcB && data != outR && data != outG && data != outB
    }

    /** The lanes of the last block beyond the row (x >= width) read the scratch planes' tail,
        which split_rgb24_to_planes never writes and which therefore stays zero. */
    ghost predicate TailsBlack()
      reads this`width, this`srcR, this`srcG, this`srcB, srcR, srcG, srcB
    {
      && (forall x :: width <= x < srcR.Length ==> srcR[x] == 0)
      && (forall x :: width <= x < srcG.Length ==> srcG[x] == 0)
      && (forall x :: width <= x < srcB.Length ==> srcB[x] == 0)
    }

    /** config_input on an instance whose options are o, for a w x h input: fixes the
        geometry, allocates new zeroed grids of h rows and zeroed scratch planes, PlaneLen(w)
        entries per row, and leaves the option fields as the resolution block leaves them:
        Resolve(o), which ResolveParameters shows is what the block's statements compute. */
    constructor (o: Options, w: nat, h: nat)
      ensures Valid() && TailsBlack()
      ensures width == w && height == h
      ensures Opts() == Resolve(o)
      ensures RowsZeroed(accumR) && RowsZeroed(accumG) && RowsZeroed(accumB)
      ensures RowsZeroed(burnAccR) && RowsZeroed(burnAccG) && RowsZeroed(burnAccB)
      ensures PlaneZeroed(srcR) && PlaneZeroed(srcG) && PlaneZeroed(srcB)
      ensures PlaneZeroed(outR) && PlaneZeroed(outG) && PlaneZeroed(outB)
      ensures forall y :: 0 <= y < h ==> fresh(accumR[y]) && fresh(accumG[y]) && fresh(accumB[y])
      ensures forall y :: 0 <= y < h ==> fresh(burnAccR[y]) && fresh(burnAccG[y]) && fresh(burnAccB[y])
      ensures fresh(srcR) && fresh(srcG) && fresh(srcB) && fresh(outR) && fresh(outG) && fresh(outB)
    {
      width, height := w, h;
      var t, aR, aG, aB, bR, bG, bB, sR, sG, sB, oR, oG, oB := Allocate(w, h);
      accumR, accumG, accumB, burnAccR, burnAccG, burnAccB := aR, aG, aB, bR, bG, bB;
      srcR, srcG, srcB, outR, outG, outB := sR, sG, sB, oR, oG, oB;
      Tag := t;
      var r := Resolve(o);
      fade, gain, burn := r.fade, r.gain, r.burn;
      fadeR, fadeG, fadeB := r.fadeR, r.fadeG, r.fadeB;
      gainR, gainG, gainB := r.gainR, r.gainG, r.gainB;
      burnR, burnG, burnB := r.burnR, r.burnG, r.burnB;
    }

    /** The resolution block of config_input: each unset per-channel value is replaced by the
        shared value if that is set, else by the hard default. */
    method ResolveParameters()
      modifies this`fadeR, this`fadeG, this`fadeB, this`gainR, this`gainG, this`gainB
      modifies this`burnR, this`burnG, this`burnB
      ensures Opts() == Resolve(old(Opts()))
    {
      ResolveFades();
      ResolveGains();
      ResolveBurns();
    }

    /** The fade lines of the resolution block. */
    method ResolveFades()
      modifies this`fadeR, this`fadeG, this`fadeB
      ensures fadeR == ResolveLevel(old(fadeR), fade, FADE_DEFAULT)
      ensures fadeG == ResolveLevel(old(fadeG), fade, FADE_DEFAULT)
      ensures fadeB == ResolveLevel(old(fadeB), fade, FADE_DEFAULT)
    {
      if fadeR < 0.0 { fadeR := if fade >= 0.0 then fade else FADE_DEFAULT; }
      if fadeG < 0.0 { fadeG := if fade >= 0.0 then fade else FADE_DEFAULT; }
      if fadeB < 0.0 { fadeB := if fade >= 0.0 then fade else FADE_DEFAULT; }
    }

    /** The gain lines of the resolution block. */
    method ResolveGains()
      modifies this`gainR, this`gainG, this`gainB
      ensures gainR == ResolveLevel(old(gainR), gain, GAIN_DEFAULT)
      ensures gainG == ResolveLevel(old(gainG), gain, GAIN_DEFAULT)
      ensures gainB == ResolveLevel(old(gainB), gain, GAIN_DEFAULT)
    {
      if gainR < 0.0 { gainR := if gain >= 0.0 then gain else GAIN_DEFAULT; }
      if gainG < 0.0 { gainG := if gain >= 0.0 then gain else GAIN_DEFAULT; }
      if gainB < 0.0 { gainB := if gain >= 0.0 then gain else GAIN_DEFAULT; }
    }

    /** The burn lines of the resolution block, with the burn threshold -1. */
    method ResolveBurns()
      modifies this`burnR, this`burnG, this`burnB
      ensures burnR == ResolveBurnLevel(old(burnR), burn)
      ensures burnG == ResolveBurnLevel(old(burnG), burn)
      ensures burnB == ResolveBurnLevel(old(burnB), burn)
    {
      if burnR < -1.0 { burnR := if burn >= -1.0 then burn else BURN_DEFAULT; }
      if burnG < -1.0 { burnG := if burn >= -1.0 then burn else BURN_DEFAULT; }
      if burnB < -1.0 { burnB := if burn >= -1.0 then burn else BURN_DEFAULT; }
    }

    /** The six rows y of the grids are six different arrays. */
    lemma RowDistinct(y: nat)
      requires Valid() && y < height
      ensures Distinct6(accumR[y], accumG[y], accumB[y], burnAccR[y], burnAccG[y], burnAccB[y])
    {
    }

    /** Rows r and y of the grids are twelve different arrays when r != y. */
    lemma RowsApart(r: nat, y: nat)
      requires Valid() && r < height && y < height && r != y
      ensures accumR[r] != accumR[y] && accumR[r] != accumG[y] && accumR[r] != accumB[y] && accumR[r] != burnAccR[y] && accumR[r] != burnAccG[y] && accumR[r] != burnAccB[y]
      ensures accumG[r] != accumR[y] && accumG[r] != accumG[y] && accumG[r] != accumB[y] && accumG[r] != burnAccR[y] && accumG[r] != burnAccG[y] && accumG[r] != burnAccB[y]
      ensures accumB[r] != accumR[y] && accumB[r] != accumG[y] && accumB[r] != accumB[y] && accumB[r] != burnAccR[y] && accumB[r] != burnAccG[y] && accumB[r] != burnAccB[y]
      ensures burnAccR[r] != accumR[y] && burnAccR[r] != accumG[y] && burnAccR[r] != accumB[y] && burnAccR[r] != burnAccR[y] && burnAccR[r] != burnAccG[y] && burnAccR[r] != burnAccB[y]
      ensures burnAccG[r] != accumR[y] && burnAccG[r] != accumG[y] && burnAccG[r] != accumB[y] && burnAccG[r] != burnAccR[y] && burnAccG[r] != burnAccG[y] && burnAccG[r] != burnAccB[y]
      ensures burnAccB[r] != accumR[y] && burnAccB[r] != accumG[y] && burnAccB[r] != accumB[y] && burnAccB[r] != burnAccR[y] && burnAccB[r] != burnAccG[y] && burnAccB[r] != burnAccB[y]
    {
    }

    /** The three process_color_plane_sse2 calls of one row y: row y of each channel's grids
        takes one Step with the samples of its scratch plane src, and out becomes the output
        bytes of the new accumulators. */
    method ProcessPlanes(y: nat)
      requires Valid() && y < height
      modifies outR, outG, outB, accumR[y], accumG[y], accumB[y], burnAccR[y], burnAccG[y], burnAccB[y]
      ensures Valid()
      ensures RowStepped(ChannelCoeffs(fadeR, gainR, burnR), accumR[y][..], burnAccR[y][..], old(accumR[y][..]), old(burnAccR[y][..]), srcR[..PlaneLen(width)])
      ensures RowStepped(ChannelCoeffs(fadeG, gainG, burnG), accumG[y][..], burnAccG[y][..], old(accumG[y][..]), old(burnAccG[y][..]), srcG[..PlaneLen(width)])
      ensures RowStepped(ChannelCoeffs(fadeB, gainB, burnB), accumB[y][..], burnAccB[y][..], old(accumB[y][..]), old(burnAccB[y][..]), srcB[..PlaneLen(width)])
      ensures Converted(outR[..], accumR[y][..], PlaneLen(width))
      ensures Converted(outG[..], accumG[y][..], PlaneLen(width))
      ensures Converted(outB[..], accumB[y][..], PlaneLen(width))
    {
      RowDistinct(y);
      var aR, aG, aB, bR, bG, bB := accumR[y], accumG[y], accumB[y], burnAccR[y], burnAccG[y], burnAccB[y];
      var w, kR, kG, kB := width, ChannelCoeffs(fadeR, gainR, burnR), ChannelCoeffs(fadeG, gainG, burnG), ChannelCoeffs(fadeB, gainB, burnB);
      ProcessColorPlane(outR, srcR, bR, aR, w, kR.fade, kR.blend, kR.burnFade, kR.burnDepth);
      ProcessColorPlane(outG, srcG, bG, aG, w, kG.fade, kG.blend, kG.burnFade, kG.burnDepth);
      ProcessColorPlane(outB, srcB, bB, aB, w, kB.fade, kB.blend, kB.burnFade, kB.burnDepth);
    }

    /** The body of filter_frame's row loop for the line at offset off, row y of the grids:
        row y of each channel's grids takes one Step with that channel's samples of the line,
        the line then shows the new accumulators, and no other byte of the frame changes. */
    method FilterRow(data: array<byte>, off: nat, y: nat)
      requires Valid() && TailsBlack() && IsFrameBuffer(data)
      requires y < height && off + 3 * width <= data.Length
      modifies data, srcR, srcG, srcB, outR, outG, outB
      modifies accumR[y], accumG[y], accumB[y], burnAccR[y], burnAccG[y], burnAccB[y]
      ensures Valid() && TailsBlack()
      ensures RowStepped(ChannelCoeffs(fadeR, gainR, burnR), accumR[y][..], burnAccR[y][..], old(accumR[y][..]), old(burnAccR[y][..]), LineSamples(old(data[..]), off, 0, width))
      ensures RowStepped(ChannelCoeffs(fadeG, gainG, burnG), accumG[y][..], burnAccG[y][..], old(accumG[y][..]), old(burnAccG[y][..]), LineSamples(old(data[..]), off, 1, width))
      ensures RowStepped(ChannelCoeffs(fadeB, gainB, burnB), accumB[y][..], burnAccB[y][..], old(accumB[y][..]), old(burnAccB[y][..]), LineSamples(old(data[..]), off, 2, width))
      ensures LineShows(data[..], off, accumR[y][..], accumG[y][..], accumB[y][..], width)
      ensures forall i :: 0 <= i < data.Length && !(off <= i < off + 3 * width) ==> data[i] == old(data[i])
    {
      SplitLine(data, off);
      ProcessPlanes(y);
      MergeLine(data, off, accumR[y][..], accumG[y][..], accumB[y][..]);
    }

    /** The split_rgb24_to_planes call of filter_frame: the scratch planes src take the samples
        of the line at offset off, and their tails stay black. */
    method SplitLine(data: array<byte>, off: nat)
      requires Valid() && TailsBlack() && IsFrameBuffer(data)
      requires off + 3 * width <= data.Length
      modifies srcR, srcG, srcB
      ensures TailsBlack()
      ensures srcR[..PlaneLen(width)] == LineSamples(data[..], off, 0, width)
      ensures srcG[..PlaneLen(width)] == LineSamples(data[..], off, 1, width)
      ensures srcB[..PlaneLen(width)] == LineSamples(data[..], off, 2, width)
    {
      SplitRgb24ToPlanes(data, off, srcR, srcG, srcB, width);
      assert srcR[..PlaneLen(width)] == LineSamples(data[..], off, 0, width);
      assert srcG[..PlaneLen(width)] == LineSamples(data[..], off, 1, width);
      assert srcB[..PlaneLen(width)] == LineSamples(data[..], off, 2, width);
    }

    /** The merge_planes_to_rgb24 call of filter_frame: once the scratch planes out hold the
        output bytes of the accumulator rows aR, aG and aB, the line at offset off shows them,
        and no other byte of the frame changes. */
    method MergeLine(data: array<byte>, off: nat, ghost aR: seq<real>, ghost aG: seq<real>, ghost aB: seq<real>)
      requires Valid() && IsFrameBuffer(data)
      requires off + 3 * width <= data.Length
      requires Converted(outR[..], aR, PlaneLen(width))
      requires Converted(outG[..], aG, PlaneLen(width))
      requires Converted(outB[..], aB, PlaneLen(width))
      modifies data
      ensures LineShows(data[..], off, aR, aG, aB, width)
      ensures forall i :: 0 <= i < data.Length && !(off <= i < off + 3 * width) ==> data[i] == old(data[i])
    {
      MergePlanesToRgb24(data, off, outR, outG, outB, width);
    }

    /** The contents of the grids. */
    ghost function Contents(): GridContents
      reads this, accumR, accumG, accumB, burnAccR, burnAccG, burnAccB
    {
      GridContents(Rows(accumR), Rows(accumG), Rows(accumB), Rows(burnAccR), Rows(burnAccG), Rows(burnAccB))
    }

    /** FilterRow stated on the contents of the frame and the grids. */
    method FilterLine(data: array<byte>, off: nat, y: nat)
      requires Valid() && TailsBlack() && IsFrameBuffer(data)
      requires y < height && off + 3 * width <= data.Length
      modifies data, srcR, srcG, srcB, outR, outG, outB
      modifies accumR[y], accumG[y], accumB[y], burnAccR[y], burnAccG[y], burnAccB[y]
      ensures Valid() && TailsBlack()
      ensures LineFiltered(old(data[..]), old(Contents()), data[..], Contents(), off, width, y,
                           ChannelCoeffs(fadeR, gainR, burnR), ChannelCoeffs(fadeG, gainG, burnG), ChannelCoeffs(fadeB, gainB, burnB))
    {
      FilterRow(data, off, y);
      forall r | 0 <= r < height && r != y
        ensures accumR[r][..] == old(accumR[r][..])
        ensures accumG[r][..] == old(accumG[r][..])
        ensures accumB[r][..] == old(accumB[r][..])
        ensures burnAccR[r][..] == old(burnAccR[r][..])
        ensures burnAccG[r][..] == old(burnAccG[r][..])
        ensures burnAccB[r][..] == old(burnAccB[r][..])
      {
        RowsApart(r, y);
      }
      ghost var g1, g2 := old(Contents()), Contents();
      assert ChannelSameExceptRow(g1.accR, g1.burnR, g2.accR, g2.burnR, y);
      assert ChannelSameExceptRow(g1.accG, g1.burnG, g2.accG, g2.burnG, y);
      assert ChannelSameExceptRow(g1.accB, g1.burnB, g2.accB, g2.burnB, y);
    }

    /** One turn of filter_frame's row loop: with lines 0 .. y-1 filtered, filtering line y
        leaves lines 0 .. y filtered. */
    method FilterNextLine(data: array<byte>, stride: nat, y: nat, ghost d0: seq<byte>, ghost g0: GridContents)
      requires Valid() && TailsBlack() && IsFrameBuffer(data) && y < height
      requires LinesFiltered(d0, g0, data[..], Contents(), stride, width, height, y,
                             ChannelCoeffs(fadeR, gainR, burnR), ChannelCoeffs(fadeG, gainG, burnG), ChannelCoeffs(fadeB, gainB, burnB))
      modifies data, srcR, srcG, srcB, outR, outG, outB
      modifies accumR[y], accumG[y], accumB[y], burnAccR[y], burnAccG[y], burnAccB[y]
      ensures Valid() && TailsBlack()
      ensures LinesFiltered(d0, g0, data[..], Contents(), stride, width, height, y + 1,
                            ChannelCoeffs(fadeR, gainR, burnR), ChannelCoeffs(fadeG, gainG, burnG), ChannelCoeffs(fadeB, gainB, burnB))
    {
      ghost var d1, g1 := data[..], Contents();
      var line := LineStart(y, stride);
      FilterLine(data, line, y);
      FilterLineStep(d0, g0, d1, g1, data[..], Contents(), stride, width, height, y,
                     ChannelCoeffs(fadeR, gainR, burnR), ChannelCoeffs(fadeG, gainG, burnG), ChannelCoeffs(fadeB, gainB, burnB));
    }

    /** filter_frame on a frame of frameWidth x frameHeight pixels (the configured geometry):
        every line y is filtered as by FilterRow with row y of the grids, and no byte outside
        the lines' pixels changes. */
    method FilterFrame(data: array<byte>, stride: nat, frameWidth: nat, frameHeight: nat)
      requires Valid() && TailsBlack() && IsFrameBuffer(data)
      requires frameWidth == width && frameHeight == height
      requires FrameFits(data.Length, stride, frameWidth, frameHeight)
      modifies data, srcR, srcG, srcB, outR, outG, outB, accumR, accumG, accumB, burnAccR, burnAccG, burnAccB
      ensures TailsBlack()
      ensures Valid()
      ensures LinesFiltered(old(data[..]), old(Contents()), data[..], Contents(), stride, width, height, height,
                            ChannelCoeffs(fadeR, gainR, burnR), ChannelCoeffs(fadeG, gainG, burnG), ChannelCoeffs(fadeB, gainB, burnB))
    {
      ghost var d0, g0 := data[..], Contents();
      ghost var kR, kG, kB := ChannelCoeffs(fadeR, gainR, burnR), ChannelCoeffs(fadeG, gainG, burnG), ChannelCoeffs(fadeB, gainB, burnB);
      NoLinesFiltered(d0, g0, stride, width, height, kR, kG, kB);
      var y := 0;
      while y < frameHeight
        invariant y <= height && Valid() && TailsBlack()
        invariant LinesFiltered(d0, g0, data[..], Contents(), stride, width, height, y, kR, kG, kB)
      {
        FilterNextLine(data, stride, y, d0, g0);
        y := y + 1;
      }
    }
  }
}
