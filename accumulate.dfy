/**
  The per-plane accumulation step process_color_plane_sse2: for each pixel, decay the
  burn-in history and add the highlight above the knee, decay the accumulator and blend in
  the new sample and the burn-in, and convert the accumulator to an output byte. The
  single-precision arithmetic is modelled over the reals; the SSE2 lanes by a scalar loop
  over each block of eight.
 */
module Accumulate {
  import opened Ints
  import opened Saturation

  /** Number of pixels handled by one iteration of the vector loop. */
  const LANES: nat := 8

  /** Number of entries the vector loop reads and writes for a row of width pixels:
      width rounded up to a multiple of eight. */
  function PlaneLen(width: nat): (n: nat)
    ensures n % LANES == 0
    ensures width <= n < width + LANES
  {
    (width + LANES - 1) / LANES * LANES
  }

  /** The four scalar arguments of process_color_plane_sse2. */
  datatype Coeffs = Coeffs(fade: real, blend: real, burnFade: real, burnDepth: real)

  /** The persistent state of one pixel of one channel: accumulator and burn-in history. */
  datatype Pixel = Pixel(acc: real, burn: real)

  /** An input byte scaled to [0, 1]. */
  function Normalize(v: byte): (r: real)
    ensures 0.0 <= r <= 1.0
  {
    v as real / 255.0
  }

  function Max(a: real, b: real): real
  {
    if a < b then b else a
  }

  /** The highlight that burns in: the sample amplified by 20 * blend, less 19 * blend,
      cut off at zero. */
  function Highlight(v: byte, blend: real): (h: real)
    ensures h >= 0.0
  {
    Max(0.0, Normalize(v) * (20.0 * blend) - 19.0 * blend)
  }

  /** One frame of the recurrence for one pixel with input sample v. The burn-in never falls
      below its decayed history. */
  function Step(k: Coeffs, s: Pixel, v: byte): (r: Pixel)
    ensures r.burn >= s.burn * k.burnFade
  {
    var burn := s.burn * k.burnFade + Highlight(v, k.blend);
    Pixel(s.acc * k.fade + Normalize(v) * k.blend + burn * k.burnDepth, burn)
  }

  /** The output byte for an accumulator value. */
  function Output(acc: real): byte
  {
    ConvertLane(acc * 255.0)
  }

  /** The output byte is black for a non-positive accumulator, the nearest byte inside the
      range, white above it, and black again once the scaled value no longer converts to
      int32. */
  lemma OutputCases(acc: real)
    ensures acc <= 0.0 ==> Output(acc) == 0
    ensures 0.0 <= acc * 255.0 <= 254.5 ==> -0.5 <= acc * 255.0 - Output(acc) as real <= 0.5
    ensures 254.5 < acc * 255.0 < 2147483647.5 ==> Output(acc) == 255
    ensures acc * 255.0 >= 2147483647.5 ==> Output(acc) == 0
  {
  }

  /** The knee: with a non-negative blend, a sample burns in exactly when blend is positive and
      the sample is above 19/20 of full scale, that is, at least 243. */
  lemma HighlightKnee(v: byte, blend: real)
    requires blend >= 0.0
    ensures Highlight(v, blend) > 0.0 <==> blend > 0.0 && v >= 243
  {
    var e := 20.0 * v as real - 4845.0;
    var d := Normalize(v) * (20.0 * blend) - 19.0 * blend;
    assert d == blend * e / 255.0;
    if blend > 0.0 && v >= 243 {
      assert e >= 15.0;
      assert blend * e > 0.0;
    } else if blend > 0.0 {
      assert e <= -5.0;
      assert blend * e < 0.0;
    } else {
      assert d == 0.0;
    }
  }

  /** A full-scale sample contributes exactly blend to the burn-in. */
  lemma HighlightOfWhite(blend: real)
    requires blend >= 0.0
    ensures Highlight(255, blend) == blend
  {
  }

  /** The new burn-in is the decayed history plus the highlight; with a non-negative decay a
      non-negative history stays non-negative. */
  lemma BurnStaysNonNegative(k: Coeffs, s: Pixel, v: byte)
    requires k.burnFade >= 0.0 && s.burn >= 0.0
    ensures Step(k, s, v).burn >= s.burn * k.burnFade
    ensures Step(k, s, v).burn >= 0.0
  {
  }

  /** With a non-negative blend, a step adds to the decayed burn-in history exactly when the
      blend is positive and the sample is past the knee. */
  lemma BurnInAtKnee(k: Coeffs, s: Pixel, v: byte)
    requires k.blend >= 0.0
    ensures Step(k, s, v).burn > s.burn * k.burnFade <==> k.blend > 0.0 && v >= 243
  {
    HighlightKnee(v, k.blend);
  }

  /** With zero input and no burn-in history, a step only decays the accumulator. */
  lemma ZeroInputOnlyDecays(k: Coeffs, acc: real)
    requires k.blend >= 0.0
    ensures Step(k, Pixel(acc, 0.0), 0) == Pixel(acc * k.fade, 0.0)
  {
  }

  /** A pixel's state after the samples vs, one per frame, in order. */
  function Frames(k: Coeffs, s: Pixel, vs: seq<byte>): Pixel
    decreases |vs|
  {
    if vs == [] then s else Frames(k, Step(k, s, vs[0]), vs[1..])
  }

  function Pow(f: real, n: nat): real
  {
    if n == 0 then 1.0 else f * Pow(f, n - 1)
  }

  /** n frames of zero input: n zero bytes. */
  function Zeros(n: nat): (z: seq<byte>)
    ensures |z| == n
  {
    seq(n, _ => 0)
  }

  /** Zero-signal decay: after n black frames from a state without burn-in, the accumulator is
      its old value times fade^n and the burn-in stays zero. */
  lemma {:induction false} ZeroSignalDecay(k: Coeffs, acc: real, n: nat)
    requires k.blend >= 0.0
    decreases n
    ensures Frames(k, Pixel(acc, 0.0), Zeros(n)) == Pixel(acc * Pow(k.fade, n), 0.0)
  {
    if n > 0 {
      assert Zeros(n)[0] == 0 && Zeros(n)[1..] == Zeros(n - 1);
      ZeroInputOnlyDecays(k, acc);
      ZeroSignalDecay(k, acc * k.fade, n - 1);
      assert acc * k.fade * Pow(k.fade, n - 1) == acc * (k.fade * Pow(k.fade, n - 1));
    }
  }

  /** For fade in [0, 1], fade^n is in [0, 1] and does not grow with n. */
  lemma {:induction false} PowDecays(f: real, n: nat)
    requires 0.0 <= f <= 1.0
    ensures 0.0 <= Pow(f, n + 1) <= Pow(f, n) <= 1.0
  {
    if n > 0 {
      PowDecays(f, n - 1);
      assert f * Pow(f, n) <= 1.0 * Pow(f, n);
    }
  }

  /** n frames of the constant sample v. */
  function Const(v: byte, n: nat): (z: seq<byte>)
    ensures |z| == n && forall i :: 0 <= i < n ==> z[i] == v
  {
    seq(n, _ => v)
  }

  /** The accumulator value a constant sample v settles at: v * blend / (1 - fade). */
  function FixedPoint(k: Coeffs, v: byte): (fix: real)
    requires k.fade != 1.0
    ensures fix * (1.0 - k.fade) == Normalize(v) * k.blend
  {
    Normalize(v) * k.blend / (1.0 - k.fade)
  }

  /** The sample v is below the knee and fix is where the accumulator settles for it:
      fix * (1 - fade) == Normalize(v) * blend. */
  predicate SettlesAt(k: Coeffs, v: byte, fix: real)
  {
    k.blend >= 0.0 && v < 243 && fix * (1.0 - k.fade) == Normalize(v) * k.blend
  }

  /** Below the knee, a constant sample settles at FixedPoint. */
  lemma FixedPointSettles(k: Coeffs, v: byte)
    requires k.blend >= 0.0 && k.fade != 1.0 && v < 243
    ensures SettlesAt(k, v, FixedPoint(k, v))
  {
  }

  /** Below the knee and without burn-in, a step moves the accumulator's distance from a
      point fix with fix * (1 - fade) == Normalize(v) * blend by the factor fade. */
  lemma StepTowards(k: Coeffs, a: real, v: byte, fix: real)
    requires SettlesAt(k, v, fix)
    ensures Step(k, Pixel(a, 0.0), v) == Pixel(Nearer(fix, k.fade, a), 0.0)
  {
    HighlightKnee(v, k.blend);
  }

  /** A constant sample below the knee, with no burn-in, has the geometric-series fixed point
      FixedPoint(k, v) = Normalize(v) * blend / (1 - fade) for the accumulator. */
  lemma GeometricFixedPoint(k: Coeffs, v: byte)
    requires k.blend >= 0.0 && k.fade != 1.0 && v < 243
    ensures Step(k, Pixel(FixedPoint(k, v), 0.0), v) == Pixel(FixedPoint(k, v), 0.0)
  {
    StepTowards(k, FixedPoint(k, v), v, FixedPoint(k, v));
  }

  /** a moved towards fix by the factor f: its distance from fix scaled by f. */
  function Nearer(fix: real, f: real, a: real): real
  {
    fix + (a - fix) * f
  }

  /** The value a reaches after n moves towards fix, each by the factor f. */
  function Towards(fix: real, f: real, a: real, n: nat): real
    decreases n
  {
    if n == 0 then a else Towards(fix, f, Nearer(fix, f, a), n - 1)
  }

  /** Moving a by the factor f towards fix, to a1, and then by p is moving it by f * p. */
  lemma Rescaled(fix: real, a: real, a1: real, f: real, p: real)
    requires a1 == Nearer(fix, f, a)
    ensures Nearer(fix, p, a1) == Nearer(fix, f * p, a)
  {
  }

  /** n moves towards fix by the factor f scale the distance from fix by f^n. */
  lemma {:induction false} TowardsClosedForm(fix: real, f: real, a: real, n: nat)
    decreases n
    ensures Towards(fix, f, a, n) == Nearer(fix, Pow(f, n), a)
  {
    if n == 0 {
      assert fix + (a - fix) * 1.0 == a;
    } else {
      var a1 := Nearer(fix, f, a);
      TowardsClosedForm(fix, f, a1, n - 1);
      Rescaled(fix, a, a1, f, Pow(f, n - 1));
    }
  }

  /** A pixel's state after n frames of the constant sample v: Frames over Const, unrolled
      one constant step at a time. It is a proof device only, tied to Frames by
      ConstFramesAreFrames: its recursion applies Step to v itself, where Frames would need
      the first element of a sequence. */
  function ConstFrames(k: Coeffs, s: Pixel, v: byte, n: nat): Pixel
    decreases n
  {
    if n == 0 then s else ConstFrames(k, Step(k, s, v), v, n - 1)
  }

  /** ConstFrames is Frames over Const. */
  lemma {:induction false} ConstFramesAreFrames(k: Coeffs, s: Pixel, v: byte, n: nat)
    decreases n
    ensures ConstFrames(k, s, v, n) == Frames(k, s, Const(v, n))
  {
    if n > 0 {
      assert Const(v, n)[0] == v && Const(v, n)[1..] == Const(v, n - 1);
      ConstFramesAreFrames(k, Step(k, s, v), v, n - 1);
    }
  }

  /** n constant frames below the knee, from a state without burn-in, move the accumulator
      towards fix by the factor fade each and keep the burn-in at zero. */
  lemma {:induction false} FramesTowards(k: Coeffs, a: real, v: byte, n: nat, fix: real)
    requires SettlesAt(k, v, fix)
    decreases n
    ensures ConstFrames(k, Pixel(a, 0.0), v, n) == Pixel(Towards(fix, k.fade, a, n), 0.0)
  {
    if n > 0 {
      StepTowards(k, a, v, fix);
      FramesTowards(k, Nearer(fix, k.fade, a), v, n - 1, fix);
    }
  }

  /** Convergence to the fixed point: after n frames of a constant sample below the knee,
      starting without burn-in, the accumulator's distance from the fixed point is its initial
      distance times fade^n, and the burn-in stays zero. */
  lemma ConstantInputConverges(k: Coeffs, a: real, v: byte, n: nat)
    requires k.blend >= 0.0 && k.fade != 1.0 && v < 243
    ensures Frames(k, Pixel(a, 0.0), Const(v, n)) == Pixel(FixedPoint(k, v) + (a - FixedPoint(k, v)) * Pow(k.fade, n), 0.0)
  {
    FixedPointSettles(k, v);
    ConstFramesAreFrames(k, Pixel(a, 0.0), v, n);
    FramesTowards(k, a, v, n, FixedPoint(k, v));
    TowardsClosedForm(FixedPoint(k, v), k.fade, a, n);
  }

  /** With burn depth 0 (the default burn, 0.0, gives it) the burn-in history never reaches
      the accumulator: for every sample and every history, one step moves the accumulator
      towards any fix with fix * (1 - fade) = v * blend by the factor fade. */
  lemma StepWithoutDepth(k: Coeffs, s: Pixel, v: byte, fix: real)
    requires k.burnDepth == 0.0 && fix * (1.0 - k.fade) == Normalize(v) * k.blend
    ensures Step(k, s, v).acc == Nearer(fix, k.fade, s.acc)
  {
  }

  /** n constant frames with burn depth 0 apply that contraction n times, whatever the burn-in. */
  lemma {:induction false} FramesTowardsWithoutDepth(k: Coeffs, s: Pixel, v: byte, n: nat, fix: real)
    requires k.burnDepth == 0.0 && fix * (1.0 - k.fade) == Normalize(v) * k.blend
    decreases n
    ensures ConstFrames(k, s, v, n).acc == Towards(fix, k.fade, s.acc, n)
  {
    if n > 0 {
      StepWithoutDepth(k, s, v, fix);
      FramesTowardsWithoutDepth(k, Step(k, s, v), v, n - 1, fix);
    }
  }

  /** Convergence with burn depth 0: for any sample, past the knee or not, and from any state,
      burn-in history included, the accumulator's distance from a fixed point fix of the
      sample after n frames is its initial distance times fade^n. With v = 0 and fix = 0 this
      is the decay acc * fade^n on black input. */
  lemma ConstantInputConvergesWithoutDepth(k: Coeffs, s: Pixel, v: byte, n: nat, fix: real)
    requires k.burnDepth == 0.0 && fix * (1.0 - k.fade) == Normalize(v) * k.blend
    ensures Frames(k, s, Const(v, n)).acc == Nearer(fix, Pow(k.fade, n), s.acc)
  {
    ConstFramesAreFrames(k, s, v, n);
    FramesTowardsWithoutDepth(k, s, v, n, fix);
    TowardsClosedForm(fix, k.fade, s.acc, n);
  }

  /** The magnitude of x. */
  function Abs(x: real): real
  {
    if x < 0.0 then -x else x
  }

  /** Scaling by a smaller non-negative factor gives a smaller magnitude. */
  lemma AbsScaled(e: real, p1: real, p0: real)
    requires 0.0 <= p1 <= p0
    ensures Abs(e * p1) <= Abs(e * p0)
  {
    if e < 0.0 {
      assert -(e * p1) == (-e) * p1 <= (-e) * p0 == -(e * p0);
    } else {
      assert e * p1 <= e * p0;
    }
  }

  /** For fade in [0, 1], fade^n does not grow with n and stays in [0, 1]. */
  lemma {:induction false} PowMonotone(f: real, m: nat, n: nat)
    requires 0.0 <= f <= 1.0 && m <= n
    decreases n - m
    ensures 0.0 <= Pow(f, n) <= Pow(f, m) <= 1.0
  {
    PowDecays(f, m);
    if m < n {
      PowDecays(f, n - 1);
      PowMonotone(f, m, n - 1);
    }
  }

  /** Two points whose distances from fix are a's scaled by p1 <= p0 <= 1 are, in that order,
      no farther from fix than a. */
  lemma DistancesShrink(fix: real, a: real, x0: real, x1: real, p0: real, p1: real)
    requires 0.0 <= p1 <= p0 <= 1.0
    requires x0 == Nearer(fix, p0, a) && x1 == Nearer(fix, p1, a)
    ensures Abs(x1 - fix) <= Abs(x0 - fix) <= Abs(a - fix)
  {
    var e := a - fix;
    assert x0 - fix == e * p0 && x1 - fix == e * p1;
    AbsScaled(e, p1, p0);
    AbsScaled(e, p0, 1.0);
    assert e * 1.0 == e;
  }

  /** For fade in [0, 1) the accumulator of a constant sample below the knee approaches its
      fixed point: after n frames it is no farther from it than after m <= n frames, and never
      farther than it started. */
  lemma ConstantInputApproaches(k: Coeffs, a: real, v: byte, m: nat, n: nat)
    requires k.blend >= 0.0 && 0.0 <= k.fade < 1.0 && v < 243 && m <= n
    ensures Abs(Frames(k, Pixel(a, 0.0), Const(v, n)).acc - FixedPoint(k, v))
         <= Abs(Frames(k, Pixel(a, 0.0), Const(v, m)).acc - FixedPoint(k, v))
         <= Abs(a - FixedPoint(k, v))
  {
    var fix := FixedPoint(k, v);
    FixedPointSettles(k, v);
    ConstFramesAreFrames(k, Pixel(a, 0.0), v, m);
    ConstFramesAreFrames(k, Pixel(a, 0.0), v, n);
    FramesTowards(k, a, v, m, fix);
    FramesTowards(k, a, v, n, fix);
    TowardsClosedForm(fix, k.fade, a, m);
    TowardsClosedForm(fix, k.fade, a, n);
    PowMonotone(k.fade, m, n);
    DistancesShrink(fix, a, Towards(fix, k.fade, a, m), Towards(fix, k.fade, a, n), Pow(k.fade, m), Pow(k.fade, n));
  }

  /** Row accum/burn has taken one Step from the states acc0/burn0 with the samples, entry by
      entry, for the first |samples| entries. */
  predicate RowStepped(k: Coeffs, accum: seq<real>, burn: seq<real>, acc0: seq<real>, burn0: seq<real>, samples: seq<byte>)
  {
    && |samples| <= |acc0| && |samples| <= |burn0| && |samples| <= |accum| && |samples| <= |burn|
    && forall x :: 0 <= x < |samples| ==> Pixel(accum[x], burn[x]) == Step(k, Pixel(acc0[x], burn0[x]), samples[x])
  }

  /** The first n bytes of dst are the output bytes of the first n accumulators. */
  predicate Converted(dst: seq<byte>, accum: seq<real>, n: nat)
  {
    n <= |dst| && n <= |accum| && forall x :: 0 <= x < n ==> dst[x] == Output(accum[x])
  }

  /** One lane of the vector loop: pixel i takes one Step with sample src[i] and dst[i] becomes
      its output byte; nothing else changes. */
  method ProcessLane(dst: array<byte>, src: array<byte>, burn: array<real>, accum: array<real>, i: nat,
                     fadeStrength: real, blendFactor: real, burnFade: real, burnDepth: real)
    requires dst != src && burn != accum
    requires i < dst.Length && i < src.Length && i < accum.Length && i < burn.Length
    modifies dst, burn, accum
    ensures Pixel(accum[i], burn[i])
      == Step(Coeffs(fadeStrength, blendFactor, burnFade, burnDepth), Pixel(old(accum[i]), old(burn[i])), src[i])
    ensures dst[i] == Output(accum[i])
    ensures forall x :: 0 <= x < accum.Length && x != i ==> accum[x] == old(accum[x])
    ensures forall x :: 0 <= x < burn.Length && x != i ==> burn[x] == old(burn[x])
    ensures forall x :: 0 <= x < dst.Length && x != i ==> dst[x] == old(dst[x])
  {
    var sample := src[i] as real / 255.0;
    var gained := sample * blendFactor;
    var limit := Max(0.0, sample * (20.0 * blendFactor) - 19.0 * blendFactor);
    var b := burn[i] * burnFade + limit;
    var acc := accum[i] * fadeStrength + gained;
    acc := acc + b * burnDepth;
    assert Step(Coeffs(fadeStrength, blendFactor, burnFade, burnDepth), Pixel(accum[i], burn[i]), src[i]) == Pixel(acc, b);
    accum[i] := acc;
    burn[i] := b;
    dst[i] := ConvertLane(acc * 255.0);
  }

  /** One iteration of the vector loop: the eight pixels x .. x+7 each take one Step with their
      sample and get their output byte; nothing else changes. */
  method ProcessBlock(dst: array<byte>, src: array<byte>, burn: array<real>, accum: array<real>, x: nat,
                      fadeStrength: real, blendFactor: real, burnFade: real, burnDepth: real)
    requires dst != src && burn != accum
    requires x + LANES <= dst.Length && x + LANES <= src.Length && x + LANES <= accum.Length && x + LANES <= burn.Length
    modifies dst, burn, accum
    ensures forall i :: x <= i < x + LANES ==>
      && Pixel(accum[i], burn[i]) == Step(Coeffs(fadeStrength, blendFactor, burnFade, burnDepth), Pixel(old(accum[i]), old(burn[i])), src[i])
      && dst[i] == Output(accum[i])
    ensures forall i :: 0 <= i < accum.Length && !(x <= i < x + LANES) ==> accum[i] == old(accum[i])
    ensures forall i :: 0 <= i < burn.Length && !(x <= i < x + LANES) ==> burn[i] == old(burn[i])
    ensures forall i :: 0 <= i < dst.Length && !(x <= i < x + LANES) ==> dst[i] == old(dst[i])
  {
    ghost var k := Coeffs(fadeStrength, blendFactor, burnFade, burnDepth);
    for lane := 0 to LANES
      invariant forall i :: x <= i < x + lane ==>
        && Pixel(accum[i], burn[i]) == Step(k, Pixel(old(accum[i]), old(burn[i])), src[i])
        && dst[i] == Output(accum[i])
      invariant forall i :: 0 <= i < accum.Length && !(x <= i < x + lane) ==> accum[i] == old(accum[i])
      invariant forall i :: 0 <= i < burn.Length && !(x <= i < x + lane) ==> burn[i] == old(burn[i])
      invariant forall i :: 0 <= i < dst.Length && !(x <= i < x + lane) ==> dst[i] == old(dst[i])
    {
      ProcessLane(dst, src, burn, accum, x + lane, fadeStrength, blendFactor, burnFade, burnDepth);
    }
  }

  /** process_color_plane_sse2 on one row: every pixel x < PlaneLen(width) -- all pixels of the
      row and the tail of the last block -- takes one Step with sample src[x], and dst[x]
      becomes its output byte; nothing else changes. */
  method ProcessColorPlane(dst: array<byte>, src: array<byte>, burn: array<real>, accum: array<real>,
                           width: nat, fadeStrength: real, blendFactor: real, burnFade: real, burnDepth: real)
    requires dst != src && burn != accum
    requires PlaneLen(width) <= dst.Length && PlaneLen(width) <= src.Length
    requires PlaneLen(width) <= accum.Length && PlaneLen(width) <= burn.Length
    modifies dst, burn, accum
    ensures RowStepped(Coeffs(fadeStrength, blendFactor, burnFade, burnDepth), accum[..], burn[..], old(accum[..]), old(burn[..]), src[..PlaneLen(width)])
    ensures Converted(dst[..], accum[..], PlaneLen(width))
    ensures forall x :: PlaneLen(width) <= x < accum.Length ==> accum[x] == old(accum[x])
    ensures forall x :: PlaneLen(width) <= x < burn.Length ==> burn[x] == old(burn[x])
    ensures forall x :: PlaneLen(width) <= x < dst.Length ==> dst[x] == old(dst[x])
  {
    ghost var k := Coeffs(fadeStrength, blendFactor, burnFade, burnDepth);
    var x := 0;
    while x < width
      invariant x % LANES == 0 && x <= PlaneLen(width)
      invariant forall i :: 0 <= i < x ==>
        && Pixel(accum[i], burn[i]) == Step(k, Pixel(old(accum[i]), old(burn[i])), src[i])
        && dst[i] == Output(accum[i])
      invariant forall i :: x <= i < accum.Length ==> accum[i] == old(accum[i])
      invariant forall i :: x <= i < burn.Length ==> burn[i] == old(burn[i])
      invariant forall i :: x <= i < dst.Length ==> dst[i] == old(dst[i])
    {
      ProcessBlock(dst, src, burn, accum, x, fadeStrength, blendFactor, burnFade, burnDepth);
      x := x + LANES;
    }
    assert x == PlaneLen(width);
    assert src[..x] == src[..PlaneLen(width)];
  }
}
