/**
  The filter's twelve options (vidicon_options) and the resolution of the nine per-channel
  fade/gain/burn values against the shared ones, done once in config_input.
 */
module Params {

  /** The option fields of VidiconTrailContext: shared values and per-channel overrides. */
  datatype Options = Options(
    fade: real, gain: real, burn: real,
    fadeR: real, fadeG: real, fadeB: real,
    gainR: real, gainG: real, gainB: real,
    burnR: real, burnG: real, burnB: real)

  /** Hard defaults used when neither the per-channel nor the shared value is set. */
  const FADE_DEFAULT: real := 0.5
  const GAIN_DEFAULT: real := 1.0
  const BURN_DEFAULT: real := 0.0

  /** The option table's defaults: every value "unset" (-1 for fade and gain, -2 for burn). */
  const DEFAULT_OPTIONS: Options := Options(
    -1.0, -1.0, -2.0,
    -1.0, -1.0, -1.0,
    -1.0, -1.0, -1.0,
    -2.0, -2.0, -2.0)

  /** The option table's ranges: fade in [-1, 1], gain in [-1, 2], burn in [-2, 1]. */
  predicate InOptionRange(o: Options)
  {
    && -1.0 <= o.fade <= 1.0 && -1.0 <= o.fadeR <= 1.0 && -1.0 <= o.fadeG <= 1.0 && -1.0 <= o.fadeB <= 1.0
    && -1.0 <= o.gain <= 2.0 && -1.0 <= o.gainR <= 2.0 && -1.0 <= o.gainG <= 2.0 && -1.0 <= o.gainB <= 2.0
    && -2.0 <= o.burn <= 1.0 && -2.0 <= o.burnR <= 1.0 && -2.0 <= o.burnG <= 1.0 && -2.0 <= o.burnB <= 1.0
  }

  /** A fade or gain value is "set" when it is not negative. */
  predicate IsSet(v: real)
  {
    v >= 0.0
  }

  /** A burn value is "set" when it is at least -1. */
  predicate BurnIsSet(v: real)
  {
    v >= -1.0
  }

  /** Fade or gain of one channel: its own value if set, else the shared value if set, else the
      hard default. The result is always set when the default is. */
  function ResolveLevel(own: real, shared: real, fallback: real): (r: real)
    requires IsSet(fallback)
    ensures IsSet(r)
    ensures r == own || r == shared || r == fallback
  {
    if own < 0.0 then (if shared >= 0.0 then shared else fallback) else own
  }

  /** Burn of one channel, with the burn threshold of -1 in place of 0. */
  function ResolveBurnLevel(own: real, shared: real): (r: real)
    ensures BurnIsSet(r)
    ensures r == own || r == shared || r == BURN_DEFAULT
  {
    if own < -1.0 then (if shared >= -1.0 then shared else BURN_DEFAULT) else own
  }

  /** The decision table of ResolveLevel, every case in both directions. */
  lemma ResolveLevelTable(own: real, shared: real, fallback: real)
    requires IsSet(fallback)
    ensures IsSet(own) ==> ResolveLevel(own, shared, fallback) == own
    ensures !IsSet(own) && IsSet(shared) ==> ResolveLevel(own, shared, fallback) == shared
    ensures !IsSet(own) && !IsSet(shared) ==> ResolveLevel(own, shared, fallback) == fallback
  {
  }

  /** The decision table of ResolveBurnLevel. */
  lemma ResolveBurnLevelTable(own: real, shared: real)
    ensures BurnIsSet(own) ==> ResolveBurnLevel(own, shared) == own
    ensures !BurnIsSet(own) && BurnIsSet(shared) ==> ResolveBurnLevel(own, shared) == shared
    ensures !BurnIsSet(own) && !BurnIsSet(shared) ==> ResolveBurnLevel(own, shared) == BURN_DEFAULT
  {
  }

  /** The effect of config_input's resolution block on the option fields: each per-channel
      value is resolved, the shared values stay as they are. */
  function Resolve(o: Options): (r: Options)
    ensures Resolved(r)
    ensures r.fade == o.fade && r.gain == o.gain && r.burn == o.burn
  {
    o.(fadeR := ResolveLevel(o.fadeR, o.fade, FADE_DEFAULT),
       fadeG := ResolveLevel(o.fadeG, o.fade, FADE_DEFAULT),
       fadeB := ResolveLevel(o.fadeB, o.fade, FADE_DEFAULT),
       gainR := ResolveLevel(o.gainR, o.gain, GAIN_DEFAULT),
       gainG := ResolveLevel(o.gainG, o.gain, GAIN_DEFAULT),
       gainB := ResolveLevel(o.gainB, o.gain, GAIN_DEFAULT),
       burnR := ResolveBurnLevel(o.burnR, o.burn),
       burnG := ResolveBurnLevel(o.burnG, o.burn),
       burnB := ResolveBurnLevel(o.burnB, o.burn))
  }

  /** Every per-channel value is set. */
  predicate Resolved(o: Options)
  {
    && IsSet(o.fadeR) && IsSet(o.fadeG) && IsSet(o.fadeB)
    && IsSet(o.gainR) && IsSet(o.gainG) && IsSet(o.gainB)
    && BurnIsSet(o.burnR) && BurnIsSet(o.burnG) && BurnIsSet(o.burnB)
  }

  /** After resolution every fade and gain is >= 0 and every burn >= -1; resolving a second
      time changes nothing. */
  lemma ResolveIsResolvedAndIdempotent(o: Options)
    ensures Resolved(Resolve(o))
    ensures Resolve(Resolve(o)) == Resolve(o)
  {
  }

  /** Resolution only replaces unset values: resolved options are left as they are. */
  lemma ResolveKeepsResolved(o: Options)
    requires Resolved(o)
    ensures Resolve(o) == o
  {
  }

  /** With the option table's defaults every channel falls through to the hard defaults. */
  lemma DefaultsResolveToHardDefaults()
    ensures var r := Resolve(DEFAULT_OPTIONS);
      && r.fadeR == r.fadeG == r.fadeB == FADE_DEFAULT
      && r.gainR == r.gainG == r.gainB == GAIN_DEFAULT
      && r.burnR == r.burnG == r.burnB == BURN_DEFAULT
  {
  }

  /** Options within the table's ranges resolve to fade in [0, 1], gain in [0, 2] and burn in
      [-1, 1] for every channel. */
  lemma ResolvedRanges(o: Options)
    requires InOptionRange(o)
    ensures var r := Resolve(o);
      && 0.0 <= r.fadeR <= 1.0 && 0.0 <= r.fadeG <= 1.0 && 0.0 <= r.fadeB <= 1.0
      && 0.0 <= r.gainR <= 2.0 && 0.0 <= r.gainG <= 2.0 && 0.0 <= r.gainB <= 2.0
      && -1.0 <= r.burnR <= 1.0 && -1.0 <= r.burnG <= 1.0 && -1.0 <= r.burnB <= 1.0
  {
  }
}
