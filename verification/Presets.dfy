/** Envelope arithmetic: when smart-mode envelopes are valid, and which commands and edges can be rejected. */
module Presets {
  import opened Units
  import opened Domain
  import opened Config
  import opened Envelope
  import opened Reducer
  import opened Executor

  predicate OrderedRails(l: PowerLimits) {
    l.splMin <= l.splMax && l.spptMin <= l.spptMax && l.fpptMin <= l.fpptMax
  }

  predicate NestedMaxima(l: PowerLimits) {
    l.splMax <= l.spptMax <= l.fpptMax
  }

  lemma NestedIsValid(spl: Milliwatts, p: U32, q: U32, l: PowerLimits)
    requires OrderedRails(l) && NestedMaxima(l)
    requires l.splMin <= spl <= l.splMax
    ensures Validate(EnvelopeFromProducts(spl, p, q, l), l).Ok?
  {
  }

  /** At the ceiling the products are ignored, and validity is exactly the nesting of the maxima. */
  lemma CeilingValidIff(p: U32, q: U32, l: PowerLimits)
    requires OrderedRails(l)
    ensures Validate(EnvelopeFromProducts(l.splMax, p, q, l), l).Ok? <==> NestedMaxima(l)
    ensures EnvelopeFromProducts(l.splMax, p, q, l) == ForcedMax(l)
  {
  }

  /** For ordered rails: every in-range SPL is accepted whatever the boost products come out as, rounding included,
      exactly if the maxima nest. */
  lemma AlwaysValidIff(l: PowerLimits)
    requires OrderedRails(l)
    ensures NestedMaxima(l) <==>
            forall spl: Milliwatts, p: U32, q: U32 :: l.splMin <= spl <= l.splMax ==>
              Validate(EnvelopeFromProducts(spl, p, q, l), l).Ok?
  {
    if NestedMaxima(l) {
      forall spl: Milliwatts, p: U32, q: U32 | l.splMin <= spl <= l.splMax
        ensures Validate(EnvelopeFromProducts(spl, p, q, l), l).Ok?
      {
        NestedIsValid(spl, p, q, l);
      }
    } else {
      CeilingValidIff(0, 0, l);
      assert Validate(EnvelopeFromProducts(l.splMax, 0, 0, l), l).Err?;
    }
  }

  /** The SPL each preset asks for, in watts: the ends of the range, its midpoint rounded down, and for Efficiency the
      configured fraction of the way up, to the nearest watt. */
  lemma PresetValues(l: PowerLimits, config: RuntimeConfig)
    requires l.splMin <= l.splMax && InUnit(config.efficiencyFrac)
    ensures var low, top := AsWatts(l.splMin), AsWatts(l.splMax);
            var eco, max := PresetWatts(Eco, l, config), PresetWatts(Max, l, config);
            var balanced, got := PresetWatts(TdpPreset.Balanced, l, config), PresetWatts(Efficiency, l, config);
            var wanted := low as real + Product(top - low, config.efficiencyFrac.r);
            && eco == low && max == top && low + top - 1 <= 2 * balanced <= low + top
            && wanted - 0.5 < got as real <= wanted + 0.5
            && eco <= balanced <= max && eco <= got <= max
  {
    var n := AsWatts(l.splMax) - AsWatts(l.splMin);
    RoundedWithin(n, config.efficiencyFrac);
    RoundedNear(n, config.efficiencyFrac);
  }

  predicate WholeWattFloor(l: PowerLimits) {
    l.splMin % MILLIWATTS_PER_WATT == 0
  }

  /** With a whole-watt SPL floor and a repaired configuration, no preset is ever rejected; the ceiling may be
      fractional. */
  lemma PresetsAccepted(s: ProfileState, preset: TdpPreset, l: PowerLimits, config: RuntimeConfig)
    requires OrderedRails(l) && NestedMaxima(l) && WholeWattFloor(l) && Sane(config)
    ensures ReduceSetPreset(s, preset, l, config).Ok?
  {
    var minW, maxW, watts := AsWatts(l.splMin), AsWatts(l.splMax), PresetWatts(preset, l, config);
    RoundedWithin(SaturatingSub(maxW, minW), config.efficiencyFrac);
    assert minW <= watts <= maxW;
    var spl := watts * MILLIWATTS_PER_WATT;
    assert l.splMin <= spl <= l.splMax;
    NestedIsValid(spl, ScaleTruncated(spl, config.spptFactor), ScaleTruncated(spl, config.fpptFactor), l);
  }

  /** Truncation makes the whole-watt condition real: off the lock, Eco is accepted exactly when the SPL floor is a
      whole watt. */
  lemma EcoAcceptedIff(s: ProfileState, l: PowerLimits, config: RuntimeConfig)
    requires OrderedRails(l) && NestedMaxima(l) && !s.Locked()
    ensures Reduce(s, SetPreset(Eco), l, config).Ok? <==> l.splMin % MILLIWATTS_PER_WATT == 0
  {
  }

  /** Off the lock all presets are accepted exactly when the SPL floor is a whole watt. */
  lemma AllPresetsAcceptedIff(s: ProfileState, l: PowerLimits, config: RuntimeConfig)
    requires OrderedRails(l) && NestedMaxima(l) && Sane(config) && !s.Locked()
    ensures (forall preset :: Reduce(s, SetPreset(preset), l, config).Ok?) <==> WholeWattFloor(l)
  {
    EcoAcceptedIff(s, l, config);
    if WholeWattFloor(l) {
      forall preset
        ensures Reduce(s, SetPreset(preset), l, config).Ok?
      {
        PresetsAccepted(s, preset, l, config);
      }
    }
  }

  /** The quiet default does not fit the rails: the midpoint falls below a fractional floor, or it or its boost exceeds
      the ceiling of the rail above it. */
  predicate BalancedOutOfRange(l: PowerLimits, config: RuntimeConfig) {
    || BalancedSpl(l) < l.splMin
    || BalancedSpl(l) > l.spptMax
    || QuietTarget(l, config).sppt > l.fpptMax
  }

  /** The only edge that can be rejected is an unplug under the lock without a snapshot, and exactly when the limits and
      the configuration leave no room for the Balanced preset; nested maxima and a whole-watt floor always do. */
  lemma AcEdgeRejectedIff(s: ProfileState, plugged: bool, l: PowerLimits, config: RuntimeConfig)
    requires OrderedRails(l)
    ensures Reduce(s, AcPowerChanged(plugged), l, config).Err? <==>
            s.Locked() && !plugged && s.lastDc.None? && BalancedOutOfRange(l, config)
    ensures NestedMaxima(l) && WholeWattFloor(l) ==> !BalancedOutOfRange(l, config)
  {
    BalancedRejectedIff(s.(acConnected := false, fanFollows := true), l, config);
  }

  lemma BalancedRejectedIff(s: ProfileState, l: PowerLimits, config: RuntimeConfig)
    requires OrderedRails(l)
    ensures ReduceSetPreset(s, TdpPreset.Balanced, l, config).Err? <==> BalancedOutOfRange(l, config)
    ensures QuietFits(l, config) <==> !BalancedOutOfRange(l, config)
  {
  }

  /** A rejected unplug is lost: the daemon keeps believing it is on AC, locked, and owes the hardware nothing. */
  lemma RejectedUnplugIsLost(w: World, env: Env)
    requires Reduce(w.state, AcPowerChanged(false), w.limits, w.config).Err?
    ensures Process(w, AcPowerChanged(false), env) == w.(running := true)
    ensures w.state.Locked()
  {
  }

  /** And it happens: a short-boost ceiling below the midpoint SPL is enough. */
  lemma UnplugCanBeRejected(s: ProfileState, config: RuntimeConfig)
    requires s.Locked() && s.lastDc.None?
    ensures var l := PowerLimits(7000, 35000, 13000, 20000, 19000, 53000);
            OrderedRails(l) && WholeWattFloor(l)
              && Reduce(s, AcPowerChanged(false), l, config) == Err(InvariantViolation)
  {
  }
}
