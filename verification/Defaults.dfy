/** Restoring the recommended defaults: where it ends, what it saves, and that doing it twice is doing it once. */
module Defaults {
  import opened Units
  import opened Domain
  import opened Envelope
  import opened Inference
  import opened Reducer

  function BalancedTarget(limits: PowerLimits, config: RuntimeConfig): PowerTarget
    requires FromWatts(PresetWatts(TdpPreset.Balanced, limits, config)).Ok?
  {
    DeriveBoosted(FromWatts(PresetWatts(TdpPreset.Balanced, limits, config)).value, limits, config)
  }

  /** The end point on every field; the curve is the inferred one exactly when auto-cooling was off, the target
      moved, or the curve already matched. */
  lemma DefaultsEndPoint(s: ProfileState, limits: PowerLimits, config: RuntimeConfig)
    requires !s.Locked()
    requires Reduce(s, RestoreDefaults, limits, config).Ok?
    ensures FromWatts(PresetWatts(TdpPreset.Balanced, limits, config)).Ok?
    ensures var r, target := Reduce(s, RestoreDefaults, limits, config).value.state, BalancedTarget(limits, config);
            var inferred := Some(PresetCurve(InferTier(target, limits, config.thresholds)));
            && r == s.(target := target, profile := Performance, charge := DEFAULT_CHARGE_THRESHOLD,
                       fanFollows := true, gpu := None, curve := r.curve, gpuFollows := r.gpuFollows)
            && (r.curve == inferred <==> !s.fanFollows || s.target != target || s.curve == inferred)
            && (r.gpuFollows <==> s.gpuFollows && s.gpu.None? && s.target == target)
  {
    hide InferTier, EnvelopeFromProducts, Validate, PresetWatts, CollapsePersist;
    assert Reduce(s, RestoreDefaults, limits, config) == ReduceRestoreDefaults(s, limits, config);
  }

  /** At most one save, and it comes last; there is one exactly if anything changed, and otherwise no effect at all. */
  lemma DefaultsSaveOnceLast(s: ProfileState, limits: PowerLimits, config: RuntimeConfig)
    requires !s.Locked()
    requires Reduce(s, RestoreDefaults, limits, config).Ok?
    ensures var o := Reduce(s, RestoreDefaults, limits, config).value;
            && (forall i :: 0 <= i < |o.effects| && o.effects[i] == PersistState ==> i == |o.effects| - 1)
            && (o.state == s ==> o.effects == [])
            && (o.state != s ==> PersistState in o.effects)
  {
    hide ReduceSetPreset, CollapsePersist, InferTier;
    var a := ReduceSetPreset(s, TdpPreset.Balanced, limits, config).value;
    var b := ReduceSetProfile(a.state, Performance);
    var c := ReduceCharge(b.state, DEFAULT_CHARGE_THRESHOLD);
    var d := ReduceEnableFanAuto(c.state, limits, config);
    var e := ReduceResetGpu(d.state);
    FirstStepSaves(s, limits, config);
    assert b.state == a.state || PersistState in b.effects;
    assert c.state == b.state || PersistState in c.effects;
    assert d.state == c.state || PersistState in d.effects;
    assert e.state == d.state || PersistState in e.effects;
    StepsRest(a.state, limits, config);
    hide ReduceSetProfile, ReduceCharge, ReduceEnableFanAuto, ReduceResetGpu;
    CollapseSaves(a.effects + b.effects + c.effects + d.effects + e.effects);
  }

  /** A later step that moves nothing owes nothing, and no step undoes another. */
  lemma StepsRest(s: ProfileState, limits: PowerLimits, config: RuntimeConfig)
    ensures var b := ReduceSetProfile(s, Performance);
            var c := ReduceCharge(b.state, DEFAULT_CHARGE_THRESHOLD);
            var d := ReduceEnableFanAuto(c.state, limits, config);
            var e := ReduceResetGpu(d.state);
            && (e.state.profile == s.profile <==> b.effects == [])
            && (e.state.charge == s.charge <==> c.effects == [])
            && (e.state.fanFollows == s.fanFollows <==> d.effects == [])
            && (e.state.gpu == s.gpu <==> e.effects == [])
  {
    hide InferTier;
  }

  lemma FirstStepSaves(s: ProfileState, limits: PowerLimits, config: RuntimeConfig)
    requires ReduceSetPreset(s, TdpPreset.Balanced, limits, config).Ok?
    ensures var a := ReduceSetPreset(s, TdpPreset.Balanced, limits, config).value;
            if a.state.target == s.target then a == Output(s, []) else PersistState in a.effects
    ensures var a := ReduceSetPreset(s, TdpPreset.Balanced, limits, config).value;
            a.state == s.(target := a.state.target, curve := a.state.curve, gpu := a.state.gpu)
  {
  }

  lemma CollapseSaves(effects: seq<Effect>)
    ensures var r := CollapsePersist(effects);
            && (forall i :: 0 <= i < |r| && r[i] == PersistState ==> i == |r| - 1)
            && (PersistState in effects ==> PersistState in r)
            && (effects == [] ==> r == [])
  {
    var kept := WithoutPersist(effects);
    assert forall i :: 0 <= i < |kept| ==> kept[i] in kept;
    assert PersistState in effects ==> CollapsePersist(effects)[|kept|] == PersistState;
  }

  /** A second run changes nothing and owes nothing. */
  lemma DefaultsIdempotent(s: ProfileState, limits: PowerLimits, config: RuntimeConfig)
    requires !s.Locked()
    requires Reduce(s, RestoreDefaults, limits, config).Ok?
    ensures var r := Reduce(s, RestoreDefaults, limits, config).value.state;
            Reduce(r, RestoreDefaults, limits, config) == Ok(Output(r, []))
  {
    DefaultsEndPoint(s, limits, config);
    var r := Reduce(s, RestoreDefaults, limits, config).value.state;
    AtDefaults(r, limits, config);
  }

  lemma AtDefaults(r: ProfileState, limits: PowerLimits, config: RuntimeConfig)
    requires !r.Locked()
    requires ReduceSetPreset(r, TdpPreset.Balanced, limits, config).Ok?
    requires r.target == BalancedTarget(limits, config)
    requires r.profile == Performance && r.charge == DEFAULT_CHARGE_THRESHOLD && r.fanFollows && r.gpu.None?
    ensures Reduce(r, RestoreDefaults, limits, config) == Ok(Output(r, []))
  {
  }
}
