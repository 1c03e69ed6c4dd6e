/** Which transitions write each hardware rail at most once, and the platform profile before what it may drop. */
module WriteOnce {
  import opened Units
  import opened Domain
  import opened Inference
  import opened Envelope
  import opened Reducer
  import opened Settling
  import opened Coherence

  // ---- Each rail at most once, profile before what it may drop -----------

  /** The rails written so far. */
  function Mark(e: Effect, written: Dirty): Dirty {
    match e
    case ApplyProfile(_) => written.(profile := true)
    case ApplyEnvelope(_) => written.(envelope := true)
    case ApplyCharge(_) => written.(charge := true)
    case ApplyCurve(_) => written.(curve := true)
    case DropCurve => written.(curve := true)
    case ApplyGpu(_) => written.(gpu := true)
    case DropGpu => written.(gpu := true)
    case PersistState => written
  }

  predicate Allowed(e: Effect, written: Dirty) {
    match e
    case ApplyProfile(_) => !written.profile && !written.envelope && !written.curve
    case ApplyEnvelope(_) => !written.envelope
    case ApplyCharge(_) => !written.charge
    case ApplyCurve(_) => !written.curve
    case DropCurve => !written.curve
    case ApplyGpu(_) => !written.gpu
    case DropGpu => !written.gpu
    case PersistState => true
  }

  predicate Once(effects: seq<Effect>, written: Dirty) {
    effects == [] || (Allowed(effects[0], written) && Once(effects[1..], Mark(effects[0], written)))
  }

  function MarkAll(effects: seq<Effect>, written: Dirty): Dirty {
    if effects == [] then written else MarkAll(effects[1..], Mark(effects[0], written))
  }

  lemma {:induction false} OnceAppend(a: seq<Effect>, b: seq<Effect>, written: Dirty)
    ensures Once(a + b, written) <==> Once(a, written) && Once(b, MarkAll(a, written))
    ensures MarkAll(a + b, written) == MarkAll(b, MarkAll(a, written))
  {
    if a == [] {
      assert a + b == b;
    } else {
      assert (a + b)[0] == a[0] && (a + b)[1..] == a[1..] + b;
      OnceAppend(a[1..], b, Mark(a[0], written));
    }
  }

  lemma OnceSingle(e: Effect, written: Dirty)
    ensures Once([e], written) <==> Allowed(e, written)
    ensures MarkAll([e], written) == Mark(e, written)
  {
  }

  lemma OncePair(e: Effect, f: Effect, written: Dirty)
    ensures Once([e, f], written) <==> Allowed(e, written) && Allowed(f, Mark(e, written))
    ensures MarkAll([e, f], written) == Mark(f, Mark(e, written))
  {
    assert [e, f][1..] == [f];
    OnceSingle(f, Mark(e, written));
  }

  lemma OnceTriple(e: Effect, f: Effect, g: Effect, written: Dirty)
    ensures Once([e, f, g], written)
       <==> Allowed(e, written) && Allowed(f, Mark(e, written)) && Allowed(g, Mark(f, Mark(e, written)))
    ensures MarkAll([e, f, g], written) == Mark(g, Mark(f, Mark(e, written)))
  {
    assert [e, f, g][1..] == [f, g];
    OncePair(f, g, Mark(e, written));
  }

  // ---- Which transitions write each rail at most once ---------------------

  lemma OnceWhen(condition: bool, e: Effect, written: Dirty)
    ensures Once(When(condition, e), written) <==> (condition ==> Allowed(e, written))
    ensures MarkAll(When(condition, e), written) == if condition then Mark(e, written) else written
  {
  }

  lemma ApplyPowerTargetOnce(s: ProfileState, target: PowerTarget, limits: PowerLimits, config: RuntimeConfig)
    ensures var o := ApplyPowerTarget(s, target, limits, config);
            && Once(o.effects, CLEAN)
            && MarkAll(o.effects, CLEAN)
                 == Dirty(false, s.target != target, false, s.curve != o.state.curve, s.gpu != o.state.gpu)
  {
    var o := ApplyPowerTarget(s, target, limits, config);
    var moved, tier := s.target != target, InferTier(target, limits, config.thresholds);
    var e, p := When(moved, ApplyEnvelope(target)), When(moved, PersistState);
    var c := When(s.curve != o.state.curve, ApplyCurve(PresetCurve(tier)));
    var g := When(s.gpu != o.state.gpu, ApplyGpu(tier));
    OnceAppend(e + c + g, p, CLEAN);
    OnceAppend(e + c, g, CLEAN);
    OnceAppend(e, c, CLEAN);
    OnceWhen(moved, ApplyEnvelope(target), CLEAN);
    OnceWhen(s.curve != o.state.curve, ApplyCurve(PresetCurve(tier)), MarkAll(e, CLEAN));
    OnceWhen(s.gpu != o.state.gpu, ApplyGpu(tier), MarkAll(e + c, CLEAN));
    OnceWhen(moved, PersistState, MarkAll(e + c + g, CLEAN));
  }

  lemma ForceAcMaxOnce(s: ProfileState, limits: PowerLimits, config: RuntimeConfig)
    ensures Once(ForceAcMax(s, limits, config).effects, CLEAN)
    ensures !MarkAll(ForceAcMax(s, limits, config).effects, CLEAN).charge
  {
    var core := [ApplyProfile(Performance), ApplyEnvelope(DeriveBoosted(limits.splMax, limits, config)),
                 ApplyCurve(PresetCurve(Aggressive))];
    OnceAppend(core, When(s.gpu.Some?, ApplyGpu(Aggressive)), CLEAN);
    OnceTriple(core[0], core[1], core[2], CLEAN);
    OnceWhen(s.gpu.Some?, ApplyGpu(Aggressive), MarkAll(core, CLEAN));
  }

  lemma RestoreDcOnce(s: ProfileState, snapshot: DcSnapshot)
    ensures Once(RestoreDc(s, snapshot).effects, CLEAN)
    ensures !MarkAll(RestoreDc(s, snapshot).effects, CLEAN).charge
  {
    var moved := s.profile != snapshot.profile;
    var rewrite := moved || s.target != snapshot.target;
    var p, e := When(moved, ApplyProfile(snapshot.profile)), When(rewrite, ApplyEnvelope(snapshot.target));
    var c, g := CurveEffects(s.curve, snapshot.curve, moved), GpuEffects(s.gpu, snapshot.gpu);
    OnceAppend(p + e + c + g, [PersistState], CLEAN);
    OnceAppend(p + e + c, g, CLEAN);
    OnceAppend(p + e, c, CLEAN);
    OnceAppend(p, e, CLEAN);
    OnceWhen(moved, ApplyProfile(snapshot.profile), CLEAN);
    OnceWhen(rewrite, ApplyEnvelope(snapshot.target), MarkAll(p, CLEAN));
    CurveEffectsOnce(s.curve, snapshot.curve, moved, MarkAll(p + e, CLEAN));
    GpuEffectsOnce(s.gpu, snapshot.gpu, MarkAll(p + e + c, CLEAN));
    OnceSingle(PersistState, MarkAll(p + e + c + g, CLEAN));
  }

  lemma CurveEffectsOnce(current: Option<FanSelection>, saved: Option<FanSelection>, moved: bool, written: Dirty)
    requires !written.curve
    ensures var c := CurveEffects(current, saved, moved);
            Once(c, written) && MarkAll(c, written) == written.(curve := c != [])
  {
  }

  lemma GpuEffectsOnce(current: Option<GpuSelection>, saved: Option<GpuSelection>, written: Dirty)
    requires !written.gpu
    ensures var g := GpuEffects(current, saved);
            Once(g, written) && MarkAll(g, written) == written.(gpu := g != [])
  {
  }

  /** A profile change wants all three of its rails unwritten; an unchanged profile writes nothing. */
  lemma SetProfileOnce(s: ProfileState, profile: ProfileName, written: Dirty)
    ensures var effects := ReduceSetProfile(s, profile).effects;
            && (Once(effects, written) <==> s.profile == profile || Allowed(ApplyProfile(profile), written))
            && MarkAll(effects, written) == if s.profile == profile then written
                                            else written.(profile := true, envelope := true, curve := written.curve
                                                          || s.curve.Some?)
  {
    if s.profile != profile {
      var core := [ApplyProfile(profile), ApplyEnvelope(s.target)];
      OnceAppend(core + ReassertCurve(s), [PersistState], written);
      OnceAppend(core, ReassertCurve(s), written);
      OncePair(core[0], core[1], written);
      ReassertCurveOnce(s, MarkAll(core, written));
      OnceSingle(PersistState, MarkAll(core + ReassertCurve(s), written));
    }
  }

  lemma ReassertCurveOnce(s: ProfileState, written: Dirty)
    ensures Once(ReassertCurve(s), written) <==> s.curve.None? || !written.curve
    ensures MarkAll(ReassertCurve(s), written) == written.(curve := written.curve || s.curve.Some?)
  {
  }

  /** A resume that re-applies a managed GPU tier resets it first, writing that rail twice. */
  predicate ReappliesGpu(s: ProfileState) {
    !s.Locked() && s.lastDc.None? && s.gpu.Some? && s.gpu.value.PresetClock?
  }

  lemma ResumeOnce(s: ProfileState, limits: PowerLimits, config: RuntimeConfig)
    ensures Once(ReduceResume(s, limits, config).effects, CLEAN) <==> !ReappliesGpu(s)
  {
    if s.Locked() {
      ForceAcMaxOnce(s, limits, config);
      var f := ForceAcMax(s, limits, config).effects;
      OnceAppend(f, [ApplyCharge(s.charge), PersistState], CLEAN);
      OncePair(ApplyCharge(s.charge), PersistState, MarkAll(f, CLEAN));
    } else if s.lastDc.Some? {
      RestoreDcOnce(s, s.lastDc.value);
      var f := RestoreDc(s, s.lastDc.value).effects;
      OnceAppend(f, [ApplyCharge(s.charge)], CLEAN);
      OnceSingle(ApplyCharge(s.charge), MarkAll(f, CLEAN));
    } else {
      ReassertAllOnce(s, limits, config);
    }
  }

  lemma ReassertAllOnce(s: ProfileState, limits: PowerLimits, config: RuntimeConfig)
    requires !s.Locked() && s.lastDc.None?
    ensures Once(ReduceResume(s, limits, config).effects, CLEAN) <==> !ReappliesGpu(s)
  {
    var core := [ApplyProfile(s.profile), ApplyEnvelope(s.target), ApplyCharge(s.charge)];
    var head := core + ReassertCurve(s);
    assert ReduceResume(s, limits, config).effects == head + ResumeGpuEffects(s.gpu);
    OnceAppend(head, ResumeGpuEffects(s.gpu), CLEAN);
    OnceAppend(core, ReassertCurve(s), CLEAN);
    OnceTriple(core[0], core[1], core[2], CLEAN);
    ReassertCurveOnce(s, MarkAll(core, CLEAN));
    if s.gpu.Some? {
      OnceSingle(DropGpu, MarkAll(head, CLEAN));
      OncePair(DropGpu, ApplyGpu(if s.gpu.value.PresetClock? then s.gpu.value.tier else Silent), MarkAll(head, CLEAN));
    }
  }

  lemma SetAcMaxOnce(s: ProfileState, enabled: bool, limits: PowerLimits, config: RuntimeConfig)
    ensures Once(ReduceSetAcMax(s, enabled, limits, config).effects, CLEAN)
  {
    OnceSingle(PersistState, CLEAN);
    if s.acMaxPerformance != enabled && s.acConnected {
      if enabled {
        ForceAcMaxOnce(s, limits, config);
        var f := ForceAcMax(s, limits, config).effects;
        OnceAppend(f, [PersistState], CLEAN);
        OnceSingle(PersistState, MarkAll(f, CLEAN));
      } else if s.lastDc.Some? {
        RestoreDcOnce(s, s.lastDc.value);
      }
    }
  }

  lemma AcEdgeOnce(s: ProfileState, plugged: bool, limits: PowerLimits, config: RuntimeConfig)
    requires Reduce(s, AcPowerChanged(plugged), limits, config).Ok?
    ensures Once(Reduce(s, AcPowerChanged(plugged), limits, config).value.effects, CLEAN)
  {
    if plugged {
      ForceAcMaxOnce(s, limits, config);
      var f := ForceAcMax(s, limits, config).effects;
      OnceAppend(f, [PersistState], CLEAN);
      OnceSingle(PersistState, MarkAll(f, CLEAN));
    } else if s.acConnected {
      if s.lastDc.Some? {
        RestoreDcOnce(s, s.lastDc.value);
      } else if s.acMaxPerformance {
        var view, watts := s.(acConnected := false, fanFollows := true),
            PresetWatts(TdpPreset.Balanced, limits, config);
        ApplyPowerTargetOnce(view, DeriveBoosted(FromWatts(watts).value, limits, config), limits, config);
      }
    }
  }

  /** A list of one hardware write and one save. */
  lemma OneWriteOnce(effects: seq<Effect>)
    requires |effects| <= 2 && (|effects| == 2 ==> effects[1] == PersistState)
    ensures Once(effects, CLEAN)
  {
  }

  // ---- Restoring defaults ----------------------------------------------------

  /** Saving touches no rail, so collapsing the saves changes nothing here either. */
  lemma {:induction false} OnceWithoutPersist(effects: seq<Effect>, written: Dirty)
    ensures Once(WithoutPersist(effects), written) <==> Once(effects, written)
    ensures MarkAll(WithoutPersist(effects), written) == MarkAll(effects, written)
  {
    if effects != [] {
      OnceAppend(When(effects[0] != PersistState, effects[0]), WithoutPersist(effects[1..]), written);
      OnceWhen(effects[0] != PersistState, effects[0], written);
      OnceWithoutPersist(effects[1..], Mark(effects[0], written));
    }
  }

  lemma OnceCollapsed(effects: seq<Effect>, written: Dirty)
    ensures Once(CollapsePersist(effects), written) <==> Once(effects, written)
  {
    OnceAppend(WithoutPersist(effects), When(PersistState in effects, PersistState), written);
    OnceWithoutPersist(effects, written);
    OnceWhen(PersistState in effects, PersistState, MarkAll(effects, written));
  }

  function QuietTier(limits: PowerLimits, config: RuntimeConfig): Tier {
    InferTier(QuietTarget(limits, config), limits, config.thresholds)
  }

  /** The Balanced preset adopts the quiet default, if it fits. */
  lemma BalancedIsQuiet(s: ProfileState, limits: PowerLimits, config: RuntimeConfig)
    ensures ReduceSetPreset(s, TdpPreset.Balanced, limits, config)
         == if QuietFits(limits, config) then Ok(ApplyPowerTarget(s, QuietTarget(limits, config), limits, config))
            else Err(InvariantViolation)
    ensures ReduceRestoreDefaults(s, limits, config).Ok? <==> QuietFits(limits, config)
  {
    hide InferTier, ApplyPowerTarget;
    assert FromWatts(PresetWatts(TdpPreset.Balanced, limits, config)) == Ok(BalancedSpl(limits));
    assert QuietTarget(limits, config).spl == BalancedSpl(limits);
  }

  /** The state after the first of the five steps: the quiet target, with whatever follows it. */
  function BalancedFirst(s: ProfileState, limits: PowerLimits, config: RuntimeConfig): ProfileState {
    ApplyPowerTarget(s, QuietTarget(limits, config), limits, config).state
  }

  /** Restoring defaults writes a rail twice exactly when the profile has to change on top of a new target or a manual
      curve, or when a GPU tier moves with the target only to be reset at the end. */
  predicate DefaultsRewrite(s: ProfileState, limits: PowerLimits, config: RuntimeConfig) {
    var moved := s.target != QuietTarget(limits, config);
    || (s.profile != Performance && (moved || (s.curve.Some? && !s.fanFollows)))
    || (moved && s.gpuFollows && s.gpu != Some(PresetClock(QuietTier(limits, config))))
  }

  /** A guarded write and its save. */
  lemma WriteAndSaveOnce(effects: seq<Effect>, e: Effect, written: Dirty)
    requires effects == [] || effects == [e, PersistState]
    ensures Once(effects, written) <==> effects == [] || Allowed(e, written)
    ensures MarkAll(effects, written) == if effects == [] then written else Mark(e, written)
  {
    OncePair(e, PersistState, written);
  }

  lemma ThreeParts(a: seq<Effect>, b: seq<Effect>, c: seq<Effect>, written: Dirty)
    ensures var w1 := MarkAll(a, written);
            var w2 := MarkAll(b, w1);
            && (Once(a + b + c, written) <==> Once(a, written) && Once(b, w1) && Once(c, w2))
            && MarkAll(a + b + c, written) == MarkAll(c, w2)
  {
    hide Once, MarkAll;
    OnceAppend(a + b, c, written);
    OnceAppend(a, b, written);
  }

  /** The four steps after the first, from any state and any set of rails already written. */
  lemma LaterStepsOnce(s: ProfileState, limits: PowerLimits, config: RuntimeConfig, written: Dirty)
    ensures var b := ReduceSetProfile(s, Performance);
            var c := ReduceCharge(b.state, DEFAULT_CHARGE_THRESHOLD);
            var d := ReduceEnableFanAuto(c.state, limits, config);
            var e := ReduceResetGpu(d.state);
            var w2 := MarkAll(b.effects, written);
            var w3 := MarkAll(c.effects, w2);
            !written.profile && !written.charge ==>
              (Once(b.effects, written) && Once(c.effects, w2) && Once(d.effects, w3)
               && Once(e.effects, MarkAll(d.effects, w3))
               <==> && (s.profile == Performance
                        || (!written.envelope && !written.curve && (s.curve.None? || s.fanFollows)))
                    && (s.fanFollows || !written.curve)
                    && (s.gpu.None? || !written.gpu))
  {
    hide InferTier, Once, MarkAll;
    var b := ReduceSetProfile(s, Performance);
    var c := ReduceCharge(b.state, DEFAULT_CHARGE_THRESHOLD);
    var d := ReduceEnableFanAuto(c.state, limits, config);
    SetProfileOnce(s, Performance, written);
    var w2 := MarkAll(b.effects, written);
    WriteAndSaveOnce(c.effects, ApplyCharge(DEFAULT_CHARGE_THRESHOLD), w2);
    var w3 := MarkAll(c.effects, w2);
    WriteAndSaveOnce(d.effects, ApplyCurve(PresetCurve(InferTier(c.state.target, limits, config.thresholds))), w3);
    WriteAndSaveOnce(ReduceResetGpu(d.state).effects, DropGpu, MarkAll(d.effects, w3));
  }

  lemma DefaultsOnceIff(s: ProfileState, limits: PowerLimits, config: RuntimeConfig)
    requires ReduceRestoreDefaults(s, limits, config).Ok?
    ensures Once(ReduceRestoreDefaults(s, limits, config).value.effects, CLEAN) <==> !DefaultsRewrite(s, limits, config)
  {
    BalancedIsQuiet(s, limits, config);
    var a := FirstStepMarks(s, limits, config);
    var moved := a.state.target != s.target;
    assert DefaultsRewrite(s, limits, config)
      <==> (s.profile != Performance && (moved || (s.curve.Some? && !s.fanFollows))) || a.state.gpu != s.gpu;
    hide DefaultsRewrite, QuietTarget, ApplyPowerTarget;
    hide InferTier, ReduceSetPreset, CollapsePersist, Once, MarkAll, ReduceSetProfile, ReduceCharge,
         ReduceEnableFanAuto, ReduceResetGpu;
    var b := ReduceSetProfile(a.state, Performance);
    var c := ReduceCharge(b.state, DEFAULT_CHARGE_THRESHOLD);
    var d := ReduceEnableFanAuto(c.state, limits, config);
    var e := ReduceResetGpu(d.state);
    LaterStepsOnce(a.state, limits, config, MarkAll(a.effects, CLEAN));
    ThreeParts(a.effects + b.effects + c.effects, d.effects, e.effects, CLEAN);
    ThreeParts(a.effects, b.effects, c.effects, CLEAN);
    OnceCollapsed(a.effects + b.effects + c.effects + d.effects + e.effects, CLEAN);
  }

  lemma FirstStepMarks(s: ProfileState, limits: PowerLimits, config: RuntimeConfig) returns (a: Output)
    requires ReduceSetPreset(s, TdpPreset.Balanced, limits, config).Ok?
    ensures ReduceSetPreset(s, TdpPreset.Balanced, limits, config) == Ok(a)
    ensures a == ApplyPowerTarget(s, QuietTarget(limits, config), limits, config)
    ensures Once(a.effects, CLEAN)
    ensures MarkAll(a.effects, CLEAN)
              == Dirty(false, s.target != a.state.target, false, s.curve != a.state.curve, s.gpu != a.state.gpu)
    ensures a.state.profile == s.profile && a.state.fanFollows == s.fanFollows
    ensures a.state.curve != s.curve ==> a.state.target != s.target && s.fanFollows
    ensures a.state.gpu != s.gpu ==> a.state.target != s.target && a.state.gpu.Some?
  {
    var target := QuietTarget(limits, config);
    BalancedIsQuiet(s, limits, config);
    a := ApplyPowerTarget(s, target, limits, config);
    ApplyPowerTargetOnce(s, target, limits, config);
  }

  // ---- All transitions -----------------------------------------------------------

  /** The transitions that write some rail twice. */
  predicate Rewrites(s: ProfileState, t: Transition, limits: PowerLimits, config: RuntimeConfig) {
    || (t.SystemResumed? && ReappliesGpu(s))
    || (t.RestoreDefaults? && !s.Locked() && QuietFits(limits, config) && DefaultsRewrite(s, limits, config))
  }

  /** Every transition writes each rail at most once, and the profile first, with exactly two exceptions. */
  lemma ReduceWritesOnce(s: ProfileState, t: Transition, limits: PowerLimits, config: RuntimeConfig)
    requires Reduce(s, t, limits, config).Ok?
    ensures Once(Reduce(s, t, limits, config).value.effects, CLEAN) <==> !Rewrites(s, t, limits, config)
  {
    hide InferTier, DeriveBoosted, PresetWatts, QuietFits, DefaultsRewrite, ReduceRestoreDefaults, ReduceResume,
         ReduceSetAcMax, ReduceSetProfile, ApplyPowerTarget, Validate;
    var o := Reduce(s, t, limits, config).value;
    if !(s.Locked() && t.IsLockedWrite()) {
      match t
      case SetPreset(preset) =>
        ApplyPowerTargetOnce(s, DeriveBoosted(FromWatts(PresetWatts(preset, limits, config)).value, limits, config),
                             limits, config);
      case SetSpl(watts) =>
        ApplyPowerTargetOnce(s, DeriveBoosted(FromWatts(watts).value, limits, config), limits, config);
      case SetEnvelope(target) => ApplyPowerTargetOnce(s, target, limits, config);
      case SetProfile(profile) => SetProfileOnce(s, profile, CLEAN);
      case AcPowerChanged(plugged) => AcEdgeOnce(s, plugged, limits, config);
      case SystemResumed => ResumeOnce(s, limits, config);
      case SetAcMaxPerformance(enabled) => SetAcMaxOnce(s, enabled, limits, config);
      case RestoreDefaults =>
        BalancedIsQuiet(s, limits, config);
        DefaultsOnceIff(s, limits, config);
      case _ => OneWriteOnce(o.effects);
    }
  }
}
