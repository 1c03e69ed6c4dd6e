/** No write without a reason: what an effect list may contain, given where the transition starts and ends. */
module Economy {
  import opened Units
  import opened Domain
  import opened Inference
  import opened Envelope
  import opened Reducer
  import opened Executor
  import WriteOnce

  /** The transition forces the maximum: a locked resume, plugging in or switching on with the lock as the outcome. */
  predicate Forces(s: ProfileState, t: Transition) {
    || (t.SystemResumed? && s.Locked())
    || (t == AcPowerChanged(true) && !s.acConnected && s.acMaxPerformance)
    || (t == SetAcMaxPerformance(true) && s.acConnected && !s.acMaxPerformance)
  }

  /** The transition asserts every managed rail, whatever memory says is there already. */
  predicate Asserts(s: ProfileState, t: Transition) {
    Forces(s, t) || (t.SystemResumed? && s.lastDc.None?)
  }

  /** The lever behind the effect moved, its selection or what it follows; or a profile change may have dropped it. */
  predicate Moved(e: Effect, s: ProfileState, r: ProfileState) {
    match e
    case ApplyProfile(_) => s.profile != r.profile
    case ApplyEnvelope(_) => s.target != r.target || s.profile != r.profile
    case ApplyCharge(_) => s.charge != r.charge
    case ApplyCurve(_) => s.curve != r.curve || s.fanFollows != r.fanFollows || s.profile != r.profile
    case DropCurve => s.curve != r.curve || s.fanFollows != r.fanFollows
    case ApplyGpu(_) => s.gpu != r.gpu || s.gpuFollows != r.gpuFollows
    case DropGpu =>
      s.gpu != r.gpu || s.gpuFollows != r.gpuFollows
      || (s.lastDc.Some? && r.lastDc.None? && s.gpu != s.lastDc.value.gpu)
    case PersistState => Persisted(s) != Persisted(r)
  }

  /** The effect is repeated on purpose. */
  predicate Again(e: Effect, s: ProfileState, t: Transition) {
    match e
    case ApplyCharge(_) => t.SystemResumed?
    case ApplyCurve(_) => Asserts(s, t) || t.SetCoolingLevel? || t.SetCustomFanCurve?
    case DropCurve => false
    case ApplyGpu(_) => Asserts(s, t) && s.gpu.Some?
    case DropGpu => Asserts(s, t) && s.gpu.Some?
    case PersistState => Forces(s, t) || t.SetCoolingLevel? || t.SetCustomFanCurve? || t.Shutdown?
    case _ => Asserts(s, t)
  }

  predicate AllMoved(effects: seq<Effect>, s: ProfileState, r: ProfileState) {
    forall e :: e in effects ==> Moved(e, s, r)
  }

  predicate AllDue(effects: seq<Effect>, s: ProfileState, t: Transition, r: ProfileState) {
    forall e :: e in effects ==> Moved(e, s, r) || Again(e, s, t)
  }

  lemma TargetMoved(s: ProfileState, target: PowerTarget, limits: PowerLimits, config: RuntimeConfig)
    ensures var o := ApplyPowerTarget(s, target, limits, config);
            AllMoved(o.effects, s, o.state)
  {
    hide InferTier;
  }

  lemma RestoreMoved(s: ProfileState, r: ProfileState)
    requires s.lastDc.Some?
    requires r == RestoreDc(s, s.lastDc.value).state.(acConnected := r.acConnected,
                                                      acMaxPerformance := r.acMaxPerformance)
    ensures AllMoved(RestoreDc(s, s.lastDc.value).effects, s, r)
  {
    var snapshot := s.lastDc.value;
    var moved := s.profile != snapshot.profile;
    assert AllMoved(CurveEffects(s.curve, snapshot.curve, moved), s, r);
    assert AllMoved(GpuEffects(s.gpu, snapshot.gpu), s, r);
    assert Moved(PersistState, s, r);
    hide CurveEffects, GpuEffects, RestoredGpu;
  }

  lemma ProfileMoved(s: ProfileState, profile: ProfileName)
    ensures var o := ReduceSetProfile(s, profile);
            AllMoved(o.effects, s, o.state)
  {
  }

  lemma ForcedDue(s: ProfileState, t: Transition, limits: PowerLimits, config: RuntimeConfig, r: ProfileState)
    requires Forces(s, t)
    ensures AllDue(ForceAcMax(s, limits, config).effects + [PersistState], s, t, r)
    ensures t.SystemResumed? ==>
              AllDue(ForceAcMax(s, limits, config).effects + [ApplyCharge(s.charge), PersistState], s, t, r)
  {
    hide DeriveBoosted;
  }

  // ---- Restoring defaults ----------------------------------------------------

  lemma LaterStepsMoved(s: ProfileState, limits: PowerLimits, config: RuntimeConfig)
    ensures var b := ReduceSetProfile(s, Performance);
            var c := ReduceCharge(b.state, DEFAULT_CHARGE_THRESHOLD);
            var d := ReduceEnableFanAuto(c.state, limits, config);
            var e := ReduceResetGpu(d.state);
            && AllMoved(b.effects, s, e.state) && AllMoved(c.effects, s, e.state)
            && AllMoved(d.effects, s, e.state) && AllMoved(e.effects, s, e.state)
            && e.state == s.(profile := Performance, charge := DEFAULT_CHARGE_THRESHOLD, fanFollows := true,
                             curve := d.state.curve, gpu := None, gpuFollows := s.gpuFollows && s.gpu.None?)
            && (s.fanFollows ==> d.state.curve == s.curve)
  {
    hide InferTier;
    ProfileMoved(s, Performance);
  }

  /** What moved in the first step or in the later ones moved altogether. */
  lemma MovedAltogether(e: Effect, s: ProfileState, m: ProfileState, r: ProfileState, limits: PowerLimits,
                        config: RuntimeConfig)
    requires m == WriteOnce.BalancedFirst(s, limits, config)
    requires r == m.(profile := Performance, charge := DEFAULT_CHARGE_THRESHOLD, fanFollows := true, curve := r.curve,
                     gpu := None, gpuFollows := m.gpuFollows && m.gpu.None?)
    requires m.fanFollows ==> r.curve == m.curve
    requires Moved(e, s, m) || Moved(e, m, r)
    ensures Moved(e, s, r)
  {
    hide InferTier, QuietTarget;
  }

  lemma DefaultsMoved(s: ProfileState, limits: PowerLimits, config: RuntimeConfig)
    requires ReduceRestoreDefaults(s, limits, config).Ok?
    ensures var o := ReduceRestoreDefaults(s, limits, config).value;
            AllMoved(o.effects, s, o.state)
  {
    WriteOnce.BalancedIsQuiet(s, limits, config);
    TargetMoved(s, QuietTarget(limits, config), limits, config);
    var a := ApplyPowerTarget(s, QuietTarget(limits, config), limits, config);
    LaterStepsMoved(a.state, limits, config);
    var o := ReduceRestoreDefaults(s, limits, config).value;
    var b := ReduceSetProfile(a.state, Performance);
    var c := ReduceCharge(b.state, DEFAULT_CHARGE_THRESHOLD);
    var d := ReduceEnableFanAuto(c.state, limits, config);
    var g := ReduceResetGpu(d.state);
    hide ReduceSetPreset, ReduceSetProfile, ReduceCharge, ReduceEnableFanAuto, ReduceResetGpu, ApplyPowerTarget, Moved,
         WithoutPersist, QuietTarget;
    forall e | e in o.effects ensures Moved(e, s, o.state) {
      assert e in a.effects + b.effects + c.effects + d.effects + g.effects;
      MovedAltogether(e, s, a.state, o.state, limits, config);
    }
  }

  // ---- All transitions ---------------------------------------------------------

  /** Every effect of every accepted transition has its reason: its lever moved, or it is repeated on purpose. */
  lemma NothingNeedless(s: ProfileState, t: Transition, limits: PowerLimits, config: RuntimeConfig)
    requires Reduce(s, t, limits, config).Ok?
    ensures var o := Reduce(s, t, limits, config).value;
            AllDue(o.effects, s, t, o.state)
  {
    var o := Reduce(s, t, limits, config).value;
    if !(s.Locked() && t.IsLockedWrite()) {
      match t
      case SetPreset(preset) => SplMoved(s, PresetWatts(preset, limits, config), limits, config);
      case SetSpl(watts) => SplMoved(s, watts, limits, config);
      case SetEnvelope(target) => TargetMoved(s, target, limits, config);
      case SetProfile(profile) => ProfileMoved(s, profile);
      case AcPowerChanged(plugged) => EdgeDue(s, plugged, limits, config);
      case SystemResumed => ResumeDue(s, limits, config);
      case SetAcMaxPerformance(enabled) => ToggleDue(s, enabled, limits, config);
      case RestoreDefaults => DefaultsMoved(s, limits, config);
      case _ => SmallDue(s, t, limits, config);
    }
  }

  lemma SplMoved(s: ProfileState, watts: U32, limits: PowerLimits, config: RuntimeConfig)
    requires ReduceSetSpl(s, watts, limits, config).Ok?
    ensures var o := ReduceSetSpl(s, watts, limits, config).value;
            AllMoved(o.effects, s, o.state)
  {
    TargetMoved(s, DeriveBoosted(FromWatts(watts).value, limits, config), limits, config);
  }

  lemma EdgeDue(s: ProfileState, plugged: bool, limits: PowerLimits, config: RuntimeConfig)
    requires Reduce(s, AcPowerChanged(plugged), limits, config).Ok?
    ensures var o := Reduce(s, AcPowerChanged(plugged), limits, config).value;
            AllDue(o.effects, s, AcPowerChanged(plugged), o.state)
  {
    var o := Reduce(s, AcPowerChanged(plugged), limits, config).value;
    if s.acConnected == plugged {
    } else if plugged {
      if s.acMaxPerformance {
        ForcedDue(s, AcPowerChanged(true), limits, config, o.state);
      }
    } else if s.lastDc.Some? {
      RestoreMoved(s, o.state);
    } else if s.acMaxPerformance {
      QuietMoved(s, limits, config);
    }
    hide RestoreDc, ForceAcMax, Moved, Again, Forces, ReduceSetPreset;
  }

  lemma QuietMoved(s: ProfileState, limits: PowerLimits, config: RuntimeConfig)
    requires s.Locked() && s.lastDc.None? && ReduceUnplug(s, limits, config).Ok?
    ensures var o := ReduceUnplug(s, limits, config).value;
            AllMoved(o.effects, s, o.state)
  {
    var view := s.(acConnected := false, fanFollows := true);
    WriteOnce.BalancedIsQuiet(view, limits, config);
    TargetMoved(view, QuietTarget(limits, config), limits, config);
    hide InferTier, QuietTarget, ReduceSetPreset;
  }

  lemma ResumeDue(s: ProfileState, limits: PowerLimits, config: RuntimeConfig)
    ensures var o := ReduceResume(s, limits, config);
            AllDue(o.effects, s, SystemResumed, o.state)
  {
    if s.Locked() {
      ForcedDue(s, SystemResumed, limits, config, ReduceResume(s, limits, config).state);
    } else if s.lastDc.Some? {
      RestoreMoved(s, RestoreDc(s, s.lastDc.value).state);
    }
  }

  lemma ToggleDue(s: ProfileState, enabled: bool, limits: PowerLimits, config: RuntimeConfig)
    ensures var o := ReduceSetAcMax(s, enabled, limits, config);
            AllDue(o.effects, s, SetAcMaxPerformance(enabled), o.state)
  {
    var r := ReduceSetAcMax(s, enabled, limits, config).state;
    if s.acConnected && s.acMaxPerformance != enabled {
      if enabled {
        ForcedDue(s, SetAcMaxPerformance(true), limits, config, r);
      } else if s.lastDc.Some? {
        RestoreMoved(s, r);
      } else {
        assert Moved(PersistState, s, r);
      }
    } else {
      assert s.acMaxPerformance != enabled ==> Moved(PersistState, s, r);
    }
    hide RestoreDc, ForceAcMax, Moved, Again, Forces;
  }

  /** The single-lever commands, rollbacks and the rest. */
  lemma SmallDue(s: ProfileState, t: Transition, limits: PowerLimits, config: RuntimeConfig)
    requires !t.SetPreset? && !t.SetSpl? && !t.SetEnvelope? && !t.SetProfile? && !t.AcPowerChanged?
    requires !t.SystemResumed? && !t.SetAcMaxPerformance? && !t.RestoreDefaults?
    ensures Reduce(s, t, limits, config).Ok?
    ensures var o := Reduce(s, t, limits, config).value;
            AllDue(o.effects, s, t, o.state)
  {
    hide InferTier;
  }

  // ---- The save comes last -------------------------------------------------------

  /** At most one save, and nothing after it. */
  predicate SavesLast(effects: seq<Effect>) {
    forall i :: 0 <= i < |effects| - 1 ==> effects[i] != PersistState
  }

  lemma LastAppend(writes: seq<Effect>, last: seq<Effect>)
    requires PersistState !in writes && |last| <= 1
    ensures SavesLast(writes + last)
  {
  }

  lemma TargetSavesLast(s: ProfileState, target: PowerTarget, limits: PowerLimits, config: RuntimeConfig)
    ensures SavesLast(ApplyPowerTarget(s, target, limits, config).effects)
  {
    hide InferTier;
    var r := ApplyPowerTarget(s, target, limits, config).state;
    var tier, moved := InferTier(target, limits, config.thresholds), s.target != target;
    var writes := When(moved, ApplyEnvelope(target)) + When(s.curve != r.curve, ApplyCurve(PresetCurve(tier)))
                  + When(s.gpu != r.gpu, ApplyGpu(tier));
    LastAppend(writes, When(moved, PersistState));
  }

  lemma RestoreSavesLast(s: ProfileState, snapshot: DcSnapshot)
    ensures var effects := RestoreDc(s, snapshot).effects;
            SavesLast(effects) && effects != [] && effects[|effects| - 1] == PersistState
  {
    var moved := s.profile != snapshot.profile;
    var writes := When(moved, ApplyProfile(snapshot.profile))
                  + When(moved || s.target != snapshot.target, ApplyEnvelope(snapshot.target))
                  + CurveEffects(s.curve, snapshot.curve, moved) + GpuEffects(s.gpu, snapshot.gpu);
    LastAppend(writes, [PersistState]);
  }

  lemma ForcedSavesLast(s: ProfileState, limits: PowerLimits, config: RuntimeConfig)
    ensures SavesLast(ForceAcMax(s, limits, config).effects + [PersistState])
    ensures SavesLast(ForceAcMax(s, limits, config).effects + [ApplyCharge(s.charge), PersistState])
  {
    hide DeriveBoosted;
    var f := ForceAcMax(s, limits, config).effects;
    assert f + [ApplyCharge(s.charge), PersistState] == (f + [ApplyCharge(s.charge)]) + [PersistState];
    LastAppend(f + [ApplyCharge(s.charge)], [PersistState]);
  }

  predicate RestoresOnResume(s: ProfileState, t: Transition) {
    t.SystemResumed? && !s.Locked() && s.lastDc.Some?
  }

  /** A resume that restores a snapshot asserts the charge threshold after the save. */
  lemma RestoreThenCharge(s: ProfileState, limits: PowerLimits, config: RuntimeConfig)
    requires RestoresOnResume(s, SystemResumed)
    ensures var effects := ReduceResume(s, limits, config).effects;
            && |effects| >= 2 && effects[|effects| - 1] == ApplyCharge(s.charge)
            && SavesLast(effects[..|effects| - 1]) && !SavesLast(effects)
  {
    RestoreSavesLast(s, s.lastDc.value);
    var restored := RestoreDc(s, s.lastDc.value).effects;
    assert (restored + [ApplyCharge(s.charge)])[..|restored|] == restored;
    assert (restored + [ApplyCharge(s.charge)])[|restored| - 1] == PersistState;
  }

  /** Every other transition saves after all of its writes, if at all. */
  lemma SaveComesLast(s: ProfileState, t: Transition, limits: PowerLimits, config: RuntimeConfig)
    requires Reduce(s, t, limits, config).Ok?
    ensures SavesLast(Reduce(s, t, limits, config).value.effects) <==> !RestoresOnResume(s, t)
  {
    if !(s.Locked() && t.IsLockedWrite()) {
      match t
      case SetPreset(preset) =>
        var watts := PresetWatts(preset, limits, config);
        TargetSavesLast(s, DeriveBoosted(FromWatts(watts).value, limits, config), limits, config);
      case SetSpl(watts) =>
        TargetSavesLast(s, DeriveBoosted(FromWatts(watts).value, limits, config), limits, config);
      case SetEnvelope(target) => TargetSavesLast(s, target, limits, config);
      case SetProfile(profile) =>
        LastAppend([ApplyProfile(profile), ApplyEnvelope(s.target)] + ReassertCurve(s), [PersistState]);
      case SystemResumed => ResumeSavesLast(s, limits, config);
      case AcPowerChanged(_) => SwitchSavesLast(s, t, limits, config);
      case SetAcMaxPerformance(_) => SwitchSavesLast(s, t, limits, config);
      case RestoreDefaults =>
        var all := DefaultsEffects(s, limits, config);
        LastAppend(WithoutPersist(all), When(PersistState in all, PersistState));
      case _ =>
    }
    hide InferTier, DeriveBoosted, PresetWatts, Validate, ReduceResume, ApplyPowerTarget, CollapsePersist;
  }

  lemma ResumeSavesLast(s: ProfileState, limits: PowerLimits, config: RuntimeConfig)
    ensures SavesLast(ReduceResume(s, limits, config).effects) <==> !RestoresOnResume(s, SystemResumed)
  {
    if s.Locked() {
      ForcedSavesLast(s, limits, config);
    } else if s.lastDc.Some? {
      RestoreThenCharge(s, limits, config);
    }
    hide ForceAcMax, RestoreDc;
  }

  lemma SwitchSavesLast(s: ProfileState, t: Transition, limits: PowerLimits, config: RuntimeConfig)
    requires t.AcPowerChanged? || t.SetAcMaxPerformance?
    requires Reduce(s, t, limits, config).Ok?
    ensures SavesLast(Reduce(s, t, limits, config).value.effects)
  {
    ForcedSavesLast(s, limits, config);
    if s.lastDc.Some? {
      RestoreSavesLast(s, s.lastDc.value);
    } else if t.AcPowerChanged? && !t.plugged && s.Locked() {
      var view := s.(acConnected := false, fanFollows := true);
      WriteOnce.BalancedIsQuiet(view, limits, config);
      TargetSavesLast(view, QuietTarget(limits, config), limits, config);
    }
    hide ForceAcMax, RestoreDc, ApplyPowerTarget, ReduceSetPreset, QuietTarget;
  }

  lemma DefaultsEffects(s: ProfileState, limits: PowerLimits, config: RuntimeConfig) returns (all: seq<Effect>)
    requires ReduceRestoreDefaults(s, limits, config).Ok?
    ensures ReduceRestoreDefaults(s, limits, config).value.effects == CollapsePersist(all)
  {
    var a := ReduceSetPreset(s, TdpPreset.Balanced, limits, config).value;
    var b := ReduceSetProfile(a.state, Performance);
    var c := ReduceCharge(b.state, DEFAULT_CHARGE_THRESHOLD);
    var d := ReduceEnableFanAuto(c.state, limits, config);
    all := a.effects + b.effects + c.effects + d.effects + ReduceResetGpu(d.state).effects;
  }
}
