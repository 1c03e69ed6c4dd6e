/** Hardware coherence: with every write landing, the hardware keeps agreeing with the published
    state over every run, although each platform-profile write may drop envelope and curve. */
module Coherence {
  import opened Units
  import opened Domain
  import opened Reducer
  import opened Inference
  import opened Envelope
  import opened Hardware
  import opened Executor
  import opened Settling

  // ---- Each building block pays for the rails it moves ------------------

  lemma ApplyPowerTargetSettles(s: ProfileState, target: PowerTarget, limits: PowerLimits, config: RuntimeConfig)
    ensures var o := ApplyPowerTarget(s, target, limits, config);
            Settle(o.state, o.effects, Changed(s, o.state)) == CLEAN
  {
    var o := ApplyPowerTarget(s, target, limits, config);
    var moved, tier, d0 := s.target != target, InferTier(target, limits, config.thresholds), Changed(s, o.state);
    var e, p := When(moved, ApplyEnvelope(target)), When(moved, PersistState);
    var c := When(s.curve != o.state.curve, ApplyCurve(PresetCurve(tier)));
    var g := When(s.gpu != o.state.gpu, ApplyGpu(tier));
    SettleAppend(o.state, e + c + g, p, d0);
    SettleAppend(o.state, e + c, g, d0);
    SettleAppend(o.state, e, c, d0);
    SettleWhen(o.state, moved, ApplyEnvelope(target), d0);
    var d1 := Settle(o.state, e, d0);
    SettleWhen(o.state, s.curve != o.state.curve, ApplyCurve(PresetCurve(tier)), d1);
    var d2 := Settle(o.state, c, d1);
    SettleWhen(o.state, s.gpu != o.state.gpu, ApplyGpu(tier), d2);
    SettleWhen(o.state, moved, PersistState, Settle(o.state, g, d2));
  }

  /** Forcing the AC maximum settles profile, envelope and curve from any starting point. */
  lemma ForceAcMaxSettles(s: ProfileState, limits: PowerLimits, config: RuntimeConfig, goal: ProfileState, d: Dirty)
    requires Changed(ForceAcMax(s, limits, config).state, goal) == CLEAN
    ensures Settle(goal, ForceAcMax(s, limits, config).effects, d)
         == Dirty(false, false, d.charge, false, s.gpu.None? && d.gpu)
  {
    var target := DeriveBoosted(limits.splMax, limits, config);
    var curve := PresetCurve(Aggressive);
    var core := [ApplyProfile(Performance), ApplyEnvelope(target), ApplyCurve(curve)];
    SettleAppend(goal, core, When(s.gpu.Some?, ApplyGpu(Aggressive)), d);
    SettleTriple(goal, ApplyProfile(Performance), ApplyEnvelope(target), ApplyCurve(curve), d);
    SettleWhen(goal, s.gpu.Some?, ApplyGpu(Aggressive), Settle(goal, core, d));
  }

  lemma RestoreDcSettles(s: ProfileState, snapshot: DcSnapshot, goal: ProfileState)
    requires Changed(RestoreDc(s, snapshot).state, goal) == CLEAN
    ensures Settle(goal, RestoreDc(s, snapshot).effects, Changed(s, goal)) == CLEAN
  {
    var moved := s.profile != snapshot.profile;
    var rewrite := moved || s.target != snapshot.target;
    var d0 := Changed(s, goal);
    var p, e := When(moved, ApplyProfile(snapshot.profile)), When(rewrite, ApplyEnvelope(snapshot.target));
    var c, g := CurveEffects(s.curve, snapshot.curve, moved), GpuEffects(s.gpu, snapshot.gpu);
    SettleAppend(goal, p + e + c + g, [PersistState], d0);
    SettleAppend(goal, p + e + c, g, d0);
    SettleAppend(goal, p + e, c, d0);
    SettleAppend(goal, p, e, d0);
    SettleWhen(goal, moved, ApplyProfile(snapshot.profile), d0);
    var d1 := Settle(goal, p, d0);
    SettleWhen(goal, rewrite, ApplyEnvelope(snapshot.target), d1);
    var d2 := Settle(goal, e, d1);
    SettleCurve(s.curve, snapshot.curve, moved, goal, d2);
    var d3 := Settle(goal, c, d2);
    SettleGpu(s.gpu, snapshot.gpu, goal, d3);
    SettleSingle(goal, PersistState, Settle(goal, g, d3));
  }

  lemma SettleCurve(current: Option<FanSelection>, saved: Option<FanSelection>, moved: bool, goal: ProfileState,
                    d: Dirty)
    requires goal.curve == saved
    requires d.curve ==> current != saved || (moved && saved.Some?)
    ensures Settle(goal, CurveEffects(current, saved, moved), d) == d.(curve := false)
  {
  }

  lemma SettleGpu(current: Option<GpuSelection>, saved: Option<GpuSelection>, goal: ProfileState, d: Dirty)
    requires goal.gpu == RestoredGpu(current, saved)
    requires d.gpu ==> current != saved
    ensures Settle(goal, GpuEffects(current, saved), d) == d.(gpu := false)
  {
  }

  lemma SetProfileSettles(s: ProfileState, profile: ProfileName)
    ensures var o := ReduceSetProfile(s, profile);
            Settle(o.state, o.effects, Changed(s, o.state)) == CLEAN
  {
    var o := ReduceSetProfile(s, profile);
    if s.profile != profile {
      var d := Changed(s, o.state);
      var core := [ApplyProfile(profile), ApplyEnvelope(s.target)];
      SettleAppend(o.state, core + ReassertCurve(s), [PersistState], d);
      SettleAppend(o.state, core, ReassertCurve(s), d);
      SettlePair(o.state, ApplyProfile(profile), ApplyEnvelope(s.target), d);
      var d1 := Settle(o.state, core, d);
      SettleReassert(s, o.state, d1);
      SettleSingle(o.state, PersistState, Settle(o.state, ReassertCurve(s), d1));
    }
  }

  lemma SettleReassert(s: ProfileState, goal: ProfileState, d: Dirty)
    requires goal.curve == s.curve
    ensures Settle(goal, ReassertCurve(s), d) == d.(curve := d.curve && s.curve.None?)
  {
  }

  /** The GPU half of a resume: reset to a known baseline, then re-apply a managed tier. */
  function ResumeGpuEffects(gpu: Option<GpuSelection>): seq<Effect> {
    if gpu.None? then [] else if gpu.value.Unmanaged? then [DropGpu] else [DropGpu, ApplyGpu(gpu.value.tier)]
  }

  lemma SettleResumeGpu(gpu: Option<GpuSelection>, goal: ProfileState, d: Dirty)
    requires goal.gpu == if gpu.Some? && gpu.value.Unmanaged? then None else gpu
    ensures Settle(goal, ResumeGpuEffects(gpu), d) == d.(gpu := d.gpu && gpu.None?)
  {
    if gpu.Some? {
      SettleSingle(goal, DropGpu, d);
      if gpu.value.PresetClock? {
        SettlePair(goal, DropGpu, ApplyGpu(gpu.value.tier), d);
      }
    }
  }

  /** Resume without a snapshot settles every rail it manages, from any starting point. */
  lemma ReassertAllSettles(s: ProfileState, limits: PowerLimits, config: RuntimeConfig, d: Dirty)
    requires !s.Locked() && s.lastDc.None?
    ensures var o := ReduceResume(s, limits, config);
            Settle(o.state, o.effects, d) == Dirty(false, false, false, d.curve && s.curve.None?, d.gpu && s.gpu.None?)
  {
    var o := ReduceResume(s, limits, config);
    var core := [ApplyProfile(s.profile), ApplyEnvelope(s.target), ApplyCharge(s.charge)];
    assert o.effects == core + ReassertCurve(s) + ResumeGpuEffects(s.gpu);
    SettleAppend(o.state, core + ReassertCurve(s), ResumeGpuEffects(s.gpu), d);
    SettleAppend(o.state, core, ReassertCurve(s), d);
    SettleTriple(o.state, ApplyProfile(s.profile), ApplyEnvelope(s.target), ApplyCharge(s.charge), d);
    var d1 := Settle(o.state, core, d);
    SettleReassert(s, o.state, d1);
    SettleResumeGpu(s.gpu, o.state, Settle(o.state, ReassertCurve(s), d1));
  }

  lemma ResumeSettles(s: ProfileState, limits: PowerLimits, config: RuntimeConfig)
    ensures var o := ReduceResume(s, limits, config);
            Settle(o.state, o.effects, Changed(s, o.state)) == CLEAN
  {
    var o := ReduceResume(s, limits, config);
    var d := Changed(s, o.state);
    if s.Locked() {
      var f := ForceAcMax(s, limits, config);
      SettleAppend(o.state, f.effects, [ApplyCharge(s.charge), PersistState], d);
      ForceAcMaxSettles(s, limits, config, o.state, d);
      SettlePair(o.state, ApplyCharge(s.charge), PersistState, Settle(o.state, f.effects, d));
    } else if s.lastDc.Some? {
      var r := RestoreDc(s, s.lastDc.value);
      SettleAppend(o.state, r.effects, [ApplyCharge(s.charge)], d);
      RestoreDcSettles(s, s.lastDc.value, o.state);
      SettleSingle(o.state, ApplyCharge(s.charge), CLEAN);
    } else {
      ReassertAllSettles(s, limits, config, d);
    }
  }

  lemma PlugSettles(s: ProfileState, limits: PowerLimits, config: RuntimeConfig)
    ensures var o := ReducePlug(s, limits, config);
            Settle(o.state, o.effects, Changed(s, o.state)) == CLEAN
  {
    if s.acMaxPerformance {
      var o := ReducePlug(s, limits, config);
      ForcedThenSaved(s, limits, config, o.state);
    }
  }

  lemma ForcedThenSaved(s: ProfileState, limits: PowerLimits, config: RuntimeConfig, goal: ProfileState)
    requires Changed(ForceAcMax(s, limits, config).state, goal) == CLEAN
    ensures Settle(goal, ForceAcMax(s, limits, config).effects + [PersistState], Changed(s, goal)) == CLEAN
  {
    var f, d := ForceAcMax(s, limits, config), Changed(s, goal);
    SettleAppend(goal, f.effects, [PersistState], d);
    ForceAcMaxSettles(s, limits, config, goal, d);
    SettleSingle(goal, PersistState, Settle(goal, f.effects, d));
  }

  lemma SetAcMaxSettles(s: ProfileState, enabled: bool, limits: PowerLimits, config: RuntimeConfig)
    ensures var o := ReduceSetAcMax(s, enabled, limits, config);
            Settle(o.state, o.effects, Changed(s, o.state)) == CLEAN
  {
    var o := ReduceSetAcMax(s, enabled, limits, config);
    if s.acMaxPerformance != enabled && s.acConnected {
      if enabled {
        ForcedThenSaved(s, limits, config, o.state);
      } else if s.lastDc.Some? {
        RestoreDcSettles(s, s.lastDc.value, o.state);
      } else {
        SettleSingle(o.state, PersistState, CLEAN);
      }
    } else {
      SettleSingle(o.state, PersistState, CLEAN);
    }
  }

  // ---- Every transition pays for the rails it moves ---------------------

  /** The central accounting fact: whatever a transition changes, its effect list settles, in an order
      that survives every profile write on the way. */
  lemma ReduceSettles(s: ProfileState, t: Transition, limits: PowerLimits, config: RuntimeConfig)
    requires !t.IsSync()
    requires Reduce(s, t, limits, config).Ok?
    ensures var o := Reduce(s, t, limits, config).value;
            Settle(o.state, o.effects, Changed(s, o.state)) == CLEAN
  {
    var o := Reduce(s, t, limits, config).value;
    if s.Locked() && t.IsLockedWrite() {
    } else {
      match t
      case SetPreset(preset) => SetPresetSettles(s, preset, limits, config);
      case SetSpl(watts) =>
        ApplyPowerTargetSettles(s, DeriveBoosted(FromWatts(watts).value, limits, config), limits, config);
      case SetEnvelope(target) => ApplyPowerTargetSettles(s, target, limits, config);
      case SetProfile(profile) => SetProfileSettles(s, profile);
      case AcPowerChanged(plugged) =>
        if s.acConnected != plugged {
          if plugged {
            PlugSettles(s, limits, config);
          } else {
            UnplugSettles(s, limits, config);
          }
        }
      case SystemResumed => ResumeSettles(s, limits, config);
      case SetAcMaxPerformance(enabled) => SetAcMaxSettles(s, enabled, limits, config);
      case RestoreDefaults => RestoreDefaultsSettles(s, limits, config);
      case SetCoolingLevel(level) => SetCurveSettles(s, PresetCurve(level));
      case SetCustomFanCurve(cpu, gpu) => SetCurveSettles(s, CustomCurve(cpu, gpu));
      case EnableGpuAutoFollow => GpuFollowSettles(s, limits, config);
      case ResetGpuClocks => ResetGpuSettles(s);
      case ChargeThresholdChanged(threshold) => ChargeSettles(s, threshold);
      case EnableFanAuto => FanAutoSettles(s, limits, config);
      case ResetFanCurve => ResetCurveSettles(s);
      case ConfigReload(_) =>
      case Shutdown => SettleSingle(s, PersistState, CLEAN);
    }
  }

  lemma ChargeSettles(s: ProfileState, threshold: U8)
    ensures var o := ReduceCharge(s, threshold);
            Settle(o.state, o.effects, Changed(s, o.state)) == CLEAN
  {
    var o := ReduceCharge(s, threshold);
    SettlePair(o.state, ApplyCharge(threshold), PersistState, Changed(s, o.state));
  }

  lemma FanAutoSettles(s: ProfileState, limits: PowerLimits, config: RuntimeConfig)
    ensures var o := ReduceEnableFanAuto(s, limits, config);
            Settle(o.state, o.effects, Changed(s, o.state)) == CLEAN
  {
    var o := ReduceEnableFanAuto(s, limits, config);
    var selection := PresetCurve(InferTier(s.target, limits, config.thresholds));
    SettlePair(o.state, ApplyCurve(selection), PersistState, Changed(s, o.state));
  }

  lemma ResetGpuSettles(s: ProfileState)
    ensures var o := ReduceResetGpu(s);
            Settle(o.state, o.effects, Changed(s, o.state)) == CLEAN
  {
    var o := ReduceResetGpu(s);
    SettlePair(o.state, DropGpu, PersistState, Changed(s, o.state));
  }

  lemma SetCurveSettles(s: ProfileState, selection: FanSelection)
    ensures var o := ReduceSetCurve(s, selection);
            Settle(o.state, o.effects, Changed(s, o.state)) == CLEAN
  {
    var o := ReduceSetCurve(s, selection);
    SettlePair(o.state, ApplyCurve(selection), PersistState, Changed(s, o.state));
  }

  lemma ResetCurveSettles(s: ProfileState)
    ensures var o := ReduceResetCurve(s);
            Settle(o.state, o.effects, Changed(s, o.state)) == CLEAN
  {
    var o := ReduceResetCurve(s);
    SettlePair(o.state, DropCurve, PersistState, Changed(s, o.state));
  }

  lemma GpuFollowSettles(s: ProfileState, limits: PowerLimits, config: RuntimeConfig)
    ensures var o := ReduceEnableGpuFollow(s, limits, config);
            Settle(o.state, o.effects, Changed(s, o.state)) == CLEAN
  {
    var o := ReduceEnableGpuFollow(s, limits, config);
    var tier := InferTier(s.target, limits, config.thresholds);
    SettlePair(o.state, ApplyGpu(tier), PersistState, Changed(s, o.state));
  }

  lemma SetPresetSettles(s: ProfileState, preset: TdpPreset, limits: PowerLimits, config: RuntimeConfig)
    requires ReduceSetPreset(s, preset, limits, config).Ok?
    ensures var o := ReduceSetPreset(s, preset, limits, config).value;
            Settle(o.state, o.effects, Changed(s, o.state)) == CLEAN
  {
    var watts := PresetWatts(preset, limits, config);
    ApplyPowerTargetSettles(s, DeriveBoosted(FromWatts(watts).value, limits, config), limits, config);
  }

  lemma UnplugSettles(s: ProfileState, limits: PowerLimits, config: RuntimeConfig)
    requires ReduceUnplug(s, limits, config).Ok?
    ensures var o := ReduceUnplug(s, limits, config).value;
            Settle(o.state, o.effects, Changed(s, o.state)) == CLEAN
  {
    var o := ReduceUnplug(s, limits, config).value;
    if s.lastDc.Some? {
      RestoreDcSettles(s, s.lastDc.value, o.state);
    } else if s.acMaxPerformance {
      var view := s.(acConnected := false, fanFollows := true);
      var inner := ReduceSetPreset(view, TdpPreset.Balanced, limits, config).value;
      SetPresetSettles(view, TdpPreset.Balanced, limits, config);
      assert Changed(view, inner.state) == Changed(s, o.state) && Changed(inner.state, o.state) == CLEAN;
      SettleRetarget(inner.state, o.state, inner.effects, Changed(s, o.state), Changed(s, o.state));
    }
  }

  lemma RestoreDefaultsSettles(s: ProfileState, limits: PowerLimits, config: RuntimeConfig)
    requires !s.Locked()
    requires ReduceRestoreDefaults(s, limits, config).Ok?
    ensures var o := ReduceRestoreDefaults(s, limits, config).value;
            Settle(o.state, o.effects, Changed(s, o.state)) == CLEAN
  {
    var a := ReduceSetPreset(s, TdpPreset.Balanced, limits, config).value;
    var b := ReduceSetProfile(a.state, Performance);
    var c := ReduceCharge(b.state, DEFAULT_CHARGE_THRESHOLD);
    var d := ReduceEnableFanAuto(c.state, limits, config);
    var e := ReduceResetGpu(d.state);
    SetPresetSettles(s, TdpPreset.Balanced, limits, config);
    SetProfileSettles(a.state, Performance);
    SettleCompose(s, a.state, b.state, a.effects, b.effects);
    ChargeSettles(b.state, DEFAULT_CHARGE_THRESHOLD);
    SettleCompose(s, b.state, c.state, a.effects + b.effects, c.effects);
    FanAutoSettles(c.state, limits, config);
    SettleCompose(s, c.state, d.state, a.effects + b.effects + c.effects, d.effects);
    ResetGpuSettles(d.state);
    var before := a.effects + b.effects + c.effects + d.effects;
    SettleCompose(s, d.state, e.state, before, e.effects);
    SettleCollapsed(e.state, before + e.effects, Changed(s, e.state));
  }

  // ---- Runs ------------------------------------------------------------

  predicate CoherentWorld(w: World) {
    Coherent(w.state, w.hw, w.caps, Ranges(w))
  }

  /** Dispatching a list that settles what `before` and its output disagree on restores agreement. */
  lemma DispatchSettled(w: World, ranges: TierRanges, out: Output, env: Env, d: Dirty)
    requires AllLand(env)
    requires AgreesOff(d, Publish(out.state), w.hw, w.caps, ranges, true)
    ensures var r := HandleAll(w.(state := Publish(out.state)), ranges, out.effects, env, 0);
            && r == w.(state := Publish(out.state), hw := r.hw, disk := r.disk)
            && r.hw.gpuBounds == w.hw.gpuBounds
            && AgreesOff(Settle(out.state, out.effects, d), r.state, r.hw, w.caps, ranges, true)
  {
    var goal := Publish(out.state);
    SettleRetarget(out.state, goal, out.effects, d, d);
    SettleSound(w.(state := goal), ranges, goal, out.effects, env, 0, d);
    HandleAllFrame(w.(state := goal), ranges, out.effects, env, 0);
  }

  /** Processing one transition with every write landing. */
  lemma ProcessKeepsCoherence(w: World, t: Transition, env: Env)
    requires !t.IsSync() && !t.ConfigReload?
    requires AllLand(env)
    requires CoherentWorld(w)
    ensures var r := Process(w, t, env);
            && CoherentWorld(r)
            && r.queue == w.queue && r.caps == w.caps && r.config == w.config
  {
    var base, limits := Refreshed(w, t, env), RefreshedLimits(w, t, env);
    var result := Reduce(base, t, limits, w.config);
    ProcessUnfolds(w, t, env, result);
    if result.Ok? {
      ReduceSettles(base, t, limits, w.config);
      DispatchSettled(w.(limits := limits), Ranges(w), result.value, env, Changed(base, result.value.state));
    }
  }

  /** A config reload rewrites nothing, so it keeps coherence exactly when the new fractions resolve the active tier
      alike. */
  lemma ReloadCoherence(w: World, config: RuntimeConfig, env: Env)
    requires CoherentWorld(w)
    ensures var r := Process(w, ConfigReload(config), env);
            CoherentWorld(r) <==>
            (w.caps.gpu && w.state.gpu.Some? && w.state.gpu.value.PresetClock? ==>
               ResolveTiers(w.hw.gpuBounds, config.gpuFractions).Of(w.state.gpu.value.tier)
               == Ranges(w).Of(w.state.gpu.value.tier))
  {
  }

  predicate Benign(t: Transition, fractions: GpuFractions) {
    !t.IsSync() && (t.ConfigReload? ==> t.config.gpuFractions == fractions)
  }

  ghost predicate BenignEvent(e: Event, fractions: GpuFractions) {
    match e
    case Submit(t) => Benign(t, fractions)
    case Iterate(env) => AllLand(env)
    case Disturb(_) => false
  }

  /** Over every run whose writes land, the hardware agrees with the published state after each iteration. */
  lemma {:induction false} CoherentRun(w: World, events: seq<Event>)
    requires CoherentWorld(w)
    requires forall t :: t in w.queue ==> Benign(t, w.config.gpuFractions)
    requires forall e :: e in events ==> BenignEvent(e, w.config.gpuFractions)
    ensures var r := Run(w, events);
            CoherentWorld(r) && r.config.gpuFractions == w.config.gpuFractions
    decreases |events|
  {
    if events != [] {
      assert BenignEvent(events[0], w.config.gpuFractions);
      if events[0].Iterate? && w.running && w.queue != [] {
        IterateKeepsCoherence(w, events[0].env);
      }
      CoherentRun(Next(w, events[0]), events[1..]);
    }
  }

  lemma IterateKeepsCoherence(w: World, env: Env)
    requires w.running && w.queue != []
    requires AllLand(env)
    requires Benign(w.queue[0], w.config.gpuFractions)
    requires CoherentWorld(w)
    ensures var r := Tick(w, env);
            && CoherentWorld(r)
            && r.queue == w.queue[1..]
            && r.config.gpuFractions == w.config.gpuFractions
  {
    var w1 := w.(queue := w.queue[1..]);
    if w.queue[0].ConfigReload? {
      ReloadCoherence(w1, w.queue[0].config, env);
    } else {
      ProcessKeepsCoherence(w1, w.queue[0], env);
    }
  }

  // ---- Boot and resume from arbitrary hardware --------------------------

  const ALL_DIRTY := Dirty(true, true, true, true, true)

  /** Boot or resume under the lock, or without a snapshot, repairs arbitrary hardware on every managed
      rail; an abnormal GPU range is handed back to the firmware. */
  lemma ResumeReasserts(w: World, env: Env)
    requires AllLand(env)
    requires var s := Refreshed(w, SystemResumed, env); s.Locked() || s.lastDc.None?
    ensures var s, r := Refreshed(w, SystemResumed, env), Process(w, SystemResumed, env);
            && Holds(r.hw.regs, r.state.target) && r.hw.enforced
            && ProfileAgrees(r.state, r.hw, w.caps)
            && ChargeAgrees(r.state, r.hw, w.caps)
            && (r.state.curve.Some? ==> CurveAgrees(r.state, r.hw, w.caps))
            && (s.gpu.Some? ==> GpuAgrees(r.state, r.hw, w.caps, Ranges(w)))
            && !(r.state.gpu.Some? && r.state.gpu.value.Unmanaged?)
  {
    var s, limits := Refreshed(w, SystemResumed, env), RefreshedLimits(w, SystemResumed, env);
    var out := ReduceResume(s, limits, w.config);
    ResumeSettlesAll(s, limits, w.config);
    ProcessUnfolds(w, SystemResumed, env, Ok(out));
    hide ReduceResume, Settle, Holds, HandleAll;
    DispatchSettled(w.(limits := limits), Ranges(w), out, env, ALL_DIRTY);
  }

  lemma ResumeSettlesAll(s: ProfileState, limits: PowerLimits, config: RuntimeConfig)
    requires s.Locked() || s.lastDc.None?
    ensures var out := ReduceResume(s, limits, config);
            && Settle(out.state, out.effects, ALL_DIRTY)
                 == Dirty(false, false, false, out.state.curve.None?, s.gpu.None?)
            && !(out.state.gpu.Some? && out.state.gpu.value.Unmanaged?)
  {
    hide DeriveBoosted, InferTier;
    var out := ReduceResume(s, limits, config);
    if s.Locked() {
      var f := ForceAcMax(s, limits, config);
      SettleAppend(out.state, f.effects, [ApplyCharge(s.charge), PersistState], ALL_DIRTY);
      ForceAcMaxSettles(s, limits, config, out.state, ALL_DIRTY);
      SettlePair(out.state, ApplyCharge(s.charge), PersistState, Settle(out.state, f.effects, ALL_DIRTY));
    } else {
      ReassertAllSettles(s, limits, config, ALL_DIRTY);
    }
  }

  /** No effect touches the rails in `left`. */
  predicate Silent(effects: seq<Effect>, left: Dirty) {
    forall e :: e in effects ==>
      && (left.profile ==> !e.ApplyProfile?) && (left.envelope ==> !e.ApplyEnvelope? && !e.ApplyProfile?)
      && (left.curve ==> !e.ApplyCurve? && !e.DropCurve?) && (left.gpu ==> !e.ApplyGpu? && !e.DropGpu?)
  }

  /** Those rails are as they were; only a profile write may still have dropped the curve. */
  predicate LeftAlone(left: Dirty, before: Hw, after: Hw) {
    && (left.profile ==> after.profile == before.profile)
    && (left.envelope ==> after.regs == before.regs && after.enforced == before.enforced)
    && (left.curve ==> after.curve == before.curve || (!left.profile && after.curve.None?))
    && (left.gpu ==> after.gpu == before.gpu)
  }

  lemma StepLeavesAlone(w: World, ranges: TierRanges, e: Effect, o: Outcome, saved: bool, left: Dirty)
    requires Silent([e], left)
    ensures LeftAlone(left, w.hw, HandleEffect(w, ranges, e, o, saved).hw)
  {
    assert e in [e];
  }

  lemma {:induction false} SilentLeavesAlone(w: World, ranges: TierRanges, effects: seq<Effect>, env: Env, i: nat,
                                             left: Dirty)
    requires Silent(effects, left)
    ensures LeftAlone(left, w.hw, HandleAll(w, ranges, effects, env, i).hw)
    decreases |effects|
  {
    hide HandleEffect;
    if effects != [] {
      StepLeavesAlone(w, ranges, effects[0], env.outcome(i), env.saved(i), left);
      SilentLeavesAlone(HandleEffect(w, ranges, effects[0], env.outcome(i), env.saved(i)), ranges, effects[1..], env,
                        i + 1, left);
    }
  }

  /** The rails a resume with a snapshot leaves to the firmware: those on which memory and snapshot agree, unless the
      profile write makes them due. */
  function LeftToFirmware(s: ProfileState, d: DcSnapshot): Dirty {
    var still := s.profile == d.profile;
    Dirty(still, still && s.target == d.target, false, s.curve == d.curve && (still || d.curve.None?), s.gpu == d.gpu)
  }

  /** With a snapshot to restore, a resume off the lock asserts exactly the rails that differ in memory or that its
      profile write may drop, and the charge threshold; whatever the firmware left on the others stays. */
  lemma ResumeWithSnapshot(w: World, env: Env)
    requires AllLand(env)
    requires var s := Refreshed(w, SystemResumed, env); !s.Locked() && s.lastDc.Some?
    ensures var s, r := Refreshed(w, SystemResumed, env), Process(w, SystemResumed, env);
            var left := LeftToFirmware(s, s.lastDc.value);
            AgreesOff(left, r.state, r.hw, w.caps, Ranges(w), true) && LeftAlone(left, w.hw, r.hw)
  {
    var s, limits := Refreshed(w, SystemResumed, env), RefreshedLimits(w, SystemResumed, env);
    var out, left := ReduceResume(s, limits, w.config), LeftToFirmware(s, s.lastDc.value);
    ProcessUnfolds(w, SystemResumed, env, Ok(out));
    SnapshotSettles(s, limits, w.config);
    SnapshotSilent(s, limits, w.config);
    hide ReduceResume, Settle, HandleAll, Process, LeftToFirmware, AgreesOff, Silent, LeftAlone;
    DispatchSettled(w.(limits := limits), Ranges(w), out, env, ALL_DIRTY);
    SilentLeavesAlone(w.(limits := limits, state := Publish(out.state)), Ranges(w), out.effects, env, 0, left);
  }

  lemma SnapshotSettles(s: ProfileState, limits: PowerLimits, config: RuntimeConfig)
    requires !s.Locked() && s.lastDc.Some?
    ensures var out := ReduceResume(s, limits, config);
            Settle(out.state, out.effects, ALL_DIRTY) == LeftToFirmware(s, s.lastDc.value)
  {
    var out, r := ReduceResume(s, limits, config), RestoreDc(s, s.lastDc.value);
    RestoreSettlesRails(s, s.lastDc.value, out.state);
    SettleAppend(out.state, r.effects, [ApplyCharge(s.charge)], ALL_DIRTY);
    SettleSingle(out.state, ApplyCharge(s.charge), Settle(out.state, r.effects, ALL_DIRTY));
  }

  lemma SilentAppend(a: seq<Effect>, b: seq<Effect>, left: Dirty)
    ensures Silent(a + b, left) <==> Silent(a, left) && Silent(b, left)
  {
  }

  lemma SnapshotSilent(s: ProfileState, limits: PowerLimits, config: RuntimeConfig)
    requires !s.Locked() && s.lastDc.Some?
    ensures Silent(ReduceResume(s, limits, config).effects, LeftToFirmware(s, s.lastDc.value))
  {
    var d, left := s.lastDc.value, LeftToFirmware(s, s.lastDc.value);
    var moved := s.profile != d.profile;
    var p, e := When(moved, ApplyProfile(d.profile)), When(moved || s.target != d.target, ApplyEnvelope(d.target));
    var c, g := CurveEffects(s.curve, d.curve, moved), GpuEffects(s.gpu, d.gpu);
    assert Silent(p, left) && Silent(e, left) && Silent(c, left) && Silent(g, left);
    assert Silent([PersistState], left) && Silent([ApplyCharge(s.charge)], left);
    hide Silent, LeftToFirmware, CurveEffects, GpuEffects;
    SilentAppend(p + e + c + g, [PersistState], left);
    SilentAppend(p + e + c, g, left);
    SilentAppend(p + e, c, left);
    SilentAppend(p, e, left);
    SilentAppend(RestoreDc(s, d).effects, [ApplyCharge(s.charge)], left);
  }

  lemma RestoreSettlesRails(s: ProfileState, snapshot: DcSnapshot, goal: ProfileState)
    requires Changed(RestoreDc(s, snapshot).state, goal) == CLEAN
    ensures Settle(goal, RestoreDc(s, snapshot).effects, ALL_DIRTY) == LeftToFirmware(s, snapshot).(charge := true)
  {
    var moved := s.profile != snapshot.profile;
    var rewrite := moved || s.target != snapshot.target;
    var p, e := When(moved, ApplyProfile(snapshot.profile)), When(rewrite, ApplyEnvelope(snapshot.target));
    var c, g := CurveEffects(s.curve, snapshot.curve, moved), GpuEffects(s.gpu, snapshot.gpu);
    SettleAppend(goal, p + e + c + g, [PersistState], ALL_DIRTY);
    SettleAppend(goal, p + e + c, g, ALL_DIRTY);
    SettleAppend(goal, p + e, c, ALL_DIRTY);
    SettleAppend(goal, p, e, ALL_DIRTY);
    SettleWhen(goal, moved, ApplyProfile(snapshot.profile), ALL_DIRTY);
    SettleWhen(goal, rewrite, ApplyEnvelope(snapshot.target), Settle(goal, p, ALL_DIRTY));
    SettleDirtyCurve(s.curve, snapshot.curve, moved, goal, Settle(goal, p + e, ALL_DIRTY));
    SettleDirtyGpu(s.gpu, snapshot.gpu, goal, Settle(goal, p + e + c, ALL_DIRTY));
    SettleSingle(goal, PersistState, Settle(goal, p + e + c + g, ALL_DIRTY));
  }

  lemma SettleDirtyCurve(current: Option<FanSelection>, saved: Option<FanSelection>, moved: bool, goal: ProfileState,
                         d: Dirty)
    requires goal.curve == saved && d.curve
    ensures Settle(goal, CurveEffects(current, saved, moved), d)
              == d.(curve := current == saved && !(moved && saved.Some?))
  {
  }

  lemma SettleDirtyGpu(current: Option<GpuSelection>, saved: Option<GpuSelection>, goal: ProfileState, d: Dirty)
    requires goal.gpu == RestoredGpu(current, saved) && d.gpu
    ensures Settle(goal, GpuEffects(current, saved), d) == d.(gpu := current == saved)
  {
  }
}
