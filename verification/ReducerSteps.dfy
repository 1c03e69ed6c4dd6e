/** The reducer as the daemon runs it: a working copy of the state, a growing list of effects, early returns
    and recursion into simpler transitions. Every step is proved to compute the specification in `Reducer`. */
module ReducerSteps {
  import opened Units
  import opened Domain
  import opened Envelope
  import opened Inference
  import opened Reducer

  // ---- Building blocks ---------------------------------------------------

  method SetTarget(current: ProfileState, target: PowerTarget, limits: PowerLimits, config: RuntimeConfig)
    returns (o: Output)
    ensures o == ApplyPowerTarget(current, target, limits, config)
  {
    hide InferTier;
    var state, effects := current, [];
    if state.target != target {
      state := state.(target := target);
      effects := effects + [ApplyEnvelope(target)];
      if state.fanFollows || state.gpuFollows {
        var tier := InferTier(target, limits, config.thresholds);
        if state.fanFollows {
          var selection := PresetCurve(tier);
          if state.curve != Some(selection) {
            state := state.(curve := Some(selection));
            effects := effects + [ApplyCurve(selection)];
          }
        }
        if state.gpuFollows {
          var selection := PresetClock(tier);
          if state.gpu != Some(selection) {
            state := state.(gpu := Some(selection));
            effects := effects + [ApplyGpu(tier)];
          }
        }
      }
      effects := effects + [PersistState];
    }
    o := Output(state, effects);
  }

  method ReassertAfterProfile(state: ProfileState, effects: seq<Effect>) returns (longer: seq<Effect>)
    ensures longer == effects + [ApplyEnvelope(state.target)] + ReassertCurve(state)
  {
    longer := effects + [ApplyEnvelope(state.target)];
    if state.curve.Some? {
      longer := longer + [ApplyCurve(state.curve.value)];
    }
  }

  method ForceMax(base: ProfileState, limits: PowerLimits, config: RuntimeConfig) returns (o: Output)
    ensures o == ForceAcMax(base, limits, config)
  {
    var target := DeriveBoosted(limits.splMax, limits, config);
    var curve := PresetCurve(Aggressive);
    var state := base.(target := target, profile := Performance, curve := Some(curve), fanFollows := false);
    var effects := [ApplyProfile(Performance), ApplyEnvelope(target), ApplyCurve(curve)];
    if base.gpu.Some? {
      state := state.(gpu := Some(PresetClock(Aggressive)), gpuFollows := false);
      effects := effects + [ApplyGpu(Aggressive)];
    }
    o := Output(state, effects);
  }

  method RestoreCurve(current: ProfileState, saved: Option<FanSelection>, profileChanged: bool, effects: seq<Effect>)
    returns (state: ProfileState, longer: seq<Effect>)
    ensures state == current.(curve := saved)
    ensures longer == effects + CurveEffects(current.curve, saved, profileChanged)
  {
    state, longer := current, effects;
    if state.curve != saved {
      state := state.(curve := saved);
      match saved {
        case Some(selection) => longer := longer + [ApplyCurve(selection)];
        case None => longer := longer + [DropCurve];
      }
    } else if profileChanged && saved.Some? {
      longer := longer + [ApplyCurve(saved.value)];
    }
  }

  method RestoreGpu(current: ProfileState, saved: Option<GpuSelection>, effects: seq<Effect>)
    returns (state: ProfileState, longer: seq<Effect>)
    ensures state == current.(gpu := RestoredGpu(current.gpu, saved))
    ensures longer == effects + GpuEffects(current.gpu, saved)
  {
    state, longer := current, effects;
    if state.gpu != saved {
      match saved {
        case Some(PresetClock(tier)) =>
          state := state.(gpu := saved);
          longer := longer + [ApplyGpu(tier)];
        case _ =>
          state := state.(gpu := None);
          longer := longer + [DropGpu];
      }
    }
  }

  method RestoreBattery(current: ProfileState, snapshot: DcSnapshot) returns (o: Output)
    ensures o == RestoreDc(current, snapshot)
  {
    hide CurveEffects, GpuEffects, RestoredGpu;
    var state, effects: seq<Effect> := current.(lastDc := None), [];
    var profileChanged := state.profile != snapshot.profile;
    if profileChanged {
      state := state.(profile := snapshot.profile);
      effects := [ApplyProfile(snapshot.profile)];
    }
    if profileChanged || state.target != snapshot.target {
      state := state.(target := snapshot.target);
      effects := effects + [ApplyEnvelope(snapshot.target)];
    }
    assert effects == When(profileChanged, ApplyProfile(snapshot.profile))
                    + When(profileChanged || current.target != snapshot.target, ApplyEnvelope(snapshot.target));
    state, effects := RestoreCurve(state, snapshot.curve, profileChanged, effects);
    state := state.(fanFollows := snapshot.fanFollows);
    state, effects := RestoreGpu(state, snapshot.gpu, effects);
    state := state.(gpuFollows := snapshot.gpuFollows);
    o := Output(state, effects + [PersistState]);
  }

  /** Drop every save from a list, remembering whether there was one. */
  method RetainWrites(effects: seq<Effect>) returns (kept: seq<Effect>, anySave: bool)
    ensures kept == WithoutPersist(effects)
    ensures anySave <==> PersistState in effects
  {
    kept, anySave := [], false;
    for i := 0 to |effects|
      invariant kept + WithoutPersist(effects[i..]) == WithoutPersist(effects)
      invariant anySave <==> PersistState in effects[..i]
    {
      assert effects[..i + 1] == effects[..i] + [effects[i]];
      assert effects[i..][0] == effects[i] && effects[i..][1..] == effects[i + 1..];
      if effects[i] == PersistState {
        anySave := true;
      } else {
        kept := kept + [effects[i]];
      }
    }
  }

  // ---- Composite transitions ---------------------------------------------

  /** How deep a transition may still recurse. */
  function Rank(t: Transition): nat {
    match t
    case RestoreDefaults => 3
    case AcPowerChanged(_) => 2
    case SetPreset(_) => 1
    case _ => 0
  }

  method PowerEdge(s: ProfileState, plugged: bool, limits: PowerLimits, config: RuntimeConfig)
    returns (r: Result<Output>)
    ensures r == Reducer.Reduce(s, AcPowerChanged(plugged), limits, config)
    decreases 2, 0
  {
    if s.acConnected == plugged {
      return Ok(Output(s, []));
    }
    var o := Output(s, []);
    if plugged {
      if s.acMaxPerformance {
        o := ForceMax(s, limits, config);
        o := Output(o.state.(lastDc := Some(s.Snapshot())), o.effects + [PersistState]);
      }
    } else if s.lastDc.Some? {
      o := RestoreBattery(s, s.lastDc.value);
    } else if s.acMaxPerformance {
      var dcView := s.(acConnected := false, fanFollows := true);
      o :- Reduce(dcView, SetPreset(TdpPreset.Balanced), limits, config);
    }
    r := Ok(Output(o.state.(acConnected := plugged), o.effects));
  }

  method Resume(s: ProfileState, limits: PowerLimits, config: RuntimeConfig) returns (o: Output)
    ensures o == ReduceResume(s, limits, config)
  {
    if s.Locked() {
      o := ForceMax(s, limits, config);
      o := o.(effects := o.effects + [ApplyCharge(s.charge)] + [PersistState]);
      assert o.effects == ForceAcMax(s, limits, config).effects + [ApplyCharge(s.charge), PersistState];
      return;
    }
    if s.lastDc.Some? {
      o := RestoreBattery(s, s.lastDc.value);
      o := o.(effects := o.effects + [ApplyCharge(s.charge)]);
      return;
    }
    var state := s;
    var effects := [ApplyProfile(s.profile), ApplyEnvelope(s.target), ApplyCharge(s.charge)];
    if s.curve.Some? {
      effects := effects + [ApplyCurve(s.curve.value)];
    }
    if s.gpu.Some? {
      effects := effects + [DropGpu];
      match s.gpu.value {
        case PresetClock(tier) => effects := effects + [ApplyGpu(tier)];
        case Unmanaged(_) => state := state.(gpu := None);
      }
    }
    o := Output(state, effects);
  }

  method ToggleLock(s: ProfileState, enabled: bool, limits: PowerLimits, config: RuntimeConfig) returns (o: Output)
    ensures o == ReduceSetAcMax(s, enabled, limits, config)
  {
    if s.acMaxPerformance == enabled {
      return Output(s, []);
    }
    if !s.acConnected {
      return Output(s.(acMaxPerformance := enabled), [PersistState]);
    }
    if enabled {
      o := ForceMax(s, limits, config);
      o := o.(state := o.state.(acMaxPerformance := true));
      if o.state.lastDc.None? {
        o := o.(state := o.state.(lastDc := Some(s.Snapshot())));
      }
      o := o.(effects := o.effects + [PersistState]);
    } else {
      o := Output(s, [PersistState]);
      if s.lastDc.Some? {
        o := RestoreBattery(s, s.lastDc.value);
      }
      o := o.(state := o.state.(acMaxPerformance := false));
    }
  }

  /** Five transitions chained, each reduced on the state the one before left. */
  method Defaults(s: ProfileState, limits: PowerLimits, config: RuntimeConfig) returns (r: Result<Output>)
    requires !s.Locked()
    ensures r == ReduceRestoreDefaults(s, limits, config)
    decreases 2, 1
  {
    hide InferTier, DeriveBoosted, Validate, PresetWatts, WithoutPersist, ReduceSetPreset, CollapsePersist;
    var step := Reduce(s, SetPreset(TdpPreset.Balanced), limits, config);
    if step.Err? {
      return step;
    }
    PresetKeepsLock(s, limits, config);
    var cur, effects := step.value.state, step.value.effects;
    step := Reduce(cur, SetProfile(Performance), limits, config);
    if step.Err? {
      return step;
    }
    cur, effects := step.value.state, effects + step.value.effects;
    step := Reduce(cur, ChargeThresholdChanged(DEFAULT_CHARGE_THRESHOLD), limits, config);
    if step.Err? {
      return step;
    }
    cur, effects := step.value.state, effects + step.value.effects;
    step := Reduce(cur, EnableFanAuto, limits, config);
    if step.Err? {
      return step;
    }
    cur, effects := step.value.state, effects + step.value.effects;
    if cur.gpu.Some? {
      step := Reduce(cur, ResetGpuClocks, limits, config);
      if step.Err? {
        return step;
      }
      cur, effects := step.value.state, effects + step.value.effects;
    } else {
      assert effects == effects + ReduceResetGpu(cur).effects && cur == ReduceResetGpu(cur).state;
    }
    var kept, anySave := RetainWrites(effects);
    if anySave {
      kept := kept + [PersistState];
    }
    Collapsed(effects, kept);
    r := Ok(Output(cur, kept));
  }

  lemma Collapsed(effects: seq<Effect>, kept: seq<Effect>)
    requires kept == WithoutPersist(effects) + (if PersistState in effects then [PersistState] else [])
    ensures kept == CollapsePersist(effects)
  {
  }

  lemma PresetKeepsLock(s: ProfileState, limits: PowerLimits, config: RuntimeConfig)
    ensures var r := ReduceSetPreset(s, TdpPreset.Balanced, limits, config);
            r.Ok? ==> r.value.state.Locked() == s.Locked()
  {
  }

  // ---- The reducer ---------------------------------------------------------

  /** The whole `reduce`: the AC lock gate, then one arm per transition. */
  method Reduce(s: ProfileState, t: Transition, limits: PowerLimits, config: RuntimeConfig) returns (r: Result<Output>)
    ensures r == Reducer.Reduce(s, t, limits, config)
    decreases Rank(t)
  {
    hide InferTier, DeriveBoosted, Validate, PresetWatts, ReduceRestoreDefaults, ReduceResume, ReduceSetAcMax;
    var state, effects: seq<Effect> := s, [];
    if s.Locked() && t.IsLockedWrite() {
      return Ok(Output(state, effects));
    }
    match t {
    case SetPreset(preset) =>
      r := Reduce(s, SetSpl(PresetWatts(preset, limits, config)), limits, config);
      return;
    case SetSpl(watts) =>
      var spl :- FromWatts(watts);
      if spl < limits.splMin || spl > limits.splMax {
        return Err(InvariantViolation);
      }
      var target := DeriveBoosted(spl, limits, config);
      var _ :- Validate(target, limits);
      var o := SetTarget(s, target, limits, config);
      return Ok(o);
    case SetEnvelope(target) =>
      var _ :- Validate(target, limits);
      var o := SetTarget(s, target, limits, config);
      return Ok(o);
    case SetProfile(profile) =>
      if state.profile != profile {
        state := state.(profile := profile);
        effects := ReassertAfterProfile(state, [ApplyProfile(profile)]);
        effects := effects + [PersistState];
        assert effects == [ApplyProfile(profile), ApplyEnvelope(s.target)] + ReassertCurve(s) + [PersistState];
      }
    case SetCoolingLevel(level) =>
      state := state.(fanFollows := false, curve := Some(PresetCurve(level)));
      effects := [ApplyCurve(PresetCurve(level)), PersistState];
    case SetCustomFanCurve(cpu, gpu) =>
      state := state.(fanFollows := false, curve := Some(CustomCurve(cpu, gpu)));
      effects := [ApplyCurve(CustomCurve(cpu, gpu)), PersistState];
    case EnableGpuAutoFollow =>
      if !state.gpuFollows {
        var tier := InferTier(state.target, limits, config.thresholds);
        state := state.(gpuFollows := true, gpu := Some(PresetClock(tier)));
        effects := [ApplyGpu(tier), PersistState];
      }
    case ResetGpuClocks =>
      if state.gpu.Some? {
        state := state.(gpu := None, gpuFollows := false);
        effects := [DropGpu, PersistState];
      }
    case ChargeThresholdChanged(threshold) =>
      if state.charge != threshold {
        state := state.(charge := threshold);
        effects := [ApplyCharge(threshold), PersistState];
      }
    case SyncPowerTarget(found) => state := state.(target := found);
    case SyncPlatformProfile(found) => state := state.(profile := found);
    case SyncChargeThreshold(found) => state := state.(charge := found);
    case SyncFanCurve(found) => state := state.(curve := found);
    case SyncGpuClockRange(found) =>
      state := state.(gpu := if found.Some? then Some(Unmanaged(found.value)) else None);
    case AcPowerChanged(plugged) =>
      r := PowerEdge(s, plugged, limits, config);
      return;
    case SystemResumed =>
      var o := Resume(s, limits, config);
      return Ok(o);
    case ResetFanCurve =>
      if state.curve.Some? || state.fanFollows {
        state := state.(curve := None, fanFollows := false);
        effects := [DropCurve, PersistState];
      }
    case RestoreDefaults =>
      r := Defaults(s, limits, config);
      return;
    case EnableFanAuto =>
      if !state.fanFollows {
        var selection := PresetCurve(InferTier(state.target, limits, config.thresholds));
        state := state.(fanFollows := true, curve := Some(selection));
        effects := [ApplyCurve(selection), PersistState];
      }
    case SetAcMaxPerformance(enabled) =>
      var o := ToggleLock(s, enabled, limits, config);
      return Ok(o);
    case ConfigReload(_) =>
    case Shutdown => effects := [PersistState];
    }
    r := Ok(Output(state, effects));
  }
}
