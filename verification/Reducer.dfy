/** The state-transition function: the state a transition leads to and the ordered effects it owes the hardware. */
module Reducer {
  import opened Units
  import opened Domain
  import opened Envelope
  import opened Inference

  datatype Output = Output(state: ProfileState, effects: seq<Effect>)

  function When(condition: bool, e: Effect): seq<Effect> {
    if condition then [e] else []
  }

  // ---- Shared building blocks ------------------------------------------

  /** Adopt a new envelope and let whichever levers follow the TDP move with it. */
  function ApplyPowerTarget(s: ProfileState, target: PowerTarget, limits: PowerLimits, config: RuntimeConfig): Output {
    var moved := s.target != target;
    var tier := InferTier(target, limits, config.thresholds);
    var curve := if moved && s.fanFollows then Some(PresetCurve(tier)) else s.curve;
    var gpu := if moved && s.gpuFollows then Some(PresetClock(tier)) else s.gpu;
    Output(
      s.(target := target, curve := curve, gpu := gpu),
      When(moved, ApplyEnvelope(target))
      + When(s.curve != curve, ApplyCurve(PresetCurve(tier)))
      + When(s.gpu != gpu, ApplyGpu(tier))
      + When(moved, PersistState))
  }

  /** The curve re-assertion owed after a profile write; nothing for an unmanaged curve. */
  function ReassertCurve(s: ProfileState): seq<Effect> {
    if s.curve.Some? then [ApplyCurve(s.curve.value)] else []
  }

  /** Everything at its ceiling: profile first, then the envelope and curve it may drop. */
  function ForceAcMax(s: ProfileState, limits: PowerLimits, config: RuntimeConfig): Output {
    var target := DeriveBoosted(limits.splMax, limits, config);
    var curve := PresetCurve(Aggressive);
    var managed := s.gpu.Some?;
    Output(
      s.(target := target, profile := Performance, curve := Some(curve), fanFollows := false,
         gpu := if managed then Some(PresetClock(Aggressive)) else None,
         gpuFollows := s.gpuFollows && !managed),
      [ApplyProfile(Performance), ApplyEnvelope(target), ApplyCurve(curve)]
      + When(managed, ApplyGpu(Aggressive)))
  }

  /** A snapshot taken while the GPU was unmanaged is never resurrected. */
  function RestoredGpu(current: Option<GpuSelection>, saved: Option<GpuSelection>): Option<GpuSelection> {
    if current == saved then current
    else if saved.Some? && saved.value.PresetClock? then saved
    else None
  }

  function CurveEffects(current: Option<FanSelection>, saved: Option<FanSelection>, profileChanged: bool): seq<Effect> {
    if current != saved then
      if saved.Some? then [ApplyCurve(saved.value)] else [DropCurve]
    else if profileChanged && saved.Some? then [ApplyCurve(saved.value)]
    else []
  }

  function GpuEffects(current: Option<GpuSelection>, saved: Option<GpuSelection>): seq<Effect> {
    if current == saved then []
    else if saved.Some? && saved.value.PresetClock? then [ApplyGpu(saved.value.tier)]
    else [DropGpu]
  }

  /** Back to the battery snapshot, writing only the rails that differ or that the profile write may drop. */
  function RestoreDc(s: ProfileState, snapshot: DcSnapshot): Output {
    var profileChanged := s.profile != snapshot.profile;
    Output(
      s.(lastDc := None, target := snapshot.target, profile := snapshot.profile, curve := snapshot.curve,
         fanFollows := snapshot.fanFollows, gpu := RestoredGpu(s.gpu, snapshot.gpu), gpuFollows := snapshot.gpuFollows),
      When(profileChanged, ApplyProfile(snapshot.profile))
      + When(profileChanged || s.target != snapshot.target, ApplyEnvelope(snapshot.target))
      + CurveEffects(s.curve, snapshot.curve, profileChanged)
      + GpuEffects(s.gpu, snapshot.gpu)
      + [PersistState])
  }

  // ---- Per-transition outputs ------------------------------------------

  function ReduceSetSpl(s: ProfileState, watts: U32, limits: PowerLimits, config: RuntimeConfig): Result<Output> {
    var spl :- FromWatts(watts);
    if spl < limits.splMin || spl > limits.splMax then Err(InvariantViolation)
    else
      var target := DeriveBoosted(spl, limits, config);
      var _ :- Validate(target, limits);
      Ok(ApplyPowerTarget(s, target, limits, config))
  }

  function ReduceSetPreset(s: ProfileState, preset: TdpPreset, limits: PowerLimits,
                           config: RuntimeConfig): Result<Output> {
    ReduceSetSpl(s, PresetWatts(preset, limits, config), limits, config)
  }

  function ReduceSetEnvelope(s: ProfileState, target: PowerTarget, limits: PowerLimits,
                             config: RuntimeConfig): Result<Output> {
    var _ :- Validate(target, limits);
    Ok(ApplyPowerTarget(s, target, limits, config))
  }

  function ReduceSetProfile(s: ProfileState, profile: ProfileName): Output {
    Output(s.(profile := profile),
           if s.profile == profile then []
           else [ApplyProfile(profile), ApplyEnvelope(s.target)] + ReassertCurve(s) + [PersistState])
  }

  function ReduceSetCurve(s: ProfileState, selection: FanSelection): Output {
    Output(s.(fanFollows := false, curve := Some(selection)), [ApplyCurve(selection), PersistState])
  }

  function ReduceEnableGpuFollow(s: ProfileState, limits: PowerLimits, config: RuntimeConfig): Output {
    var tier := InferTier(s.target, limits, config.thresholds);
    Output(s.(gpuFollows := true, gpu := if s.gpuFollows then s.gpu else Some(PresetClock(tier))),
           if s.gpuFollows then [] else [ApplyGpu(tier), PersistState])
  }

  function ReduceResetGpu(s: ProfileState): Output {
    Output(s.(gpu := None, gpuFollows := s.gpuFollows && s.gpu.None?),
           if s.gpu.None? then [] else [DropGpu, PersistState])
  }

  function ReduceCharge(s: ProfileState, threshold: U8): Output {
    Output(s.(charge := threshold), if s.charge == threshold then [] else [ApplyCharge(threshold), PersistState])
  }

  function ReduceEnableFanAuto(s: ProfileState, limits: PowerLimits, config: RuntimeConfig): Output {
    var selection := PresetCurve(InferTier(s.target, limits, config.thresholds));
    Output(s.(fanFollows := true, curve := if s.fanFollows then s.curve else Some(selection)),
           if s.fanFollows then [] else [ApplyCurve(selection), PersistState])
  }

  function ReduceResetCurve(s: ProfileState): Output {
    Output(s.(curve := None, fanFollows := false),
           if s.curve.None? && !s.fanFollows then [] else [DropCurve, PersistState])
  }

  /** Plug edge, already debounced. */
  function ReducePlug(s: ProfileState, limits: PowerLimits, config: RuntimeConfig): Output {
    if s.acMaxPerformance then
      var o := ForceAcMax(s, limits, config);
      Output(o.state.(lastDc := Some(s.Snapshot()), acConnected := true), o.effects + [PersistState])
    else Output(s.(acConnected := true), [])
  }

  function ReduceResume(s: ProfileState, limits: PowerLimits, config: RuntimeConfig): Output {
    if s.Locked() then
      var o := ForceAcMax(s, limits, config);
      Output(o.state, o.effects + [ApplyCharge(s.charge), PersistState])
    else if s.lastDc.Some? then
      var o := RestoreDc(s, s.lastDc.value);
      Output(o.state, o.effects + [ApplyCharge(s.charge)])
    else
      var unmanaged := s.gpu.Some? && s.gpu.value.Unmanaged?;
      Output(
        if unmanaged then s.(gpu := None) else s,
        [ApplyProfile(s.profile), ApplyEnvelope(s.target), ApplyCharge(s.charge)]
        + ReassertCurve(s)
        + (if s.gpu.None? then []
           else if unmanaged then [DropGpu]
           else [DropGpu, ApplyGpu(s.gpu.value.tier)]))
  }

  function ReduceSetAcMax(s: ProfileState, enabled: bool, limits: PowerLimits, config: RuntimeConfig): Output {
    if s.acMaxPerformance == enabled then Output(s, [])
    else if !s.acConnected then Output(s.(acMaxPerformance := enabled), [PersistState])
    else if enabled then
      var o := ForceAcMax(s, limits, config);
      Output(
        o.state.(acMaxPerformance := true, lastDc := if s.lastDc.Some? then s.lastDc else Some(s.Snapshot())),
        o.effects + [PersistState])
    else
      var o := if s.lastDc.Some? then RestoreDc(s, s.lastDc.value) else Output(s, [PersistState]);
      Output(o.state.(acMaxPerformance := false), o.effects)
  }

  function WithoutPersist(effects: seq<Effect>): (r: seq<Effect>)
    ensures PersistState !in r
    ensures forall e :: e in r ==> e in effects
  {
    if effects == [] then []
    else When(effects[0] != PersistState, effects[0]) + WithoutPersist(effects[1..])
  }

  /** At most one save, at the very end, and only if something changed. */
  function CollapsePersist(effects: seq<Effect>): seq<Effect> {
    WithoutPersist(effects) + When(PersistState in effects, PersistState)
  }

  /** Unplugging: back to the snapshot; without one a locked machine falls to quiet defaults, computed on an
      already unplugged view so that the lock does not suppress them. */
  function ReduceUnplug(s: ProfileState, limits: PowerLimits, config: RuntimeConfig): Result<Output> {
    var o :- if s.lastDc.Some? then Ok(RestoreDc(s, s.lastDc.value))
             else if s.acMaxPerformance then
               ReduceSetPreset(s.(acConnected := false, fanFollows := true), TdpPreset.Balanced, limits, config)
             else Ok(Output(s, []));
    Ok(Output(o.state.(acConnected := false), o.effects))
  }

  /** Five single-lever steps, each on the state of the one before; the order matters because a profile
      write re-asserts whatever curve is current. */
  function ReduceRestoreDefaults(s: ProfileState, limits: PowerLimits, config: RuntimeConfig): Result<Output> {
    var a :- ReduceSetPreset(s, TdpPreset.Balanced, limits, config);
    var b := ReduceSetProfile(a.state, Performance);
    var c := ReduceCharge(b.state, DEFAULT_CHARGE_THRESHOLD);
    var d := ReduceEnableFanAuto(c.state, limits, config);
    var e := ReduceResetGpu(d.state);
    Ok(Output(e.state, CollapsePersist(a.effects + b.effects + c.effects + d.effects + e.effects)))
  }

  // ---- The reducer -----------------------------------------------------

  function Reduce(s: ProfileState, t: Transition, limits: PowerLimits, config: RuntimeConfig): Result<Output> {
    if s.Locked() && t.IsLockedWrite() then Ok(Output(s, []))
    else
      match t
      case SetPreset(preset) => ReduceSetPreset(s, preset, limits, config)
      case SetSpl(watts) => ReduceSetSpl(s, watts, limits, config)
      case SetEnvelope(target) => ReduceSetEnvelope(s, target, limits, config)
      case SetProfile(profile) => Ok(ReduceSetProfile(s, profile))
      case SetCoolingLevel(level) => Ok(ReduceSetCurve(s, PresetCurve(level)))
      case SetCustomFanCurve(cpu, gpu) => Ok(ReduceSetCurve(s, CustomCurve(cpu, gpu)))
      case EnableGpuAutoFollow => Ok(ReduceEnableGpuFollow(s, limits, config))
      case ResetGpuClocks => Ok(ReduceResetGpu(s))
      case ChargeThresholdChanged(threshold) => Ok(ReduceCharge(s, threshold))
      case SyncPowerTarget(found) => Ok(Output(s.(target := found), []))
      case SyncPlatformProfile(found) => Ok(Output(s.(profile := found), []))
      case SyncChargeThreshold(found) => Ok(Output(s.(charge := found), []))
      case SyncFanCurve(found) => Ok(Output(s.(curve := found), []))
      case SyncGpuClockRange(found) =>
        Ok(Output(s.(gpu := if found.Some? then Some(Unmanaged(found.value)) else None), []))
      case AcPowerChanged(plugged) =>
        if s.acConnected == plugged then Ok(Output(s, []))
        else if plugged then Ok(ReducePlug(s, limits, config))
        else ReduceUnplug(s, limits, config)
      case SystemResumed => Ok(ReduceResume(s, limits, config))
      case SetAcMaxPerformance(enabled) => Ok(ReduceSetAcMax(s, enabled, limits, config))
      case EnableFanAuto => Ok(ReduceEnableFanAuto(s, limits, config))
      case ResetFanCurve => Ok(ReduceResetCurve(s))
      case RestoreDefaults => ReduceRestoreDefaults(s, limits, config)
      case ConfigReload(_) => Ok(Output(s, []))
      case Shutdown => Ok(Output(s, [PersistState]))
  }
}
