/** The power and cooling levers: a user write moves its own lever and no other, and whatever follows the power
    target is always at the tier inferred from it. */
module Levers {
  import opened Units
  import opened Domain
  import opened Inference
  import opened Envelope
  import opened Reducer
  import opened Executor
  import opened AcLock
  import Defaults
  import Durability
  import WriteOnce

  // ---- Independence ----------------------------------------------------------

  /** Only the target moved, and with it the levers that follow it, to the tier of the new target. */
  predicate OnlyPower(s: ProfileState, r: ProfileState, limits: PowerLimits, config: RuntimeConfig) {
    var tier := InferTier(r.target, limits, config.thresholds);
    && r == s.(target := r.target, curve := r.curve, gpu := r.gpu)
    && r.curve == (if s.fanFollows && r.target != s.target then Some(PresetCurve(tier)) else s.curve)
    && r.gpu == (if s.gpuFollows && r.target != s.target then Some(PresetClock(tier)) else s.gpu)
  }

  /** What the sender of a write expects to find afterwards. */
  predicate Intended(s: ProfileState, t: Transition, r: ProfileState, limits: PowerLimits, config: RuntimeConfig) {
    match t
    case SetPreset(preset) =>
      OnlyPower(s, r, limits, config) && r.target.spl == PresetWatts(preset, limits, config) * MILLIWATTS_PER_WATT
        && Boosted(r.target, limits, config) && Validate(r.target, limits).Ok?
    case SetSpl(watts) =>
      OnlyPower(s, r, limits, config) && r.target.spl == watts * MILLIWATTS_PER_WATT
        && limits.splMin <= r.target.spl <= limits.splMax && Boosted(r.target, limits, config)
        && Validate(r.target, limits).Ok?
    case SetEnvelope(target) =>
      OnlyPower(s, r, limits, config) && r.target == target && Validate(target, limits).Ok?
    case SetProfile(profile) => r == s.(profile := profile)
    case SetCoolingLevel(level) => r == s.(curve := Some(PresetCurve(level)), fanFollows := false)
    case SetCustomFanCurve(cpu, gpu) => r == s.(curve := Some(CustomCurve(cpu, gpu)), fanFollows := false)
    case EnableFanAuto =>
      && r == s.(curve := r.curve, fanFollows := true)
      && r.curve == if s.fanFollows then s.curve else Some(PresetCurve(InferTier(s.target, limits, config.thresholds)))
    case ResetFanCurve => r == s.(curve := None, fanFollows := false)
    case EnableGpuAutoFollow =>
      && r == s.(gpu := r.gpu, gpuFollows := true)
      && r.gpu == if s.gpuFollows then s.gpu else Some(PresetClock(InferTier(s.target, limits, config.thresholds)))
    case ResetGpuClocks =>
      r == s.(gpu := None, gpuFollows := r.gpuFollows) && (r.gpuFollows ==> s.gpuFollows && s.gpu.None?)
    case ChargeThresholdChanged(threshold) => r == s.(charge := threshold)
    case AcPowerChanged(_) => r.charge == s.charge
    case SystemResumed => r.charge == s.charge
    case SetAcMaxPerformance(_) => r.charge == s.charge
    case ConfigReload(_) => r == s
    case Shutdown => r == s
    case _ => true
  }

  /** An accepted write does what it says and leaves every other lever alone; under the AC lock only the charge
      threshold still obeys. */
  lemma WritesMoveTheirLever(s: ProfileState, t: Transition, limits: PowerLimits, config: RuntimeConfig)
    requires Reduce(s, t, limits, config).Ok?
    ensures var o := Reduce(s, t, limits, config).value;
            if s.Locked() && t.IsLockedWrite() then o == Output(s, [])
            else Intended(s, t, o.state, limits, config)
    ensures t.ChargeThresholdChanged? ==> Reduce(s, t, limits, config).value.state.charge == t.threshold
  {
    if t.SetSpl? {
      SplIntended(s, t.watts, limits, config);
    } else if t.SetPreset? {
      SplIntended(s, PresetWatts(t.preset, limits, config), limits, config);
    }
    hide InferTier, CollapsePersist, WithoutPersist, PresetWatts, Boosted, ReduceSetSpl, Validate, OnlyPower;
    if t.SetEnvelope? && Validate(t.envelope, limits).Ok? {
      TargetIntended(s, t.envelope, limits, config);
    }
  }

  lemma TargetIntended(s: ProfileState, target: PowerTarget, limits: PowerLimits, config: RuntimeConfig)
    ensures var r := ApplyPowerTarget(s, target, limits, config).state;
            OnlyPower(s, r, limits, config) && r.target == target
  {
    hide InferTier;
  }

  lemma SplIntended(s: ProfileState, watts: U32, limits: PowerLimits, config: RuntimeConfig)
    ensures ReduceSetSpl(s, watts, limits, config).Ok? <==>
              watts * MILLIWATTS_PER_WATT <= U32_MAX
              && Validate(DeriveBoosted(watts * MILLIWATTS_PER_WATT, limits, config), limits).Ok?
    ensures ReduceSetSpl(s, watts, limits, config).Ok? ==>
              var r := ReduceSetSpl(s, watts, limits, config).value.state;
              && OnlyPower(s, r, limits, config) && r.target.spl == watts * MILLIWATTS_PER_WATT
              && limits.splMin <= r.target.spl <= limits.splMax && Boosted(r.target, limits, config)
              && Validate(r.target, limits).Ok?
  {
    if FromWatts(watts).Ok? {
      DerivedIsBoosted(FromWatts(watts).value, limits, config);
      TargetIntended(s, DeriveBoosted(FromWatts(watts).value, limits, config), limits, config);
    }
    hide DeriveBoosted, Boosted, ApplyPowerTarget, OnlyPower;
  }

  /** Asking for what is already so costs nothing: a transition that leaves the state as it was writes and saves
      nothing. The exceptions re-apply on purpose: a chosen curve, a resume, the last save before the exit. */
  lemma UnchangedOwesNothing(s: ProfileState, t: Transition, limits: PowerLimits, config: RuntimeConfig)
    requires Reduce(s, t, limits, config).Ok? && Reduce(s, t, limits, config).value.state == s
    requires !t.SetCoolingLevel? && !t.SetCustomFanCurve? && !t.SystemResumed? && !t.Shutdown?
    ensures Reduce(s, t, limits, config).value.effects == []
  {
    if t.RestoreDefaults? && !s.Locked() {
      Defaults.DefaultsSaveOnceLast(s, limits, config);
    }
    hide InferTier, CollapsePersist, PresetWatts, DeriveBoosted, Validate, ReduceRestoreDefaults;
  }

  /** What is ever rejected, and exactly when: off the lock, a target that the limits do not accept; and an unplug,
      locked or not, whose quiet defaults they do not accept. */
  lemma RejectedIff(s: ProfileState, t: Transition, limits: PowerLimits, config: RuntimeConfig)
    ensures Reduce(s, t, limits, config).Err? <==>
              match t
              case SetSpl(watts) => !s.Locked() && !Fits(watts, limits, config)
              case SetPreset(preset) => !s.Locked() && !Fits(PresetWatts(preset, limits, config), limits, config)
              case SetEnvelope(target) => !s.Locked() && Validate(target, limits).Err?
              case RestoreDefaults => !s.Locked() && !QuietFits(limits, config)
              case AcPowerChanged(plugged) => s.Locked() && !plugged && s.lastDc.None? && !QuietFits(limits, config)
              case _ => false
  {
    if t.SetSpl? {
      SplRejectedIff(s, t.watts, limits, config);
    } else if t.SetPreset? {
      SplRejectedIff(s, PresetWatts(t.preset, limits, config), limits, config);
    }
    WriteOnce.BalancedIsQuiet(s, limits, config);
    if s.acConnected {
      EdgeRejectedIff(s, limits, config);
    }
    hide ReduceSetSpl, ReduceRestoreDefaults, ReduceUnplug, Validate, QuietFits, Fits, PresetWatts;
  }

  lemma SplRejectedIff(s: ProfileState, watts: U32, limits: PowerLimits, config: RuntimeConfig)
    ensures ReduceSetSpl(s, watts, limits, config).Err? <==> !Fits(watts, limits, config)
  {
    SplIntended(s, watts, limits, config);
  }

  lemma EdgeRejectedIff(s: ProfileState, limits: PowerLimits, config: RuntimeConfig)
    requires s.acConnected
    ensures ReduceUnplug(s, limits, config).Err? <==> s.Locked() && s.lastDc.None? && !QuietFits(limits, config)
  {
    WriteOnce.BalancedIsQuiet(s.(acConnected := false, fanFollows := true), limits, config);
    hide ReduceSetPreset, QuietFits;
  }

  /** The boosted envelope at that many watts is representable and accepted. */
  predicate Fits(watts: U32, limits: PowerLimits, config: RuntimeConfig) {
    watts * MILLIWATTS_PER_WATT <= U32_MAX
    && Validate(DeriveBoosted(watts * MILLIWATTS_PER_WATT, limits, config), limits).Ok?
  }

  // ---- Following the power target ---------------------------------------------

  predicate AtTier(tier: Tier, follows: bool, curve: Option<FanSelection>, gpuFollows: bool,
                   gpu: Option<GpuSelection>) {
    (follows ==> curve == Some(PresetCurve(tier))) && (gpuFollows ==> gpu == Some(PresetClock(tier)))
  }

  /** Every lever that follows the TDP is at the tier of the current target, and so it was when the snapshot was
      taken. */
  predicate Following(s: ProfileState, limits: PowerLimits, thresholds: Thresholds) {
    && AtTier(InferTier(s.target, limits, thresholds), s.fanFollows, s.curve, s.gpuFollows, s.gpu)
    && (s.lastDc.Some? ==>
          var d := s.lastDc.value;
          AtTier(InferTier(d.target, limits, thresholds), d.fanFollows, d.curve, d.gpuFollows, d.gpu))
  }

  lemma UnplugKeepsFollowing(s: ProfileState, limits: PowerLimits, config: RuntimeConfig)
    requires Following(s, limits, config.thresholds)
    requires !Durability.UnplugForgets(s, limits, config) && s.acConnected
    requires ReduceUnplug(s, limits, config).Ok?
    ensures Following(ReduceUnplug(s, limits, config).value.state, limits, config.thresholds)
  {
  }

  /** Under unchanged limits and thresholds every transition keeps it; the one that could not, an unplug into the quiet
      defaults at an unchanged target, is exactly the one that also forgets to save. */
  lemma ReduceKeepsFollowing(s: ProfileState, t: Transition, limits: PowerLimits, config: RuntimeConfig)
    requires !t.IsSync() && Durability.NoUnmanaged(s)
    requires Following(s, limits, config.thresholds)
    requires t == AcPowerChanged(false) ==> !Durability.UnplugForgets(s, limits, config)
    requires Reduce(s, t, limits, config).Ok?
    ensures Following(Reduce(s, t, limits, config).value.state, limits, config.thresholds)
  {
    hide InferTier, DeriveBoosted, Validate, PresetWatts, CollapsePersist, Durability.UnplugForgets, ReduceUnplug;
    if t.AcPowerChanged? && !t.plugged && s.acConnected {
      UnplugKeepsFollowing(s, limits, config);
    }
  }

  /** What a run keeps: following levers at their tier, the lock's pins, and no abnormal GPU range. */
  predicate FollowInv(w: World) {
    && Following(w.state, w.limits, w.config.thresholds)
    && Pinned(w.state, w.limits) && Durability.NoUnmanaged(w.state) && Durability.Spread(w.limits)
  }

  ghost predicate Steady(e: Event, limits: PowerLimits, thresholds: Thresholds) {
    match e
    case Submit(t) => SteadyTransition(t, thresholds)
    case Iterate(env) => NoRefusals(env) && (env.limits.Some? ==> env.limits.value == limits)
    case Disturb(_) => true
  }

  predicate SteadyTransition(t: Transition, thresholds: Thresholds) {
    !t.IsSync() && (t.ConfigReload? ==> t.config.thresholds == thresholds)
  }

  lemma ProcessKeepsFollowing(w: World, t: Transition, env: Env)
    requires FollowInv(w) && SteadyTransition(t, w.config.thresholds)
    requires Steady(Iterate(env), w.limits, w.config.thresholds)
    ensures var r := Process(w, t, env);
            FollowInv(r) && r.queue == w.queue && r.limits == w.limits && r.config.thresholds == w.config.thresholds
  {
    hide Following, Durability.NoUnmanaged, Pinned, Reduce, HandleAll;
    ProcessKeepsPins(w, t, env);
    if !t.ConfigReload? {
      var base := Refreshed(w, t, env);
      var result := Reduce(base, t, w.limits, w.config);
      RefreshKeeps(w, t, env);
      Durability.ProcessStateOf(w, t, env);
      ProcessUnfolds(w, t, env, result);
      if result.Ok? {
        ReduceKeepsFollowing(base, t, w.limits, w.config);
        Durability.ReduceKeepsManaged(base, t, w.limits, w.config);
        HandleAllFrame(w.(state := Publish(result.value.state)), Ranges(w), result.value.effects, env, 0);
        PublishKeeps(result.value.state, w.limits, w.config.thresholds);
      }
    }
  }

  /** Re-reading the AC state moves no lever. */
  lemma RefreshKeeps(w: World, t: Transition, env: Env)
    requires FollowInv(w)
    ensures var s := Refreshed(w, t, env);
            && Following(s, w.limits, w.config.thresholds) && Durability.NoUnmanaged(s)
            && (t == AcPowerChanged(false) ==> !Durability.UnplugForgets(s, w.limits, w.config))
  {
  }

  lemma PublishKeeps(s: ProfileState, limits: PowerLimits, thresholds: Thresholds)
    ensures Following(Publish(s), limits, thresholds) == Following(s, limits, thresholds)
    ensures Durability.NoUnmanaged(Publish(s)) == Durability.NoUnmanaged(s)
  {
  }

  /** In every run without refused writes, as long as limits and thresholds stay the same, auto-cooling and GPU
      auto-follow are always at the tier of the published power target. */
  lemma {:induction false} FollowRun(w: World, events: seq<Event>)
    requires FollowInv(w)
    requires forall t :: t in w.queue ==> SteadyTransition(t, w.config.thresholds)
    requires forall e :: e in events ==> Steady(e, w.limits, w.config.thresholds)
    ensures FollowInv(Run(w, events))
    decreases |events|
  {
    hide FollowInv, Process;
    if events != [] {
      assert Steady(events[0], w.limits, w.config.thresholds);
      EventKeepsFollowing(w, events[0]);
      FollowRun(Next(w, events[0]), events[1..]);
    }
  }

  lemma EventKeepsFollowing(w: World, e: Event)
    requires FollowInv(w) && Steady(e, w.limits, w.config.thresholds)
    requires forall t :: t in w.queue ==> SteadyTransition(t, w.config.thresholds)
    ensures var r := Next(w, e);
            && FollowInv(r) && r.limits == w.limits && r.config.thresholds == w.config.thresholds
            && forall t :: t in r.queue ==> SteadyTransition(t, w.config.thresholds)
  {
    if e.Iterate? && w.running && w.queue != [] {
      ProcessKeepsFollowing(w.(queue := w.queue[1..]), w.queue[0], e.env);
    }
  }

  // ---- Configuration --------------------------------------------------------------

  /** A reload is as if the daemon had had the new configuration all along: whatever comes next sees all of it, and
      nothing else has changed. */
  lemma ReloadThenAnything(w: World, config: RuntimeConfig, t: Transition, reload: Env, env: Env)
    requires w.running && w.queue == [ConfigReload(config), t]
    ensures Tick(Tick(w, reload), env) == Tick(w.(config := config, queue := [t]), env)
  {
    assert w.queue[1..] == [t];
  }

  /** So a power target accepted after a reload is boosted by the new factors, and what follows it moves to the tier
      of the new thresholds. */
  lemma ReloadThenSetSpl(w: World, config: RuntimeConfig, watts: U32, reload: Env, env: Env)
    requires w.running && w.queue == [ConfigReload(config), SetSpl(watts)] && !w.state.Locked()
    requires ReduceSetSpl(w.state, watts, w.limits, config).Ok?
    ensures var r := Tick(Tick(w, reload), env);
            && r.config == config && Boosted(r.state.target, w.limits, config)
            && r.state.target.spl == watts * MILLIWATTS_PER_WATT
            && (r.state.fanFollows && r.state.target != w.state.target ==>
                  r.state.curve == Some(PresetCurve(InferTier(r.state.target, w.limits, config.thresholds))))
  {
    var w1, o := w.(config := config, queue := []), ReduceSetSpl(w.state, watts, w.limits, config).value;
    ReloadThenAnything(w, config, SetSpl(watts), reload, env);
    WritesMoveTheirLever(w.state, SetSpl(watts), w.limits, config);
    ProcessUnfolds(w1, SetSpl(watts), env, Ok(o));
    assert [SetSpl(watts)][1..] == [];
    hide InferTier, Boosted, ReduceSetSpl, HandleAll, Process;
    HandleAllFrame(w1.(state := Publish(o.state)), Ranges(w1), o.effects, env, 0);
  }
}
