/** GPU clock management is opt-in: without the one transition that opts in, no run ever touches the GPU. */
module GpuOptIn {
  import opened Units
  import opened Domain
  import opened Envelope
  import opened Inference
  import opened Reducer
  import opened Executor

  predicate OptedOut(s: ProfileState) {
    && s.gpu.None? && !s.gpuFollows
    && (s.lastDc.Some? ==> s.lastDc.value.gpu.None? && !s.lastDc.value.gpuFollows)
  }

  predicate GpuEffect(e: Effect) {
    e.ApplyGpu? || e.DropGpu?
  }

  /** Transitions that neither opt in nor report a GPU range. */
  predicate GpuNeutral(t: Transition) {
    !t.EnableGpuAutoFollow? && !t.SyncGpuClockRange?
  }

  predicate Untouched(o: Output) {
    OptedOut(o.state) && forall e :: e in o.effects ==> !GpuEffect(e)
  }

  lemma ApplyTargetStaysOut(s: ProfileState, target: PowerTarget, limits: PowerLimits, config: RuntimeConfig)
    requires OptedOut(s)
    ensures Untouched(ApplyPowerTarget(s, target, limits, config))
  {
  }

  lemma SetProfileStaysOut(s: ProfileState, profile: ProfileName)
    requires OptedOut(s)
    ensures Untouched(ReduceSetProfile(s, profile))
  {
  }

  lemma ForceStaysOut(s: ProfileState, limits: PowerLimits, config: RuntimeConfig)
    requires OptedOut(s)
    ensures Untouched(ForceAcMax(s, limits, config))
  {
  }

  lemma RestoreStaysOut(s: ProfileState, snapshot: DcSnapshot)
    requires OptedOut(s) && s.lastDc == Some(snapshot)
    ensures Untouched(RestoreDc(s, snapshot))
  {
  }

  lemma ResumeStaysOut(s: ProfileState, limits: PowerLimits, config: RuntimeConfig)
    requires OptedOut(s)
    ensures Untouched(ReduceResume(s, limits, config))
  {
    if s.Locked() {
      ForceStaysOut(s, limits, config);
    } else if s.lastDc.Some? {
      RestoreStaysOut(s, s.lastDc.value);
    }
  }

  lemma SetAcMaxStaysOut(s: ProfileState, enabled: bool, limits: PowerLimits, config: RuntimeConfig)
    requires OptedOut(s)
    ensures Untouched(ReduceSetAcMax(s, enabled, limits, config))
  {
    ForceStaysOut(s, limits, config);
    if s.lastDc.Some? {
      RestoreStaysOut(s, s.lastDc.value);
    }
  }

  lemma PresetStaysOut(s: ProfileState, preset: TdpPreset, limits: PowerLimits, config: RuntimeConfig)
    requires OptedOut(s)
    requires ReduceSetPreset(s, preset, limits, config).Ok?
    ensures Untouched(ReduceSetPreset(s, preset, limits, config).value)
  {
  }

  lemma AcEdgeStaysOut(s: ProfileState, plugged: bool, limits: PowerLimits, config: RuntimeConfig)
    requires OptedOut(s)
    requires Reduce(s, AcPowerChanged(plugged), limits, config).Ok?
    ensures Untouched(Reduce(s, AcPowerChanged(plugged), limits, config).value)
  {
    if plugged {
      ForceStaysOut(s, limits, config);
    } else if s.acConnected {
      if s.lastDc.Some? {
        RestoreStaysOut(s, s.lastDc.value);
      } else if s.acMaxPerformance {
        PresetStaysOut(s.(acConnected := false, fanFollows := true), TdpPreset.Balanced, limits, config);
      }
    }
  }

  lemma DefaultsStayOut(s: ProfileState, limits: PowerLimits, config: RuntimeConfig)
    requires OptedOut(s)
    requires ReduceRestoreDefaults(s, limits, config).Ok?
    ensures Untouched(ReduceRestoreDefaults(s, limits, config).value)
  {
    var a := ReduceSetPreset(s, TdpPreset.Balanced, limits, config).value;
    PresetStaysOut(s, TdpPreset.Balanced, limits, config);
    var b := ReduceSetProfile(a.state, Performance);
    SetProfileStaysOut(a.state, Performance);
    var c := ReduceCharge(b.state, DEFAULT_CHARGE_THRESHOLD);
    var d := ReduceEnableFanAuto(c.state, limits, config);
    var e := ReduceResetGpu(d.state);
    assert Untouched(c) && Untouched(d) && Untouched(e);
  }

  /** Plug, unplug, resume, TDP changes, lock toggles and restored defaults all leave the GPU alone. */
  lemma ReduceStaysOut(s: ProfileState, t: Transition, limits: PowerLimits, config: RuntimeConfig)
    requires OptedOut(s) && GpuNeutral(t)
    requires Reduce(s, t, limits, config).Ok?
    ensures Untouched(Reduce(s, t, limits, config).value)
  {
    if !(s.Locked() && t.IsLockedWrite()) {
      match t
      case SetPreset(preset) => PresetStaysOut(s, preset, limits, config);
      case SetSpl(watts) =>
        ApplyTargetStaysOut(s, DeriveBoosted(FromWatts(watts).value, limits, config), limits, config);
      case SetEnvelope(target) => ApplyTargetStaysOut(s, target, limits, config);
      case SetProfile(profile) => SetProfileStaysOut(s, profile);
      case AcPowerChanged(plugged) => AcEdgeStaysOut(s, plugged, limits, config);
      case SystemResumed => ResumeStaysOut(s, limits, config);
      case SetAcMaxPerformance(enabled) => SetAcMaxStaysOut(s, enabled, limits, config);
      case RestoreDefaults => DefaultsStayOut(s, limits, config);
      case _ =>
    }
  }

  lemma {:induction false} HandleAllStaysOut(w: World, ranges: TierRanges, effects: seq<Effect>, env: Env, i: nat)
    requires forall e :: e in effects ==> !GpuEffect(e)
    requires forall t :: t in w.queue ==> GpuNeutral(t)
    ensures var r := HandleAll(w, ranges, effects, env, i);
            r.hw.gpu == w.hw.gpu && forall t :: t in r.queue ==> GpuNeutral(t)
    decreases |effects|
  {
    if effects != [] {
      assert effects[0] in effects;
      HandleAllStaysOut(HandleEffect(w, ranges, effects[0], env.outcome(i), env.saved(i)), ranges, effects[1..], env,
                        i + 1);
    }
  }

  predicate Out(w: World) {
    OptedOut(w.state) && forall t :: t in w.queue ==> GpuNeutral(t)
  }

  lemma ProcessStaysOut(w: World, t: Transition, env: Env)
    requires Out(w) && GpuNeutral(t)
    ensures var r := Process(w, t, env); Out(r) && r.hw.gpu == w.hw.gpu
  {
    if !t.ConfigReload? {
      var base, limits := Refreshed(w, t, env), RefreshedLimits(w, t, env);
      var result := Reduce(base, t, limits, w.config);
      ProcessUnfolds(w, t, env, result);
      if result.Ok? {
        var w1 := w.(limits := limits, state := Publish(result.value.state));
        ReduceStaysOut(base, t, limits, w.config);
        HandleAllStaysOut(w1, Ranges(w), result.value.effects, env, 0);
        HandleAllFrame(w1, Ranges(w), result.value.effects, env, 0);
      }
    }
  }

  /** The hardware's GPU clock after a run of the environment alone. */
  function DisturbedGpu(gpu: Option<GpuRange>, events: seq<Event>): Option<GpuRange>
    decreases |events|
  {
    if events == [] then gpu
    else DisturbedGpu(if events[0].Disturb? then events[0].hw.gpu else gpu, events[1..])
  }

  /** Noninterference: over any run, failures and rollbacks included, the GPU clock is what the environment alone made
      it. */
  lemma {:induction false} OptedOutRun(w: World, events: seq<Event>)
    requires Out(w)
    requires forall e :: e in events && e.Submit? ==> GpuNeutral(e.t)
    ensures var r := Run(w, events); Out(r) && r.hw.gpu == DisturbedGpu(w.hw.gpu, events)
    decreases |events|
  {
    if events != [] {
      if events[0].Iterate? && w.running && w.queue != [] {
        ProcessStaysOut(w.(queue := w.queue[1..]), w.queue[0], events[0].env);
      }
      OptedOutRun(Next(w, events[0]), events[1..]);
    }
  }
}
