/** The "AC = maximum performance" lock over whole runs: when a battery snapshot exists, what the
    lock pins, and what leaving the lock gives back. */
module AcLock {
  import opened Units
  import opened Domain
  import opened Envelope
  import opened Reducer
  import opened Inference
  import opened Executor

  // ---- Which transitions can touch the lock at all ----------------------

  predicate TouchesLock(t: Transition) {
    t.AcPowerChanged? || t.SystemResumed? || t.SetAcMaxPerformance?
  }

  predicate SameLock(a: ProfileState, b: ProfileState) {
    a.acConnected == b.acConnected && a.acMaxPerformance == b.acMaxPerformance && a.lastDc == b.lastDc
  }

  lemma OnlyLockTransitionsTouchIt(s: ProfileState, t: Transition, limits: PowerLimits, config: RuntimeConfig)
    requires !TouchesLock(t)
    requires Reduce(s, t, limits, config).Ok?
    ensures SameLock(s, Reduce(s, t, limits, config).value.state)
  {
    hide InferTier, DeriveBoosted, Validate, PresetWatts, CollapsePersist;
  }

  // ---- Snapshot discipline ----------------------------------------------

  /** A battery snapshot exists only while the lock is in force. */
  predicate Disciplined(s: ProfileState) {
    s.lastDc.Some? ==> s.Locked()
  }

  /** Every transition keeps the discipline, and a live snapshot is either kept verbatim or consumed. */
  lemma ReduceKeepsDiscipline(s: ProfileState, t: Transition, limits: PowerLimits, config: RuntimeConfig)
    requires Disciplined(s) || t.SystemResumed?
    requires Reduce(s, t, limits, config).Ok?
    ensures var r := Reduce(s, t, limits, config).value.state;
            Disciplined(r) && (s.lastDc.Some? ==> r.lastDc == s.lastDc || r.lastDc.None?)
  {
    if !TouchesLock(t) {
      OnlyLockTransitionsTouchIt(s, t, limits, config);
    }
  }

  lemma ProcessKeepsDiscipline(w: World, t: Transition, env: Env)
    requires Disciplined(w.state) || t.SystemResumed?
    ensures Disciplined(Process(w, t, env).state)
  {
    if !t.ConfigReload? {
      var base, limits := Refreshed(w, t, env), RefreshedLimits(w, t, env);
      var result := Reduce(base, t, limits, w.config);
      ProcessUnfolds(w, t, env, result);
      if result.Ok? {
        ReduceKeepsDiscipline(base, t, limits, w.config);
        HandleAllFrame(w.(limits := limits, state := Publish(result.value.state)), Ranges(w), result.value.effects,
                       env, 0);
      }
    }
  }

  /** Against any environment, refused writes and rollbacks included, the discipline outlives every run. */
  lemma {:induction false} DisciplineRun(w: World, events: seq<Event>)
    requires Disciplined(w.state)
    ensures Disciplined(Run(w, events).state)
    decreases |events|
  {
    if events != [] {
      if events[0].Iterate? && w.running && w.queue != [] {
        ProcessKeepsDiscipline(w.(queue := w.queue[1..]), w.queue[0], events[0].env);
      }
      DisciplineRun(Next(w, events[0]), events[1..]);
    }
  }

  // ---- What still gets through the lock -------------------------------------

  /** Under the lock only the charge threshold, the power source, the lock's own switch and rollbacks have any effect;
      every other transition leaves the state alone and owes the hardware nothing. */
  lemma LockSuppresses(s: ProfileState, t: Transition, limits: PowerLimits, config: RuntimeConfig)
    requires s.Locked() && !t.ChargeThresholdChanged? && !TouchesLock(t) && !t.IsSync()
    ensures Reduce(s, t, limits, config).Ok?
    ensures var o := Reduce(s, t, limits, config).value;
            o.state == s && o.effects == if t.Shutdown? then [PersistState] else []
  {
  }

  // ---- The lock pins the levers -----------------------------------------

  predicate Pinned(s: ProfileState, limits: PowerLimits) {
    s.Locked() ==>
      && s.target == ForcedMax(limits)
      && s.profile == Performance
      && s.curve == Some(PresetCurve(Aggressive))
      && !s.fanFollows
      && (s.gpu.None? || s.gpu == Some(PresetClock(Aggressive)))
  }

  /** At the SPL ceiling the boost factors play no part, so no configuration can move the pinned envelope. */
  lemma CeilingIgnoresConfig(limits: PowerLimits, config: RuntimeConfig)
    ensures DeriveBoosted(limits.splMax, limits, config) == ForcedMax(limits)
  {
  }

  lemma ReduceKeepsPins(s: ProfileState, t: Transition, limits: PowerLimits, config: RuntimeConfig)
    requires !t.IsSync()
    requires Pinned(s, limits) || t.SystemResumed?
    requires Reduce(s, t, limits, config).Ok?
    ensures Pinned(Reduce(s, t, limits, config).value.state, limits)
  {
    CeilingIgnoresConfig(limits, config);
    if !TouchesLock(t) {
      OnlyLockTransitionsTouchIt(s, t, limits, config);
    }
  }

  ghost predicate NoRefusals(env: Env) {
    forall i: nat :: !env.outcome(i).Refused?
  }

  lemma {:induction false} NoRefusalsNoRollback(w: World, ranges: TierRanges, effects: seq<Effect>, env: Env, i: nat)
    requires NoRefusals(env)
    ensures HandleAll(w, ranges, effects, env, i).queue == w.queue
    decreases |effects|
  {
    if effects != [] {
      assert !env.outcome(i).Refused?;
      NoRefusalsNoRollback(HandleEffect(w, ranges, effects[0], env.outcome(i), env.saved(i)), ranges, effects[1..], env,
                           i + 1);
    }
  }

  lemma ProcessKeepsPins(w: World, t: Transition, env: Env)
    requires !t.IsSync() && NoRefusals(env)
    requires Pinned(w.state, w.limits) || t.SystemResumed?
    ensures var r := Process(w, t, env);
            Pinned(r.state, r.limits) && r.queue == w.queue
  {
    if !t.ConfigReload? {
      var base, limits := Refreshed(w, t, env), RefreshedLimits(w, t, env);
      var result := Reduce(base, t, limits, w.config);
      ProcessUnfolds(w, t, env, result);
      if result.Ok? {
        var w1 := w.(limits := limits, state := Publish(result.value.state));
        ReduceKeepsPins(base, t, limits, w.config);
        HandleAllFrame(w1, Ranges(w), result.value.effects, env, 0);
        NoRefusalsNoRollback(w1, Ranges(w), result.value.effects, env, 0);
      }
    }
  }

  ghost predicate FailureFree(e: Event) {
    (e.Submit? ==> !e.t.IsSync()) && (e.Iterate? ==> NoRefusals(e.env))
  }

  /** In every run without a refused write, being locked means being at the forced maximum for the current limits:
      through config reloads, limit changes and any mischief of the hardware itself. */
  lemma {:induction false} LockPinsRun(w: World, events: seq<Event>)
    requires Pinned(w.state, w.limits)
    requires forall t :: t in w.queue ==> !t.IsSync()
    requires forall e :: e in events ==> FailureFree(e)
    ensures var r := Run(w, events);
            Pinned(r.state, r.limits) && forall t :: t in r.queue ==> !t.IsSync()
    decreases |events|
  {
    if events != [] {
      assert FailureFree(events[0]);
      if events[0].Iterate? && w.running && w.queue != [] {
        ProcessKeepsPins(w.(queue := w.queue[1..]), w.queue[0], events[0].env);
      }
      LockPinsRun(Next(w, events[0]), events[1..]);
    }
  }

  /** The boot re-assertion establishes both invariants from whatever state was on disk. */
  lemma FirstResumeEstablishes(w: World, env: Env)
    requires NoRefusals(env)
    ensures var r := Process(w, SystemResumed, env);
            Disciplined(r.state) && Pinned(r.state, r.limits)
  {
    ProcessKeepsDiscipline(w, SystemResumed, env);
    ProcessKeepsPins(w, SystemResumed, env);
  }

  // ---- The AC round trip -------------------------------------------------

  /** The six battery fields are back; only an unmanaged GPU range is not resurrected. */
  predicate BatteryRestored(s: ProfileState, gpuBefore: Option<GpuSelection>, saved: DcSnapshot) {
    && s.target == saved.target
    && s.profile == saved.profile
    && s.curve == saved.curve
    && s.fanFollows == saved.fanFollows
    && s.gpuFollows == saved.gpuFollows
    && s.gpu == (if saved.gpu.Some? && saved.gpu.value.Unmanaged? && saved.gpu != gpuBefore then None else saved.gpu)
  }

  /** One step from a locked state with a snapshot: either both survive, or the battery fields come back. */
  lemma ReduceFromLocked(s: ProfileState, t: Transition, limits: PowerLimits, config: RuntimeConfig, saved: DcSnapshot)
    requires s.Locked() || t.SystemResumed?
    requires s.lastDc == Some(saved)
    ensures Reduce(s, t, limits, config).Err? ==> !t.SystemResumed?
    ensures Reduce(s, t, limits, config).Ok? ==>
              var r := Reduce(s, t, limits, config).value.state;
              if r.Locked() then r.lastDc == Some(saved)
              else r.lastDc.None? && BatteryRestored(r, s.gpu, saved)
  {
    if !TouchesLock(t) && Reduce(s, t, limits, config).Ok? {
      OnlyLockTransitionsTouchIt(s, t, limits, config);
    }
  }

  lemma ProcessFromLocked(w: World, t: Transition, env: Env, saved: DcSnapshot)
    requires w.state.Locked() && w.state.lastDc == Some(saved)
    ensures var r := Process(w, t, env).state;
            if r.Locked() then r.lastDc == Some(saved)
            else r.lastDc.None? && BatteryRestored(r, w.state.gpu, saved)
  {
    if !t.ConfigReload? {
      var base, limits := Refreshed(w, t, env), RefreshedLimits(w, t, env);
      var result := Reduce(base, t, limits, w.config);
      ProcessUnfolds(w, t, env, result);
      ReduceFromLocked(base, t, limits, w.config, saved);
      if result.Ok? {
        HandleAllFrame(w.(limits := limits, state := Publish(result.value.state)), Ranges(w), result.value.effects,
                       env, 0);
      }
    }
  }

  lemma NextFromLocked(w: World, e: Event, saved: DcSnapshot)
    requires w.state.Locked() && w.state.lastDc == Some(saved)
    ensures var r := Next(w, e).state;
            if r.Locked() then r.lastDc == Some(saved)
            else r.lastDc.None? && BatteryRestored(r, w.state.gpu, saved)
  {
    if e.Iterate? && w.running && w.queue != [] {
      ProcessFromLocked(w.(queue := w.queue[1..]), w.queue[0], e.env, saved);
    }
  }

  /** Every event of the run leaves the lock in force. */
  predicate StaysLocked(w: World, events: seq<Event>)
    decreases |events|
  {
    events != [] ==> Next(w, events[0]).state.Locked() && StaysLocked(Next(w, events[0]), events[1..])
  }

  lemma {:induction false} LockedRunKeepsSnapshot(w: World, events: seq<Event>, saved: DcSnapshot)
    requires w.state.Locked() && w.state.lastDc == Some(saved)
    requires StaysLocked(w, events)
    ensures var r := Run(w, events); r.state.Locked() && r.state.lastDc == Some(saved)
    decreases |events|
  {
    if events != [] {
      NextFromLocked(w, events[0], saved);
      LockedRunKeepsSnapshot(Next(w, events[0]), events[1..], saved);
    }
  }

  /** The round trip: plug in under the lock, do anything at all for as long as the lock lasts, and the event that
      first leaves the lock returns the battery fields to what they were before the plug edge. */
  lemma AcRoundTrip(w: World, plug: Env, events: seq<Event>, last: Event)
    requires w.running && w.queue != [] && w.queue[0] == AcPowerChanged(true)
    requires !w.state.acConnected && w.state.acMaxPerformance
    requires StaysLocked(Tick(w, plug), events)
    requires !Next(Run(Tick(w, plug), events), last).state.Locked()
    ensures var before, after := Run(Tick(w, plug), events), Next(Run(Tick(w, plug), events), last);
            && before.state.lastDc == Some(w.state.Snapshot())
            && after.state.lastDc.None?
            && BatteryRestored(after.state, before.state.gpu, w.state.Snapshot())
            && after.state.target == w.state.target && after.state.profile == w.state.profile
            && after.state.curve == w.state.curve && after.state.fanFollows == w.state.fanFollows
            && after.state.gpuFollows == w.state.gpuFollows
            && (!(w.state.gpu.Some? && w.state.gpu.value.Unmanaged?) ==> after.state.gpu == w.state.gpu)
  {
    var w1 := Tick(w, plug);
    var out := ReducePlug(w.state, w.limits, w.config);
    ProcessUnfolds(w.(queue := w.queue[1..]), AcPowerChanged(true), plug, Ok(out));
    HandleAllFrame(w.(queue := w.queue[1..], state := Publish(out.state)), Ranges(w), out.effects, plug, 0);
    LockedRunKeepsSnapshot(w1, events, w.state.Snapshot());
    NextFromLocked(Run(w1, events), last, w.state.Snapshot());
  }
}
