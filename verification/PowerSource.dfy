/** Which power source the daemon believes in, and whether the lock follows from it: what is read on a resume, what an
    AC edge says and what the user prefers, over whole runs. */
module PowerSource {
  import opened Units
  import opened Domain
  import opened Envelope
  import opened Reducer
  import opened Executor
  import opened AcLock
  import opened Inference
  import Presets
  import WriteOnce

  // ---- One transition ------------------------------------------------------------

  /** The two facts behind the lock. */
  datatype Power = Power(onAc: bool, wanted: bool)

  function PowerOf(s: ProfileState): Power {
    Power(s.acConnected, s.acMaxPerformance)
  }

  /** What an accepted transition says about them. */
  function Told(p: Power, t: Transition): Power {
    match t
    case AcPowerChanged(plugged) => p.(onAc := plugged)
    case SetAcMaxPerformance(enabled) => p.(wanted := enabled)
    case _ => p
  }

  /** An accepted edge is believed, an accepted preference is stored, and nothing else moves either. */
  lemma ReduceTold(s: ProfileState, t: Transition, limits: PowerLimits, config: RuntimeConfig)
    requires Reduce(s, t, limits, config).Ok?
    ensures PowerOf(Reduce(s, t, limits, config).value.state) == Told(PowerOf(s), t)
  {
    hide DeriveBoosted, Validate, PresetWatts, CollapsePersist;
    if !TouchesLock(t) {
      OnlyLockTransitionsTouchIt(s, t, limits, config);
    }
  }

  /** On battery the preference is only stored, and saved exactly when it changes. */
  lemma ToggleOnBattery(s: ProfileState, enabled: bool, limits: PowerLimits, config: RuntimeConfig)
    requires !s.acConnected
    ensures Reduce(s, SetAcMaxPerformance(enabled), limits, config)
         == Ok(Output(s.(acMaxPerformance := enabled), if enabled == s.acMaxPerformance then [] else [PersistState]))
  {
  }

  /** On AC the preference takes hold at once: locking forces the maximum and keeps the battery fields for later,
      unlocking gives them back if they were kept. */
  lemma ToggleOnAc(s: ProfileState, enabled: bool, limits: PowerLimits, config: RuntimeConfig)
    requires s.acConnected && enabled != s.acMaxPerformance
    ensures Reduce(s, SetAcMaxPerformance(enabled), limits, config).Ok?
    ensures var r := Reduce(s, SetAcMaxPerformance(enabled), limits, config).value.state;
            if enabled
            then r.Locked() && Pinned(r, limits)
                   && r.lastDc == (if s.lastDc.Some? then s.lastDc else Some(s.Snapshot()))
            else !r.Locked() && (if s.lastDc.Some? then r.lastDc.None? && BatteryRestored(r, s.gpu, s.lastDc.value)
                                 else r == s.(acMaxPerformance := false))
  {
    CeilingIgnoresConfig(limits, config);
  }

  /** A locked unplug without a snapshot falls to quiet defaults: the Balanced envelope and auto-cooling at its tier,
      the profile and the charge threshold as they were. */
  lemma UnplugQuiet(s: ProfileState, limits: PowerLimits, config: RuntimeConfig)
    requires s.Locked() && s.lastDc.None? && Reduce(s, AcPowerChanged(false), limits, config).Ok?
    ensures var r, quiet := Reduce(s, AcPowerChanged(false), limits, config).value.state, QuietTarget(limits, config);
            && r.target == quiet && r.fanFollows && !r.acConnected && r.lastDc.None?
            && r.profile == s.profile && r.charge == s.charge && r.gpuFollows == s.gpuFollows
            && (s.target != quiet ==>
                  r.curve == Some(PresetCurve(InferTier(quiet, limits, config.thresholds))))
  {
    WriteOnce.BalancedIsQuiet(s.(acConnected := false, fanFollows := true), limits, config);
    hide DeriveBoosted, InferTier, ReduceSetPreset;
  }

  // ---- Resume ------------------------------------------------------------------------

  lemma ProcessTold(w: World, t: Transition, env: Env)
    requires !t.ConfigReload?
    ensures var s, r := Refreshed(w, t, env), Process(w, t, env);
            if Reduce(s, t, RefreshedLimits(w, t, env), w.config).Ok?
            then PowerOf(r.state) == Told(PowerOf(s), t) && r.state.acLocked == r.state.Locked()
            else r.state == w.state
  {
    var s, limits := Refreshed(w, t, env), RefreshedLimits(w, t, env);
    var result := Reduce(s, t, limits, w.config);
    ProcessUnfolds(w, t, env, result);
    if result.Ok? {
      ReduceTold(s, t, limits, w.config);
      var w1 := w.(limits := limits, state := Publish(result.value.state));
      HandleAllFrame(w1, Ranges(w), result.value.effects, env, 0);
    }
  }

  /** The AC state after the reading of a resume. */
  function AcAsRead(w: World, env: Env): bool {
    if w.caps.charge && env.ac.Some? then env.ac.value else w.state.acConnected
  }

  /** A resume adopts what it can read, the AC state and the limits each, keeps what it cannot, and publishes the lock
      that follows. */
  lemma ResumeReads(w: World, env: Env)
    ensures var r := Process(w, SystemResumed, env);
            && r.state.acConnected == AcAsRead(w, env)
            && r.limits == (if env.limits.Some? then env.limits.value else w.limits)
            && r.state.acMaxPerformance == w.state.acMaxPerformance
            && (r.state.Locked() <==> AcAsRead(w, env) && w.state.acMaxPerformance)
            && r.state.acLocked == r.state.Locked()
  {
    ProcessTold(w, SystemResumed, env);
    var limits := RefreshedLimits(w, SystemResumed, env);
    var result := Reduce(Refreshed(w, SystemResumed, env), SystemResumed, limits, w.config);
    ProcessUnfolds(w, SystemResumed, env, result);
    hide Reduce, Process;
    var w1 := w.(limits := limits, state := Publish(result.value.state));
    HandleAllFrame(w1, Ranges(w), result.value.effects, env, 0);
  }

  /** Suspended on AC and locked, the charger pulled, resumed on battery: the lock is gone and the battery fields are
      back, although no edge was ever seen. */
  lemma ResumedOnBattery(w: World, env: Env, saved: DcSnapshot)
    requires w.state.Locked() && w.state.lastDc == Some(saved)
    requires w.caps.charge && env.ac == Some(false)
    ensures var r := Process(w, SystemResumed, env).state;
            !r.Locked() && !r.acConnected && r.lastDc.None? && BatteryRestored(r, w.state.gpu, saved)
  {
    ResumeReads(w, env);
    ProcessFromLocked(w, SystemResumed, env, saved);
  }

  /** And the other way round: resumed on AC the machine is at the forced maximum, the battery fields kept for later
      if a snapshot was there. */
  lemma ResumedOnAc(w: World, env: Env)
    requires NoRefusals(env) && w.state.acMaxPerformance && w.caps.charge && env.ac == Some(true)
    ensures var r := Process(w, SystemResumed, env);
            r.state.Locked() && Pinned(r.state, r.limits) && r.state.profile == Performance
  {
    ResumeReads(w, env);
    FirstResumeEstablishes(w, env);
  }

  // ---- Runs --------------------------------------------------------------------------

  /** An edge that the limits leave no room for is lost. */
  predicate Lost(w: World, t: Transition) {
    t.AcPowerChanged? && Reduce(w.state, t, w.limits, w.config).Err?
  }

  /** What one event tells the daemon about its power source. */
  function ToldBy(w: World, e: Event, p: Power): Power {
    if !e.Iterate? || !w.running || w.queue == [] then p
    else if w.queue[0].SystemResumed? then
      if w.caps.charge && e.env.ac.Some? then p.(onAc := e.env.ac.value) else p
    else if Lost(w, w.queue[0]) then p
    else Told(p, w.queue[0])
  }

  function ToldOver(w: World, events: seq<Event>, p: Power): Power
    decreases |events|
  {
    if events == [] then p else ToldOver(Next(w, events[0]), events[1..], ToldBy(w, events[0], p))
  }

  lemma NextTold(w: World, e: Event)
    ensures PowerOf(Next(w, e).state) == ToldBy(w, e, PowerOf(w.state))
    ensures w.state.acLocked == w.state.Locked() ==> Next(w, e).state.acLocked == Next(w, e).state.Locked()
  {
    if e.Iterate? && w.running && w.queue != [] {
      var w1, t := w.(queue := w.queue[1..]), w.queue[0];
      if t.SystemResumed? {
        ResumeReads(w1, e.env);
      } else if !t.ConfigReload? {
        ProcessTold(w1, t, e.env);
        RejectedTellsNothing(w.state, t, w.limits, w.config);
      }
      hide Process, Reduce;
    }
  }

  /** Apart from an edge, only power targets are ever rejected. */
  lemma RejectedTellsNothing(s: ProfileState, t: Transition, limits: PowerLimits, config: RuntimeConfig)
    ensures Reduce(s, t, limits, config).Err? && !t.AcPowerChanged? ==> Told(PowerOf(s), t) == PowerOf(s)
  {
  }

  /** Over every run, with any failures: the daemon believes the last AC state it read or was told and the last
      preference it was given, and both the lock and the flag it publishes are exactly their conjunction. */
  lemma {:induction false} LockFollowsPower(w: World, events: seq<Event>)
    requires w.state.acLocked == w.state.Locked()
    ensures var r, p := Run(w, events), ToldOver(w, events, PowerOf(w.state));
            && PowerOf(r.state) == p
            && (r.state.Locked() <==> p.onAc && p.wanted)
            && (r.state.acLocked <==> p.onAc && p.wanted)
    decreases |events|
  {
    hide Next, ToldBy;
    if events != [] {
      NextTold(w, events[0]);
      LockFollowsPower(Next(w, events[0]), events[1..]);
    }
  }

  /** Which edges are lost, on limits and configuration: none, as long as the maxima nest above a whole-watt floor. */
  lemma LostIff(w: World, plugged: bool)
    requires Presets.OrderedRails(w.limits)
    ensures Lost(w, AcPowerChanged(plugged)) <==>
              w.state.Locked() && !plugged && w.state.lastDc.None? && Presets.BalancedOutOfRange(w.limits, w.config)
  {
    Presets.AcEdgeRejectedIff(w.state, plugged, w.limits, w.config);
  }

  /** Prefer on battery, then plug in: the machine locks exactly if that was the preference. */
  lemma PreferThenPlug(w: World, enabled: bool, first: Env, second: Env)
    requires w.running && w.queue == [SetAcMaxPerformance(enabled), AcPowerChanged(true)] && !w.state.acConnected
    requires NoRefusals(first)
    ensures var r := Tick(Tick(w, first), second).state;
            r.acConnected && r.acMaxPerformance == enabled && (r.Locked() <==> enabled)
  {
    var w1 := Tick(w, first);
    NextTold(w, Iterate(first));
    assert w.queue[1..] == [AcPowerChanged(true)];
    ToggleQueues(w, enabled, first);
    NextTold(w1, Iterate(second));
    PlugAccepted(w1.state, w1.limits, w1.config);
  }

  lemma ToggleQueues(w: World, enabled: bool, env: Env)
    requires w.running && w.queue != [] && w.queue[0] == SetAcMaxPerformance(enabled) && NoRefusals(env)
    ensures Tick(w, env).running && Tick(w, env).queue == w.queue[1..]
  {
    var w1 := w.(queue := w.queue[1..]);
    var out := Reduce(w.state, w.queue[0], w.limits, w.config).value;
    ProcessUnfolds(w1, w.queue[0], env, Ok(out));
    NoRefusalsNoRollback(w1.(state := Publish(out.state)), Ranges(w), out.effects, env, 0);
    HandleAllFrame(w1.(state := Publish(out.state)), Ranges(w), out.effects, env, 0);
  }

  lemma PlugAccepted(s: ProfileState, limits: PowerLimits, config: RuntimeConfig)
    ensures Reduce(s, AcPowerChanged(true), limits, config).Ok?
  {
  }
}
