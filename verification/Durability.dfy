/** Durability: when the saved file keeps up with the published state, transition by transition and over runs. */
module Durability {
  import opened Units
  import opened Domain
  import opened Envelope
  import opened Inference
  import opened Reducer
  import opened Executor
  import opened AcLock

  /** Resume drops an abnormal GPU range from memory without saving. */
  predicate ForgetsGpu(s: ProfileState) {
    !s.Locked() && s.lastDc.None? && s.gpu.Some? && s.gpu.value.Unmanaged?
  }

  /** Unplugging into the quiet defaults re-engages auto-cooling, but saves only if the target moves. */
  predicate UnplugForgets(s: ProfileState, limits: PowerLimits, config: RuntimeConfig) {
    && s.acConnected && s.acMaxPerformance && s.lastDc.None? && !s.fanFollows
    && QuietFits(limits, config) && s.target == QuietTarget(limits, config)
  }

  /** What a save keeps: every field but the connection and the flag derived from it. Two states save alike exactly if
      they agree on all the others, and a saved state claims neither. */
  lemma SavedFields(s: ProfileState, t: ProfileState)
    ensures Persisted(s) == Persisted(t) <==>
              && s.target == t.target && s.profile == t.profile && s.charge == t.charge && s.fanFollows == t.fanFollows
              && s.lastDc == t.lastDc && s.acMaxPerformance == t.acMaxPerformance && s.curve == t.curve
              && s.gpu == t.gpu && s.gpuFollows == t.gpuFollows
    ensures Persisted(Persisted(s)) == Persisted(s) && !Persisted(s).acConnected && !Persisted(s).acLocked
  {
  }

  predicate Accounted(s: ProfileState, o: Output) {
    Persisted(o.state) == Persisted(s) || PersistState in o.effects
  }

  lemma DefaultsAccounted(s: ProfileState, limits: PowerLimits, config: RuntimeConfig)
    requires ReduceRestoreDefaults(s, limits, config).Ok?
    ensures Accounted(s, ReduceRestoreDefaults(s, limits, config).value)
  {
  }

  lemma AcEdgeAccounted(s: ProfileState, plugged: bool, limits: PowerLimits, config: RuntimeConfig)
    ensures plugged ==> Accounted(s, ReducePlug(s, limits, config))
    ensures var r := ReduceUnplug(s, limits, config);
            s.acConnected && !plugged && r.Ok? ==> (Accounted(s, r.value) <==> !UnplugForgets(s, limits, config))
    ensures UnplugForgets(s, limits, config) ==> s.acConnected
  {
  }

  /** Whatever a transition changes on the persisted fields it also saves, with exactly two exceptions. */
  lemma ReduceAccounted(s: ProfileState, t: Transition, limits: PowerLimits, config: RuntimeConfig)
    requires !t.IsSync()
    requires Reduce(s, t, limits, config).Ok?
    ensures Accounted(s, Reduce(s, t, limits, config).value) <==>
            !(t == SystemResumed && ForgetsGpu(s)) && !(t == AcPowerChanged(false) && UnplugForgets(s, limits, config))
  {
    hide InferTier, DeriveBoosted, Validate, PresetWatts, CollapsePersist, ReducePlug, ReduceUnplug, UnplugForgets,
         ReduceRestoreDefaults;
    if t.RestoreDefaults? && !s.Locked() {
      DefaultsAccounted(s, limits, config);
    } else if t.AcPowerChanged? {
      AcEdgeAccounted(s, t.plugged, limits, config);
    }
  }

  // ---- The disk ----------------------------------------------------------

  ghost predicate AllSaved(env: Env) {
    forall i: nat :: env.saved(i)
  }

  lemma {:induction false} HandleAllSaves(w: World, ranges: TierRanges, effects: seq<Effect>, env: Env, i: nat)
    requires AllSaved(env)
    ensures HandleAll(w, ranges, effects, env, i).disk
         == if PersistState in effects then Some(Persisted(w.state)) else w.disk
    decreases |effects|
  {
    if effects != [] {
      assert env.saved(i);
      assert effects == [effects[0]] + effects[1..];
      HandleAllSaves(HandleEffect(w, ranges, effects[0], env.outcome(i), env.saved(i)), ranges, effects[1..], env,
                     i + 1);
    }
  }

  /** The other way round: with every save failing the file stays what it was, whatever the list asks. */
  lemma {:induction false} HandleAllKeepsDisk(w: World, ranges: TierRanges, effects: seq<Effect>, env: Env, i: nat)
    requires forall k: nat :: !env.saved(k)
    ensures HandleAll(w, ranges, effects, env, i).disk == w.disk
    decreases |effects|
  {
    if effects != [] {
      assert !env.saved(i);
      HandleAllKeepsDisk(HandleEffect(w, ranges, effects[0], env.outcome(i), env.saved(i)), ranges, effects[1..], env,
                         i + 1);
    }
  }

  /** Over a whole run of failing saves the file on disk is the one from before. */
  lemma {:induction false} FailedSavesKeepFile(w: World, events: seq<Event>)
    requires forall e :: e in events && e.Iterate? ==> forall k: nat :: !e.env.saved(k)
    ensures Run(w, events).disk == w.disk
    decreases |events|
  {
    if events != [] {
      assert events[0] in events;
      FailedSaveKeepsFile(w, events[0]);
      hide Next;
      FailedSavesKeepFile(Next(w, events[0]), events[1..]);
    }
  }

  lemma FailedSaveKeepsFile(w: World, e: Event)
    requires e.Iterate? ==> forall k: nat :: !e.env.saved(k)
    ensures Next(w, e).disk == w.disk
  {
    if e.Iterate? && w.running && w.queue != [] && !w.queue[0].ConfigReload? {
      var w1, t := w.(queue := w.queue[1..]), w.queue[0];
      var limits := RefreshedLimits(w1, t, e.env);
      var result := Reduce(Refreshed(w1, t, e.env), t, limits, w.config);
      ProcessUnfolds(w1, t, e.env, result);
      if result.Ok? {
        hide Reduce, HandleAll;
        var w2 := w1.(limits := limits, state := Publish(result.value.state));
        HandleAllKeepsDisk(w2, Ranges(w1), result.value.effects, e.env, 0);
      }
    }
  }

  predicate Durable(w: World) {
    w.disk == Some(Persisted(w.state))
  }

  lemma ProcessKeepsDurable(w: World, t: Transition, env: Env)
    requires !t.IsSync() && AllSaved(env)
    requires Durable(w)
    requires var s := Refreshed(w, t, env);
             && !(t == SystemResumed && ForgetsGpu(s))
             && !(t == AcPowerChanged(false) && UnplugForgets(s, w.limits, w.config))
    ensures Durable(Process(w, t, env))
  {
    if !t.ConfigReload? {
      var base, limits := Refreshed(w, t, env), RefreshedLimits(w, t, env);
      var result := Reduce(base, t, limits, w.config);
      ProcessUnfolds(w, t, env, result);
      if result.Ok? {
        ReduceAccounted(base, t, limits, w.config);
        OutputKeepsDurable(w.(limits := limits), Ranges(w), base, result.value, env);
      }
    }
  }

  lemma OutputKeepsDurable(w: World, ranges: TierRanges, base: ProfileState, out: Output, env: Env)
    requires AllSaved(env) && Accounted(base, out)
    requires w.disk == Some(Persisted(base))
    ensures var r := HandleAll(w.(state := Publish(out.state)), ranges, out.effects, env, 0);
            r.disk == Some(Persisted(r.state))
  {
    HandleAllSaves(w.(state := Publish(out.state)), ranges, out.effects, env, 0);
    HandleAllFrame(w.(state := Publish(out.state)), ranges, out.effects, env, 0);
  }

  /** A clean shutdown makes the file current from wherever it was. */
  lemma ShutdownMakesDurable(w: World, env: Env)
    requires env.saved(0)
    ensures var r := Process(w, Shutdown, env); Durable(r) && !r.running
  {
  }

  // ---- Runs --------------------------------------------------------------

  predicate NoUnmanaged(s: ProfileState) {
    && !(s.gpu.Some? && s.gpu.value.Unmanaged?)
    && !(s.lastDc.Some? && s.lastDc.value.gpu.Some? && s.lastDc.value.gpu.value.Unmanaged?)
  }

  lemma ReduceKeepsManaged(s: ProfileState, t: Transition, limits: PowerLimits, config: RuntimeConfig)
    requires !t.IsSync() && NoUnmanaged(s)
    requires Reduce(s, t, limits, config).Ok?
    ensures NoUnmanaged(Reduce(s, t, limits, config).value.state)
  {
    hide InferTier, DeriveBoosted, Validate, PresetWatts, CollapsePersist;
  }

  predicate Spread(limits: PowerLimits) {
    AsWatts(limits.splMin) < AsWatts(limits.splMax)
  }

  /** While the lock pins the ceiling, the quiet defaults always move the target. */
  lemma PinnedUnplugSaves(s: ProfileState, limits: PowerLimits, config: RuntimeConfig)
    requires Pinned(s, limits) && Spread(limits)
    ensures !UnplugForgets(s, limits, config)
  {
  }

  predicate DurableInv(w: World) {
    Durable(w) && Pinned(w.state, w.limits) && NoUnmanaged(w.state) && Spread(w.limits)
  }

  ghost predicate Faithful(e: Event) {
    match e
    case Submit(t) => !t.IsSync()
    case Iterate(env) => NoRefusals(env) && AllSaved(env) && (env.limits.Some? ==> Spread(env.limits.value))
    case Disturb(_) => true
  }

  lemma IterateKeepsDurable(w: World, env: Env)
    requires w.running && w.queue != [] && !w.queue[0].IsSync()
    requires DurableInv(w) && Faithful(Iterate(env))
    ensures DurableInv(Tick(w, env)) && Tick(w, env).queue == w.queue[1..]
  {
    var w1, t := w.(queue := w.queue[1..]), w.queue[0];
    var base, limits := Refreshed(w1, t, env), RefreshedLimits(w1, t, env);
    if t.AcPowerChanged? {
      PinnedUnplugSaves(w.state, w.limits, w.config);
    }
    ProcessKeepsDurable(w1, t, env);
    ProcessKeepsPins(w1, t, env);
    if !t.ConfigReload? {
      ProcessStateOf(w1, t, env);
      if Reduce(base, t, limits, w.config).Ok? {
        ReduceKeepsManaged(base, t, limits, w.config);
      }
    }
  }

  lemma ProcessStateOf(w: World, t: Transition, env: Env)
    requires !t.ConfigReload?
    ensures var result := Reduce(Refreshed(w, t, env), t, RefreshedLimits(w, t, env), w.config);
            var r := Process(w, t, env);
            && r.limits == RefreshedLimits(w, t, env)
            && r.state == if result.Ok? then Publish(result.value.state) else w.state
  {
    var result := Reduce(Refreshed(w, t, env), t, RefreshedLimits(w, t, env), w.config);
    ProcessUnfolds(w, t, env, result);
    if result.Ok? {
      HandleAllFrame(w.(limits := RefreshedLimits(w, t, env), state := Publish(result.value.state)), Ranges(w),
                     result.value.effects, env, 0);
    }
  }

  /** In every run without refused writes and with saves that succeed, the file equals the persisted part of the
      published state after each iteration, so a restart resumes from exactly there. */
  lemma {:induction false} DurableRun(w: World, events: seq<Event>)
    requires DurableInv(w)
    requires forall t :: t in w.queue ==> !t.IsSync()
    requires forall e :: e in events ==> Faithful(e)
    ensures DurableInv(Run(w, events))
    decreases |events|
  {
    if events != [] {
      assert Faithful(events[0]);
      if events[0].Iterate? && w.running && w.queue != [] {
        IterateKeepsDurable(w, events[0].env);
      }
      DurableRun(Next(w, events[0]), events[1..]);
    }
  }
}
