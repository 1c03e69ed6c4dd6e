/** The executor as a state machine over its bounded transition queue. */
module Executor {
  import opened Units
  import opened Domain
  import opened Reducer
  import opened Hardware
  import opened Inference

  /** Everything the daemon loop owns or acts upon. `disk` is the last saved state. */
  datatype World = World(
    state: ProfileState,
    config: RuntimeConfig,
    limits: PowerLimits,
    queue: seq<Transition>,
    capacity: nat,
    caps: Caps,
    hw: Hw,
    disk: Option<ProfileState>,
    running: bool)

  /** What the environment answers during one iteration: the AC and limit reads of a resume,
      the outcome of the i-th effect, and whether the i-th effect's save reaches the disk. */
  datatype Env = Env(ac: Option<bool>, limits: Option<PowerLimits>, outcome: nat -> Outcome, saved: nat -> bool)

  /** The persisted projection: connection and derived lock flag are skipped on save. */
  function Persisted(s: ProfileState): ProfileState {
    s.(acConnected := false, acLocked := false)
  }

  /** What each GPU tier currently resolves to: the live bounds under the configured fractions. */
  function Ranges(w: World): TierRanges {
    ResolveTiers(w.hw.gpuBounds, w.config.gpuFractions)
  }

  // ---- Effects ---------------------------------------------------------

  /** Self-injection never blocks: a full queue drops the rollback. */
  function TrySend(w: World, t: Transition): World {
    if |w.queue| < w.capacity then w.(queue := w.queue + [t]) else w
  }

  function HandleEffect(w: World, ranges: TierRanges, e: Effect, o: Outcome, saved: bool): World {
    if e.PersistState? then
      if saved then w.(disk := Some(Persisted(w.state))) else w
    else
      var d := Dispatch(e, w.hw, o, w.caps, ranges);
      var w' := w.(hw := d.hw);
      if d.sync.Some? then TrySend(w', d.sync.value) else w'
  }

  /** Dispatch `effects` in order; `i` is the index of the first one within its transition. */
  function HandleAll(w: World, ranges: TierRanges, effects: seq<Effect>, env: Env, i: nat): World
    decreases |effects|
  {
    if effects == [] then w
    else HandleAll(HandleEffect(w, ranges, effects[0], env.outcome(i), env.saved(i)), ranges, effects[1..], env, i + 1)
  }

  // ---- One iteration ---------------------------------------------------

  /** Boot and resume re-read the real AC state before applying any policy. */
  function Refreshed(w: World, t: Transition, env: Env): ProfileState {
    if t.SystemResumed? && w.caps.charge && env.ac.Some? then w.state.(acConnected := env.ac.value) else w.state
  }

  function RefreshedLimits(w: World, t: Transition, env: Env): PowerLimits {
    if t.SystemResumed? && env.limits.Some? then env.limits.value else w.limits
  }

  function Publish(s: ProfileState): ProfileState {
    s.(acLocked := s.Locked())
  }

  function Process(w: World, t: Transition, env: Env): World {
    if t.ConfigReload? then w.(config := t.config)
    else
      var limits := RefreshedLimits(w, t, env);
      var w1 := w.(limits := limits);
      var w2 := match Reduce(Refreshed(w, t, env), t, limits, w.config)
                case Err(_) => w1
                case Ok(out) => HandleAll(w1.(state := Publish(out.state)), Ranges(w), out.effects, env, 0);
      w2.(running := !t.Shutdown?)
  }

  /** Take the head of the queue and process it; a stopped or idle executor does nothing. */
  function Tick(w: World, env: Env): World {
    if !w.running || w.queue == [] then w
    else Process(w.(queue := w.queue[1..]), w.queue[0], env)
  }

  // ---- Runs ------------------------------------------------------------

  /** What can happen next: a producer submits, the executor iterates, or the hardware changes by itself. */
  datatype Event = Submit(t: Transition) | Iterate(env: Env) | Disturb(hw: Hw)

  function Next(w: World, e: Event): World {
    match e
    case Submit(t) => TrySend(w, t)
    case Iterate(env) => Tick(w, env)
    case Disturb(hw) => w.(hw := hw)
  }

  function Run(w: World, events: seq<Event>): World
    decreases |events|
  {
    if events == [] then w else Run(Next(w, events[0]), events[1..])
  }

  /** The executor left alone for as many iterations as there are answers. */
  function Iterations(envs: seq<Env>): seq<Event> {
    if envs == [] then [] else [Iterate(envs[0])] + Iterations(envs[1..])
  }

  // ---- Frame lemmas ----------------------------------------------------

  /** Dispatching touches only hardware, queue and disk; the queue only grows, by rollbacks. */
  lemma {:induction false} HandleAllFrame(w: World, ranges: TierRanges, effects: seq<Effect>, env: Env, i: nat)
    ensures var r := HandleAll(w, ranges, effects, env, i);
            && r == w.(hw := r.hw, queue := r.queue, disk := r.disk)
            && r.hw.gpuBounds == w.hw.gpuBounds
            && w.queue <= r.queue
            && |r.queue| <= |w.queue| + |effects|
            && forall k :: |w.queue| <= k < |r.queue| ==> r.queue[k].IsSync()
    decreases |effects|
  {
    if effects != [] {
      HandleAllFrame(HandleEffect(w, ranges, effects[0], env.outcome(i), env.saved(i)), ranges, effects[1..], env,
                     i + 1);
    }
  }

  /** What processing does, once the reducer's verdict is known. */
  lemma ProcessUnfolds(w: World, t: Transition, env: Env, result: Result<Output>)
    requires !t.ConfigReload?
    requires result == Reduce(Refreshed(w, t, env), t, RefreshedLimits(w, t, env), w.config)
    ensures var w1 := w.(limits := RefreshedLimits(w, t, env));
            Process(w, t, env)
            == (if result.Ok?
                then HandleAll(w1.(state := Publish(result.value.state)), Ranges(w), result.value.effects, env, 0)
                else w1)
               .(running := !t.Shutdown?)
  {
  }
}
