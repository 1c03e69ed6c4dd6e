/** The daemon's main loop as an object: it owns the configuration, the cached limits, the published state and
    the queue it drains, and writes the hardware effect by effect. Every method is proved to move the abstract
    `World` exactly as the state machine in `Executor` does. */
module ExecutorLoop {
  import opened Units
  import opened Domain
  import opened Inference
  import opened Hardware
  import opened Executor
  import opened Draining
  import ReducerSteps

  class Daemon {
    const caps: Caps
    const capacity: nat

    var state: ProfileState
    var config: RuntimeConfig
    var limits: PowerLimits
    var queue: seq<Transition>
    var hw: Hw
    var disk: Option<ProfileState>
    var running: bool

    ghost function Model(): World
      reads this
    {
      World(state, config, limits, queue, capacity, caps, hw, disk, running)
    }

    constructor (initial: ProfileState, limits: PowerLimits, config: RuntimeConfig, caps: Caps, capacity: nat, hw: Hw)
      ensures Model() == World(initial, config, limits, [], capacity, caps, hw, None, true)
    {
      this.caps, this.capacity, this.hw := caps, capacity, hw;
      this.state, this.config, this.limits := initial, config, limits;
      queue, disk, running := [], None, true;
    }

    /** Enqueue without blocking: a full queue refuses. */
    method Send(t: Transition) returns (accepted: bool)
      modifies `queue
      ensures Model() == TrySend(old(Model()), t)
      ensures accepted <==> old(|queue|) < capacity
    {
      accepted := |queue| < capacity;
      if accepted {
        queue := queue + [t];
      }
    }

    /** Let one write happen; if it was refused, queue what the hardware now reports, if it reports anything. */
    method Write(d: Dispatched)
      modifies `hw, `queue
      ensures Model() == if d.sync.Some? then TrySend(old(Model()).(hw := d.hw), d.sync.value)
                         else old(Model()).(hw := d.hw)
    {
      hw := d.hw;
      if d.sync.Some? {
        var _ := Send(d.sync.value);
      }
    }

    /** Dispatch one effect, resolving a GPU tier against the live bounds and the current configuration. */
    method HandleEffect(e: Effect, o: Outcome, saved: bool)
      modifies `hw, `queue, `disk
      ensures Model() == Executor.HandleEffect(old(Model()), Ranges(old(Model())), e, o, saved)
    {
      match e
      case ApplyEnvelope(target) =>
        Write(DispatchEnvelope(target, hw, o));
      case ApplyProfile(profile) =>
        if caps.profile {
          Write(DispatchProfile(profile, hw, o));
        }
      case ApplyCharge(threshold) =>
        if caps.charge {
          Write(DispatchCharge(threshold, hw, o));
        }
      case ApplyCurve(selection) =>
        if caps.curve {
          Write(DispatchCurve(Some(FanTables.Curves(selection)), hw, o));
        }
      case DropCurve =>
        if caps.curve {
          Write(DispatchCurve(None, hw, o));
        }
      case ApplyGpu(tier) =>
        if caps.gpu && !o.Skipped? {
          var range := RangeForTier(tier, hw.gpuBounds, config.gpuFractions);
          Write(DispatchGpu(Some(range), hw, o));
        }
      case DropGpu =>
        if caps.gpu {
          Write(DispatchGpu(None, hw, o));
        }
      case PersistState =>
        if saved {
          disk := Some(Persisted(state));
        }
    }

    /** Boot and resume re-read the AC state and the power limits; an unreadable one keeps its last known value. */
    method Refresh(t: Transition, env: Env) returns (current: ProfileState)
      modifies `limits
      ensures current == Refreshed(old(Model()), t, env)
      ensures Model() == old(Model()).(limits := RefreshedLimits(old(Model()), t, env))
    {
      current := state;
      if t.SystemResumed? {
        if caps.charge && env.ac.Some? {
          current := current.(acConnected := env.ac.value);
        }
        if env.limits.Some? {
          limits := env.limits.value;
        }
      }
    }

    /** One iteration on a received transition. Publication comes before the first effect, so that a save among
        the effects stores the new state. */
    method Process(t: Transition, env: Env)
      modifies this
      ensures Model() == Executor.Process(old(Model()), t, env)
    {
      if t.ConfigReload? {
        config := t.config;
        return;
      }
      ghost var before := Model();
      var current := Refresh(t, env);
      var result := ReducerSteps.Reduce(current, t, limits, config);
      ProcessUnfolds(before, t, env, result);
      hide Reducer.Reduce, HandleAll, Refreshed, RefreshedLimits, Executor.Process;
      match result {
        case Err(_) =>
        case Ok(out) =>
          state := out.state.(acLocked := out.state.acConnected && out.state.acMaxPerformance);
          HandleEffects(out.effects, env);
      }
      running := !t.Shutdown?;
    }

    /** The effects of one transition, in order. */
    method HandleEffects(effects: seq<Effect>, env: Env)
      modifies `hw, `queue, `disk
      ensures Model() == HandleAll(old(Model()), Ranges(old(Model())), effects, env, 0)
    {
      ghost var before := Model();
      for i := 0 to |effects|
        invariant HandleAll(Model(), Ranges(before), effects[i..], env, i)
                    == HandleAll(before, Ranges(before), effects, env, 0)
        invariant Ranges(Model()) == Ranges(before)
      {
        assert effects[i..][0] == effects[i] && effects[i..][1..] == effects[i + 1..];
        HandleAllFrame(Model(), Ranges(before), [effects[i]], env, i);
        assert [effects[i]][1..] == [];
        HandleEffect(effects[i], env.outcome(i), env.saved(i));
      }
    }

    /** Receive and process until the queue is empty or a shutdown has been processed. */
    method Run(envs: nat -> Env)
      modifies this
      ensures Model() == Drained(old(Model()), envs, 0)
      ensures queue == [] || !running
    {
      ghost var before := Model();
      var i := 0;
      while running && queue != []
        invariant Drained(Model(), envs, i) == Drained(before, envs, 0)
        decreases Weight(queue)
      {
        TickLowersWeight(Model(), envs(i));
        var t := queue[0];
        queue := queue[1..];
        Process(t, envs(i));
        i := i + 1;
      }
    }
  }
}
