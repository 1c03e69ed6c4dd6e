/** Every finite queue drains: rollbacks cost less than the transitions that cause them, so no choice of failures
    keeps the executor busy for ever. */
module Draining {
  import opened Domain
  import opened Envelope
  import opened Inference
  import opened Reducer
  import opened Executor

  const MAX_EFFECTS: nat := 15

  function Cost(t: Transition): nat {
    if t.IsSync() then 1 else MAX_EFFECTS + 1
  }

  function Weight(queue: seq<Transition>): nat {
    if queue == [] then 0 else Cost(queue[0]) + Weight(queue[1..])
  }

  lemma {:induction false} WeightOfGrowth(queue: seq<Transition>, more: seq<Transition>)
    requires queue <= more
    requires forall k :: |queue| <= k < |more| ==> more[k].IsSync()
    ensures Weight(more) == Weight(queue) + |more| - |queue|
    decreases |more|
  {
    if more != [] {
      if queue == [] {
        WeightOfGrowth([], more[1..]);
      } else {
        WeightOfGrowth(queue[1..], more[1..]);
      }
    }
  }

  lemma EffectsBounded(s: ProfileState, t: Transition, limits: PowerLimits, config: RuntimeConfig)
    requires Reduce(s, t, limits, config).Ok?
    ensures |Reduce(s, t, limits, config).value.effects| <= MAX_EFFECTS
    ensures t.IsSync() ==> Reduce(s, t, limits, config).value.effects == []
  {
    hide DeriveBoosted, InferTier, Validate, PresetWatts, CollapsePersist;
    if t.RestoreDefaults? && !s.Locked() {
      DefaultsBounded(s, limits, config);
    }
  }

  lemma DefaultsBounded(s: ProfileState, limits: PowerLimits, config: RuntimeConfig)
    requires ReduceRestoreDefaults(s, limits, config).Ok?
    ensures |ReduceRestoreDefaults(s, limits, config).value.effects| <= MAX_EFFECTS
  {
    var a := ReduceSetPreset(s, TdpPreset.Balanced, limits, config).value;
    var b := ReduceSetProfile(a.state, Performance);
    var c := ReduceCharge(b.state, DEFAULT_CHARGE_THRESHOLD);
    var d := ReduceEnableFanAuto(c.state, limits, config);
    var e := ReduceResetGpu(d.state);
    assert |a.effects| <= 4 && |b.effects| <= 4 && |c.effects| <= 2 && |d.effects| <= 2 && |e.effects| <= 2;
    WithoutPersistShrinks(a.effects + b.effects + c.effects + d.effects + e.effects);
  }

  lemma {:induction false} WithoutPersistShrinks(a: seq<Effect>)
    ensures |WithoutPersist(a)| <= |a|
  {
    if a != [] {
      WithoutPersistShrinks(a[1..]);
    }
  }

  /** One iteration always lowers the weight, whatever is refused: rollbacks cost less than what caused them. */
  lemma TickLowersWeight(w: World, env: Env)
    requires w.running && w.queue != []
    ensures Weight(Tick(w, env).queue) < Weight(w.queue)
  {
    var w1, t := w.(queue := w.queue[1..]), w.queue[0];
    if !t.ConfigReload? {
      var base, limits := Refreshed(w1, t, env), RefreshedLimits(w1, t, env);
      var result := Reduce(base, t, limits, w.config);
      ProcessUnfolds(w1, t, env, result);
      if result.Ok? {
        EffectsBounded(base, t, limits, w.config);
        var w2 := w1.(limits := limits, state := Publish(result.value.state));
        HandleAllFrame(w2, Ranges(w), result.value.effects, env, 0);
        WeightOfGrowth(w1.queue, HandleAll(w2, Ranges(w), result.value.effects, env, 0).queue);
      }
    }
  }

  /** No choice of failures keeps the executor busy for ever. */
  lemma {:induction false} QueueDrains(w: World, envs: seq<Env>)
    requires |envs| >= Weight(w.queue)
    ensures var r := Run(w, Iterations(envs)); r.queue == [] || !r.running
    decreases |envs|
  {
    if envs != [] {
      assert Iterations(envs)[0] == Iterate(envs[0]) && Iterations(envs)[1..] == Iterations(envs[1..]);
      if w.running && w.queue != [] {
        TickLowersWeight(w, envs[0]);
        QueueDrains(Tick(w, envs[0]), envs[1..]);
      } else {
        Idle(w, envs);
      }
    }
  }

  lemma {:induction false} Idle(w: World, envs: seq<Env>)
    requires w.queue == [] || !w.running
    ensures Run(w, Iterations(envs)) == w
    decreases |envs|
  {
    if envs != [] {
      assert Iterations(envs)[0] == Iterate(envs[0]) && Iterations(envs)[1..] == Iterations(envs[1..]);
      Idle(w, envs[1..]);
    }
  }

  /** Iterate until idle or stopped; the i-th iteration gets the i-th answer of the environment. */
  ghost function Drained(w: World, envs: nat -> Env, i: nat): World
    decreases Weight(w.queue)
  {
    if !w.running || w.queue == [] then w
    else
      TickLowersWeight(w, envs(i));
      Drained(Tick(w, envs(i)), envs, i + 1)
  }

  /** Draining is the run of as many iterations as it takes. */
  lemma {:induction false} DrainedIsRun(w: World, envs: nat -> Env, i: nat) returns (answers: seq<Env>)
    ensures Drained(w, envs, i) == Run(w, Iterations(answers))
    ensures |answers| <= Weight(w.queue) && forall k :: 0 <= k < |answers| ==> answers[k] == envs(i + k)
    decreases Weight(w.queue)
  {
    hide Process;
    if !w.running || w.queue == [] {
      answers := [];
    } else {
      TickLowersWeight(w, envs(i));
      var rest := DrainedIsRun(Tick(w, envs(i)), envs, i + 1);
      answers := [envs(i)] + rest;
      assert answers[0] == envs(i) && answers[1..] == rest;
      assert Iterations(answers)[0] == Iterate(envs(i)) && Iterations(answers)[1..] == Iterations(rest);
      assert forall k :: 0 < k < |answers| ==> answers[k] == rest[k - 1];
    }
  }

  /** The queue never outgrows its capacity, whatever is submitted and whatever fails. */
  lemma {:induction false} QueueBounded(w: World, events: seq<Event>)
    requires |w.queue| <= w.capacity
    ensures var r := Run(w, events); |r.queue| <= r.capacity == w.capacity
    decreases |events|
  {
    hide Next;
    if events != [] {
      NextBounded(w, events[0]);
      QueueBounded(Next(w, events[0]), events[1..]);
    }
  }

  lemma NextBounded(w: World, e: Event)
    requires |w.queue| <= w.capacity
    ensures |Next(w, e).queue| <= Next(w, e).capacity == w.capacity
    ensures e.Submit? && |w.queue| < w.capacity ==> Next(w, e).queue == w.queue + [e.t]
  {
    if e.Iterate? && w.running && w.queue != [] && !w.queue[0].ConfigReload? {
      var w1, t := w.(queue := w.queue[1..]), w.queue[0];
      var limits, s := RefreshedLimits(w1, t, e.env), Refreshed(w1, t, e.env);
      var result := Reduce(s, t, limits, w.config);
      ProcessUnfolds(w1, t, e.env, result);
      hide Reduce, HandleAll;
      if result.Ok? {
        var w2 := w1.(limits := limits, state := Publish(result.value.state));
        AllBounded(w2, Ranges(w1), result.value.effects, e.env, 0);
      }
    }
  }

  lemma {:induction false} AllBounded(w: World, ranges: TierRanges, effects: seq<Effect>, env: Env, i: nat)
    requires |w.queue| <= w.capacity
    ensures var r := HandleAll(w, ranges, effects, env, i); |r.queue| <= r.capacity == w.capacity
    decreases |effects|
  {
    if effects != [] {
      AllBounded(HandleEffect(w, ranges, effects[0], env.outcome(i), env.saved(i)), ranges, effects[1..], env, i + 1);
    }
  }
}
