/** Rollback: whichever writes are refused, draining the injected `Sync*` transitions brings the
    published state back to what the hardware reads. */
module Rollback {
  import opened Units
  import opened Domain
  import opened FanTables
  import opened Inference
  import opened Reducer
  import opened Hardware
  import opened Executor
  import opened Settling
  import opened Coherence
  import opened WriteOnce
  import opened Refusals

  // ---- Believed state: the published state with the pending rollbacks applied ----

  function Believe(s: ProfileState, sync: Transition): ProfileState
    requires sync.IsSync()
  {
    match sync
    case SyncPowerTarget(found) => s.(target := found)
    case SyncPlatformProfile(found) => s.(profile := found)
    case SyncChargeThreshold(found) => s.(charge := found)
    case SyncFanCurve(found) => s.(curve := found)
    case SyncGpuClockRange(found) => s.(gpu := if found.Some? then Some(Unmanaged(found.value)) else None)
  }

  function BelieveAll(s: ProfileState, syncs: seq<Transition>): ProfileState
    requires forall t :: t in syncs ==> t.IsSync()
    decreases |syncs|
  {
    if syncs == [] then s else BelieveAll(Believe(s, syncs[0]), syncs[1..])
  }

  /** A rollback is the reducer's own `Sync*` step, never gated and never owing an effect. */
  lemma SyncIsBelief(s: ProfileState, t: Transition, limits: PowerLimits, config: RuntimeConfig)
    requires t.IsSync()
    ensures Reduce(s, t, limits, config) == Ok(Output(Believe(s, t), []))
  {
  }

  // ---- Answers ---------------------------------------------------------------

  /** Every answer is usable: refusals read back, and the GPU range and the registers are representable. */
  predicate Answers(o: Outcome) {
    !o.Skipped? && (o.Refused? ==> o.readable && ReadTarget(o.residue.regs).Ok?)
  }

  ghost predicate AllAnswer(env: Env) {
    forall i: nat :: Answers(env.outcome(i))
  }

  function Believed(s: ProfileState, d: Dispatched): ProfileState
    requires d.sync.Some? ==> d.sync.value.IsSync()
  {
    if d.sync.Some? then Believe(s, d.sync.value) else s
  }

  // ---- The invariant -------------------------------------------------------

  /** On every rail still to be written, belief and goal mean the same. */
  predicate SameAhead(b: ProfileState, c: Setting, once: Dirty) {
    && (once.profile ==> b.profile == c.goal.profile)
    && (once.envelope ==> SameTarget(b.target, c.goal.target))
    && (once.charge ==> b.charge == c.goal.charge)
    && (once.curve ==> CurveValue(b.curve) == CurveValue(c.goal.curve))
    && (once.gpu ==> RangeValue(b.gpu, c.ranges) == RangeValue(c.goal.gpu, c.ranges))
  }

  /** Rails still to be written twice are as they were at the start. */
  predicate Untouched(hw: Hw, c: Setting, twice: Dirty) {
    && (twice.profile ==> hw.profile == c.hw.profile)
    && (twice.envelope ==> hw.regs == c.hw.regs)
    && (twice.charge ==> hw.charge == c.hw.charge)
    && (twice.curve ==> hw.curve == c.hw.curve)
    && (twice.gpu ==> hw.gpu == c.hw.gpu)
  }

  /** Belief and hardware agree on every rail already paid for, the others will still be written, and a profile write to
      come can do no harm. */
  predicate Rolling(b: ProfileState, hw: Hw, caps: Caps, d: Dirty, l: Later, c: Setting) {
    && AgreesOff(d, b, hw, caps, c.ranges, false)
    && SameAhead(b, c, l.once)
    && Untouched(hw, c, l.twice)
    && Within(d, l.once) && Within(l.twice, l.once)
    && (l.once.profile && c.goal.curve.None? ==> b.curve.None?)
  }

  predicate RollsOn(hw: Hw, caps: Caps, c: Setting, b: ProfileState, e: Effect, o: Outcome, d: Dirty, l: Later) {
    var r := Dispatch(e, hw, o, caps, c.ranges);
    && (r.sync.Some? ==> r.sync.value.IsSync())
    && Rolling(Believed(b, r), r.hw, caps, SettleOne(c.goal, e, d), l, c)
  }

  /** What one step may assume. */
  ghost predicate Step(hw: Hw, caps: Caps, c: Setting, b: ProfileState, e: Effect, o: Outcome, d: Dirty, l: Later) {
    && Answers(o) && Fits(e, hw, o, c.ranges, c.manner) && FirmOne(e, l, c)
    && Rolling(b, hw, caps, d, Before(e, l), c)
    && Within(SettleOne(c.goal, e, d), l.once) && Within(l.twice, l.once)
  }

  // ---- One effect ------------------------------------------------------------

  /** A refusal on a rail that is written again leaves what the goal means. */
  lemma RefusalHarmless(hw: Hw, caps: Caps, c: Setting, b: ProfileState, e: Effect, o: Outcome, d: Dirty, l: Later)
    requires Step(hw, caps, c, b, e, o, d, l) && o.Refused?
    ensures Meet(Rail(e), l.once) != CLEAN ==> Harmless(e, o.residue, c.goal, c.ranges)
  {
    hide Harmless, AgreesOff, SameAhead, LeavesCurve, LeavesRange, PartialWrite;
    if Meet(Rail(e), l.once) != CLEAN {
      assert Leaves(e, c.hw, o.residue, c.ranges, c.manner);
    }
  }

  lemma RollProfile(hw: Hw, caps: Caps, c: Setting, b: ProfileState, e: Effect, o: Outcome, d: Dirty, l: Later)
    requires e.ApplyProfile? && Step(hw, caps, c, b, e, o, d, l)
    ensures RollsOn(hw, caps, c, b, e, o, d, l)
  {
    hide SameTarget, Holds, GpuMatches, RangeValue, AllHarmless, ReadTarget, DispatchEnvelope, DispatchCharge,
         DispatchCurve, DispatchGpu;
    if o.Refused? {
      RefusalHarmless(hw, caps, c, b, e, o, d, l);
    }
  }

  lemma RollEnvelope(hw: Hw, caps: Caps, c: Setting, b: ProfileState, e: Effect, o: Outcome, d: Dirty, l: Later)
    requires e.ApplyEnvelope? && Step(hw, caps, c, b, e, o, d, l)
    ensures RollsOn(hw, caps, c, b, e, o, d, l)
  {
    hide CurveMatches, CurveValue, GpuMatches, RangeValue, AllHarmless, ReadTarget, Write, Holds, SameTarget;
    if o.Refused? {
      RefusalHarmless(hw, caps, c, b, e, o, d, l);
    }
    EnvelopeDispatched(e.target, hw, o, b.target);
  }

  lemma EnvelopeDispatched(t: PowerTarget, hw: Hw, o: Outcome, believed: PowerTarget)
    requires Answers(o)
    ensures var r := DispatchEnvelope(t, hw, o);
            if o.Refused?
            then r.sync == Some(SyncPowerTarget(ReadTarget(o.residue.regs).value))
              && Holds(r.hw.regs, r.sync.value.realTarget)
            else r.sync.None? && (SameTarget(believed, t) ==> Holds(r.hw.regs, believed))
  {
  }

  lemma RollCharge(hw: Hw, caps: Caps, c: Setting, b: ProfileState, e: Effect, o: Outcome, d: Dirty, l: Later)
    requires (e.ApplyCharge? || e.PersistState?) && Step(hw, caps, c, b, e, o, d, l)
    ensures RollsOn(hw, caps, c, b, e, o, d, l)
  {
    hide SameTarget, Holds, CurveMatches, CurveValue, GpuMatches, RangeValue, AllHarmless, ReadTarget;
    if o.Refused? {
      RefusalHarmless(hw, caps, c, b, e, o, d, l);
    }
  }

  /** What dispatching a curve write does to the one rail it concerns. */
  lemma CurveDispatched(hw: Hw, caps: Caps, c: Setting, e: Effect, o: Outcome, b: ProfileState, d: Dirty)
    requires Answers(o) && (e.ApplyCurve? || e.DropCurve?)
    requires CurveValue(b.curve) == CurveValue(c.goal.curve)
    ensures var r := Dispatch(e, hw, o, caps, c.ranges);
            && (r.sync.Some? ==> r.sync.value.IsSync())
            && r.hw == hw.(curve := r.hw.curve)
            && var after := Believed(b, r);
               && after == b.(curve := after.curve)
               && (SettleOne(c.goal, e, d).curve || (caps.curve ==> CurveMatches(after.curve, r.hw.curve)))
               && CurveValue(after.curve) == (if r.sync.Some? then o.residue.curve else CurveValue(c.goal.curve))
               && (r.sync.Some? ==> o.Refused?)
  {
    hide DispatchCurve, Believe, Curves, ReadCurve;
    CurveWritten(if e.ApplyCurve? then Some(Curves(e.selection)) else None, hw, o, b);
    StoredCurveReadsBack(o);
  }

  lemma CurveWritten(curve: Option<CurvePair>, hw: Hw, o: Outcome, b: ProfileState)
    requires Answers(o)
    ensures DispatchCurve(curve, hw, o)
         == Dispatched(hw.(curve := if o.Refused? then o.residue.curve else curve),
                       if o.Refused? then Some(SyncFanCurve(ReadCurve(o.residue.curve))) else None)
    ensures o.Refused? ==>
              Believe(b, SyncFanCurve(ReadCurve(o.residue.curve))) == b.(curve := ReadCurve(o.residue.curve))
  {
    hide ReadCurve;
  }

  lemma StoredCurveReadsBack(o: Outcome)
    ensures o.Refused? ==> CurveValue(ReadCurve(o.residue.curve)) == o.residue.curve
  {
    if o.Refused? && o.residue.curve.Some? {
      NameReadsBack(o.residue.curve.value);
    }
  }

  lemma NameReadsBack(stored: CurvePair)
    ensures Curves(NameOf(stored)) == stored
  {
  }

  lemma RollingCurve(hw: Hw, caps: Caps, c: Setting, b: ProfileState, d: Dirty, e: Effect, l: Later,
                     curve: Option<FanSelection>, stored: Option<CurvePair>, dirty: bool)
    requires (e.ApplyCurve? || e.DropCurve?) && Rolling(b, hw, caps, d, Before(e, l), c) && FirmOne(e, l, c)
    requires dirty || (caps.curve ==> CurveMatches(curve, stored))
    requires l.once.curve ==> CurveValue(curve) == CurveValue(c.goal.curve)
    requires (dirty ==> l.once.curve) && Within(l.twice, l.once)
    requires Within(d.(curve := false), l.once)
    ensures Rolling(b.(curve := curve), hw.(curve := stored), caps, d.(curve := dirty), l, c)
  {
    hide SameTarget, Holds, CurveMatches, CurveValue, GpuMatches, RangeValue, AllHarmless;
  }

  lemma RollCurve(hw: Hw, caps: Caps, c: Setting, b: ProfileState, e: Effect, o: Outcome, d: Dirty, l: Later)
    requires (e.ApplyCurve? || e.DropCurve?) && Step(hw, caps, c, b, e, o, d, l)
    ensures RollsOn(hw, caps, c, b, e, o, d, l)
  {
    hide SameTarget, Holds, CurveValue, GpuMatches, RangeValue, AllHarmless, Dispatch, Believe, AgreesOff, Untouched;
    if o.Refused? {
      RefusalHarmless(hw, caps, c, b, e, o, d, l);
    }
    CurveDispatched(hw, caps, c, e, o, b, d);
    var r := Dispatch(e, hw, o, caps, c.ranges);
    RollingCurve(hw, caps, c, b, d, e, l, Believed(b, r).curve, r.hw.curve, SettleOne(c.goal, e, d).curve);
  }

  lemma GpuWritten(range: Option<GpuRange>, hw: Hw, o: Outcome, b: ProfileState)
    requires Answers(o)
    ensures DispatchGpu(range, hw, o)
         == Dispatched(hw.(gpu := if o.Refused? then o.residue.gpu else range),
                       if o.Refused? then Some(SyncGpuClockRange(o.residue.gpu)) else None)
    ensures o.Refused? ==>
              Believe(b, SyncGpuClockRange(o.residue.gpu))
              == b.(gpu := if o.residue.gpu.Some? then Some(Unmanaged(o.residue.gpu.value)) else None)
  {
  }

  lemma RangeReadsBack(o: Outcome, ranges: TierRanges)
    ensures o.Refused? ==>
              RangeValue(if o.residue.gpu.Some? then Some(Unmanaged(o.residue.gpu.value)) else None, ranges)
                  == o.residue.gpu
  {
  }

  /** What dispatching a GPU write does to the one rail it concerns. */
  lemma GpuDispatched(hw: Hw, caps: Caps, c: Setting, e: Effect, o: Outcome, b: ProfileState, d: Dirty)
    requires Answers(o) && (e.ApplyGpu? || e.DropGpu?)
    requires RangeValue(b.gpu, c.ranges) == RangeValue(c.goal.gpu, c.ranges)
    ensures var r := Dispatch(e, hw, o, caps, c.ranges);
            && (r.sync.Some? ==> r.sync.value.IsSync())
            && r.hw == hw.(gpu := r.hw.gpu)
            && var after := Believed(b, r);
               && after == b.(gpu := after.gpu)
               && (SettleOne(c.goal, e, d).gpu || (caps.gpu ==> GpuMatches(after.gpu, r.hw.gpu, c.ranges)))
               && RangeValue(after.gpu, c.ranges)
                    == (if r.sync.Some? then o.residue.gpu else RangeValue(c.goal.gpu, c.ranges))
               && (r.sync.Some? ==> o.Refused?)
  {
    hide DispatchGpu, Believe;
    GpuWritten(if e.ApplyGpu? then Some(c.ranges.Of(e.tier)) else None, hw, o, b);
    RangeReadsBack(o, c.ranges);
  }

  lemma RollingGpu(hw: Hw, caps: Caps, c: Setting, b: ProfileState, d: Dirty, e: Effect, l: Later,
                   gpu: Option<GpuSelection>, range: Option<GpuRange>, dirty: bool)
    requires (e.ApplyGpu? || e.DropGpu?) && Rolling(b, hw, caps, d, Before(e, l), c) && FirmOne(e, l, c)
    requires dirty || (caps.gpu ==> GpuMatches(gpu, range, c.ranges))
    requires l.once.gpu ==> RangeValue(gpu, c.ranges) == RangeValue(c.goal.gpu, c.ranges)
    requires (dirty ==> l.once.gpu) && Within(l.twice, l.once)
    requires Within(d.(gpu := false), l.once)
    ensures Rolling(b.(gpu := gpu), hw.(gpu := range), caps, d.(gpu := dirty), l, c)
  {
    hide SameTarget, Holds, CurveMatches, CurveValue, GpuMatches, RangeValue, AllHarmless;
  }

  lemma RollGpu(hw: Hw, caps: Caps, c: Setting, b: ProfileState, e: Effect, o: Outcome, d: Dirty, l: Later)
    requires (e.ApplyGpu? || e.DropGpu?) && Step(hw, caps, c, b, e, o, d, l)
    ensures RollsOn(hw, caps, c, b, e, o, d, l)
  {
    hide SameTarget, Holds, CurveMatches, CurveValue, RangeValue, AllHarmless, Dispatch, Believe, AgreesOff, Untouched;
    if o.Refused? {
      RefusalHarmless(hw, caps, c, b, e, o, d, l);
    }
    GpuDispatched(hw, caps, c, e, o, b, d);
    var r := Dispatch(e, hw, o, caps, c.ranges);
    RollingGpu(hw, caps, c, b, d, e, l, Believed(b, r).gpu, r.hw.gpu, SettleOne(c.goal, e, d).gpu);
  }

  /** One effect, landed or refused, keeps belief and hardware in step on every rail already paid for. */
  lemma RollOne(hw: Hw, caps: Caps, c: Setting, b: ProfileState, e: Effect, o: Outcome, d: Dirty, l: Later)
    requires Step(hw, caps, c, b, e, o, d, l)
    ensures RollsOn(hw, caps, c, b, e, o, d, l)
  {
    hide Step, RollsOn;
    if e.ApplyProfile? {
      RollProfile(hw, caps, c, b, e, o, d, l);
    } else if e.ApplyEnvelope? {
      RollEnvelope(hw, caps, c, b, e, o, d, l);
    } else if e.ApplyCurve? || e.DropCurve? {
      RollCurve(hw, caps, c, b, e, o, d, l);
    } else if e.ApplyGpu? || e.DropGpu? {
      RollGpu(hw, caps, c, b, e, o, d, l);
    } else {
      RollCharge(hw, caps, c, b, e, o, d, l);
    }
  }

  // ---- A whole list ------------------------------------------------------------

  lemma DirtyStep(goal: ProfileState, e: Effect, d: Dirty, l: Later)
    requires Within(SettleOne(goal, e, d), l.once) && Within(l.twice, l.once)
    ensures Within(d, Before(e, l).once) && Within(Before(e, l).twice, Before(e, l).once)
  {
  }

  /** What a list settles it still has to write. */
  lemma {:induction false} DirtyIsAhead(goal: ProfileState, effects: seq<Effect>, d: Dirty)
    requires Settle(goal, effects, d) == CLEAN
    ensures Within(d, Ahead(effects, NEVER).once)
    ensures Within(Ahead(effects, NEVER).twice, Ahead(effects, NEVER).once)
    decreases |effects|
  {
    hide SettleOne, Before;
    if effects != [] {
      DirtyIsAhead(goal, effects[1..], SettleOne(goal, effects[0], d));
      DirtyStep(goal, effects[0], d, Ahead(effects[1..], NEVER));
    }
  }

  lemma NothingLeft(b: ProfileState, hw: Hw, caps: Caps, d: Dirty, c: Setting)
    requires Rolling(b, hw, caps, d, NEVER, c)
    ensures ReadsBack(b, hw, caps, c.ranges)
  {
  }

  lemma HandleEffectIsDispatch(w: World, ranges: TierRanges, e: Effect, o: Outcome, saved: bool)
    requires |w.queue| < w.capacity || Dispatch(e, w.hw, o, w.caps, ranges).sync.None?
    ensures var next, r := HandleEffect(w, ranges, e, o, saved), Dispatch(e, w.hw, o, w.caps, ranges);
            && next.hw == r.hw && next.caps == w.caps && next.capacity == w.capacity
            && next.queue == w.queue + (if r.sync.Some? then [r.sync.value] else [])
  {
  }

  lemma SavingIsSilent(e: Effect, hw: Hw, o: Outcome, caps: Caps, ranges: TierRanges)
    ensures e.PersistState? ==> Dispatch(e, hw, o, caps, ranges).sync.None?
  {
  }

  /** The first effect of a list: at most one rollback, and the invariant for the rest. */
  lemma RollStep(w: World, c: Setting, b: ProfileState, effects: seq<Effect>, o: Outcome, saved: bool, d: Dirty)
    returns (first: seq<Transition>)
    requires effects != [] && Answers(o) && Fits(effects[0], w.hw, o, c.ranges, c.manner)
    requires Firm(effects, NEVER, c) && Settle(c.goal, effects, d) == CLEAN
    requires Rolling(b, w.hw, w.caps, d, Ahead(effects, NEVER), c)
    requires |w.queue| + Writes(effects) <= w.capacity
    ensures |first| <= 1 && forall t :: t in first ==> t.IsSync()
    ensures var e := effects[0];
            var next := HandleEffect(w, c.ranges, e, o, saved);
            && next.queue == w.queue + first && next.caps == w.caps && next.capacity == w.capacity
            && next.hw == Dispatch(e, w.hw, o, w.caps, c.ranges).hw
            && |first| + Writes(effects[1..]) <= Writes(effects)
            && Rolling(BelieveAll(b, first), next.hw, w.caps, SettleOne(c.goal, e, d), Ahead(effects[1..], NEVER), c)
  {
    var e, l := effects[0], Ahead(effects[1..], NEVER);
    DirtyIsAhead(c.goal, effects[1..], SettleOne(c.goal, e, d));
    hide Dispatch, SettleOne, Answers, Fits, FirmOne, Rolling, Believe, Before, Within;
    var r := Dispatch(e, w.hw, o, w.caps, c.ranges);
    RollOne(w.hw, w.caps, c, b, e, o, d, l);
    SavingIsSilent(e, w.hw, o, w.caps, c.ranges);
    HandleEffectIsDispatch(w, c.ranges, e, o, saved);
    first := if r.sync.Some? then [r.sync.value] else [];
    assert r.sync.Some? ==> first[1..] == [];
  }

  lemma BelieveFirst(b: ProfileState, first: seq<Transition>, rest: seq<Transition>)
    requires |first| <= 1 && (forall t :: t in first ==> t.IsSync()) && (forall t :: t in rest ==> t.IsSync())
    ensures BelieveAll(b, first + rest) == BelieveAll(BelieveAll(b, first), rest)
  {
    if first == [] {
      assert first + rest == rest;
    } else {
      assert (first + rest)[1..] == rest && first[1..] == [];
    }
  }

  /** Whatever subset of the writes of a firm list is refused, in the manner it is firm against, the published state
      with all rollbacks applied is what the hardware reads. */
  lemma {:induction false} RollAll(w: World, c: Setting, b: ProfileState, effects: seq<Effect>, env: Env, i: nat,
                                   d: Dirty)
    returns (syncs: seq<Transition>)
    requires AllAnswer(env) && Obeys(w.hw, w.caps, c.ranges, effects, env, i, c.manner)
    requires Firm(effects, NEVER, c) && Settle(c.goal, effects, d) == CLEAN
    requires Rolling(b, w.hw, w.caps, d, Ahead(effects, NEVER), c)
    requires |w.queue| + Writes(effects) <= w.capacity
    ensures |syncs| <= Writes(effects) && forall t :: t in syncs ==> t.IsSync()
    ensures var r := HandleAll(w, c.ranges, effects, env, i);
            && r.queue == w.queue + syncs
            && ReadsBack(BelieveAll(b, syncs), r.hw, w.caps, c.ranges)
    decreases |effects|
  {
    hide Dispatch, SettleOne, Answers, ReadsBack, Rolling, Believe, HandleEffect, Fits, FirmOne, Before;
    if effects == [] {
      NothingLeft(b, w.hw, w.caps, d, c);
      syncs := [];
    } else {
      var e, o := effects[0], env.outcome(i);
      assert Answers(o);
      var first := RollStep(w, c, b, effects, o, env.saved(i), d);
      var rest :=
          RollAll(HandleEffect(w, c.ranges, e, o, env.saved(i)), c, BelieveAll(b, first), effects[1..], env, i + 1,
                          SettleOne(c.goal, e, d));
      syncs := first + rest;
      BelieveFirst(b, first, rest);
    }
  }

  // ---- Draining ----------------------------------------------------------

  /** Draining a queue of rollbacks applies them in order, touches no hardware and injects nothing new. */
  lemma {:induction false} DrainSyncs(w: World, envs: seq<Env>)
    requires w.running && |envs| >= |w.queue|
    requires forall t :: t in w.queue ==> t.IsSync()
    requires Publish(w.state) == w.state
    ensures Run(w, Iterations(envs)) == w.(queue := [], state := BelieveAll(w.state, w.queue))
    decreases |envs|
  {
    if envs != [] {
      var events := Iterations(envs);
      assert events[0] == Iterate(envs[0]) && events[1..] == Iterations(envs[1..]);
      if w.queue == [] {
        DrainSyncs(w, envs[1..]);
      } else {
        var w1, t := w.(queue := w.queue[1..]), w.queue[0];
        SyncIsBelief(w.state, t, w.limits, w.config);
        ProcessUnfolds(w1, t, envs[0], Ok(Output(Believe(w.state, t), [])));
        assert Publish(Believe(w.state, t)) == Believe(w.state, t);
        DrainSyncs(Tick(w, envs[0]), envs[1..]);
      }
    }
  }

  predicate ReadsBackWorld(w: World) {
    ReadsBack(w.state, w.hw, w.caps, Ranges(w))
  }

  lemma {:induction false} StaysIdle(w: World, envs: seq<Env>)
    requires w.queue == []
    ensures Run(w, Iterations(envs)) == w
    decreases |envs|
  {
    if envs != [] {
      assert Iterations(envs)[0] == Iterate(envs[0]) && Iterations(envs)[1..] == Iterations(envs[1..]);
      StaysIdle(w, envs[1..]);
    }
  }

  /** Rails the transition moved are dirty; all the others still agree. */
  lemma StartsRolling(base: ProfileState, goal: ProfileState, hw: Hw, caps: Caps, l: Later, c: Setting)
    requires ReadsBack(base, hw, caps, c.ranges) && c.hw == hw && c.goal == goal
    requires Within(Changed(base, goal), l.once) && Within(l.twice, l.once)
    ensures Rolling(goal, hw, caps, Changed(base, goal), l, c)
  {
    hide Holds, CurveMatches, CurveValue, GpuMatches, RangeValue;
  }

  /** The convergence argument for one output: settled, firm, and with room for its rollbacks. */
  lemma ProcessRollsBack(w: World, c: Setting, base: ProfileState, out: Output, env: Env, envs: seq<Env>)
    requires w.queue == [] && w.capacity >= Writes(out.effects) && |envs| >= Writes(out.effects) && w.running
    requires c.hw == w.hw && c.goal == Publish(out.state)
    requires AllAnswer(env) && Obeys(w.hw, w.caps, c.ranges, out.effects, env, 0, c.manner)
    requires Settle(out.state, out.effects, Changed(base, out.state)) == CLEAN
    requires Firm(out.effects, NEVER, c)
    requires ReadsBack(base, w.hw, w.caps, c.ranges)
    ensures var r := Run(HandleAll(w.(state := Publish(out.state)), c.ranges, out.effects, env, 0), Iterations(envs));
            && r.queue == [] && r.running && r.caps == w.caps && r.config == w.config
            && r.hw.gpuBounds == w.hw.gpuBounds
            && ReadsBack(r.state, r.hw, r.caps, c.ranges)
  {
    hide HandleAll, Settle, Firm, AgreesOff, ReadsBack, Run, Obeys, Rolling, Writes, Ahead, Within;
    var goal := Publish(out.state);
    var w1 := w.(state := goal);
    var d := Changed(base, out.state);
    SettlePublished(out, d);
    DirtyIsAhead(goal, out.effects, d);
    StartsRolling(base, goal, w.hw, w.caps, Ahead(out.effects, NEVER), c);
    var syncs := RollAll(w1, c, goal, out.effects, env, 0, d);
    HandleAllFrame(w1, c.ranges, out.effects, env, 0);
    var after := HandleAll(w1, c.ranges, out.effects, env, 0);
    assert after.queue == syncs;
    DrainSyncs(after, envs);
  }

  /** Publication sets the derived lock flag and moves no rail. */
  lemma SettlePublished(out: Output, d: Dirty)
    requires Settle(out.state, out.effects, d) == CLEAN
    ensures Settle(Publish(out.state), out.effects, d) == CLEAN
  {
    SettleRetarget(out.state, Publish(out.state), out.effects, d, d);
  }

  lemma {:induction false} AnyhowObeys(hw: Hw, caps: Caps, ranges: TierRanges, effects: seq<Effect>, env: Env, i: nat)
    ensures Obeys(hw, caps, ranges, effects, env, i, Anyhow)
    decreases |effects|
  {
    if effects != [] {
      AnyhowObeys(Dispatch(effects[0], hw, env.outcome(i), caps, ranges).hw, caps, ranges, effects[1..], env, i + 1);
    }
  }

  // ---- Convergence -----------------------------------------------------------------

  /** What one transition leaves once its rollbacks have drained. */
  lemma ProcessConverges(w: World, t: Transition, env: Env, envs: seq<Env>, out: Output, m: Manner)
    requires w.running && w.queue == [] && w.capacity >= Writes(out.effects) && |envs| >= Writes(out.effects)
    requires !t.IsSync() && !t.ConfigReload? && !t.Shutdown?
    requires Reduce(Refreshed(w, t, env), t, RefreshedLimits(w, t, env), w.config) == Ok(out)
    requires Firm(out.effects, NEVER, Setting(w.hw, Publish(out.state), Ranges(w), m))
    requires AllAnswer(env) && Obeys(w.hw, w.caps, Ranges(w), out.effects, env, 0, m)
    requires ReadsBackWorld(w)
    ensures var r := Run(Process(w, t, env), Iterations(envs)); r.queue == [] && r.running && ReadsBackWorld(r)
  {
    var base, limits := Refreshed(w, t, env), RefreshedLimits(w, t, env);
    ProcessUnfolds(w, t, env, Ok(out));
    ReduceSettles(base, t, limits, w.config);
    hide Reduce, HandleAll, Run, Settle, Firm, Obeys, Writes;
    ProcessRollsBack(w.(limits := limits), Setting(w.hw, Publish(out.state), Ranges(w), m), base, out, env, envs);
    HandleAllFrame(w.(limits := limits, state := Publish(out.state)), Ranges(w), out.effects, env, 0);
  }

  lemma RejectedConverges(w: World, t: Transition, env: Env, envs: seq<Env>)
    requires w.running && w.queue == [] && !t.ConfigReload? && !t.Shutdown?
    requires Reduce(Refreshed(w, t, env), t, RefreshedLimits(w, t, env), w.config).Err?
    requires ReadsBackWorld(w)
    ensures var r := Run(Process(w, t, env), Iterations(envs)); r.queue == [] && r.running && ReadsBackWorld(r)
  {
    ProcessUnfolds(w, t, env, Reduce(Refreshed(w, t, env), t, RefreshedLimits(w, t, env), w.config));
    StaysIdle(Process(w, t, env), envs);
  }

  /** The convergence theorem. One transition alone in a queue with room for five rollbacks, from a state that reads
      back: whichever of its writes are refused and whatever they leave, after the rollbacks drain the published state
      reads back again. */
  lemma RollbackConverges(w: World, env: Env, envs: seq<Env>)
    requires w.running && |w.queue| == 1 && w.capacity >= 5 && |envs| >= 5
    requires var t := w.queue[0]; !t.IsSync() && !t.ConfigReload? && !t.Shutdown?
    requires var t := w.queue[0]; !Rewrites(Refreshed(w, t, env), t, RefreshedLimits(w, t, env), w.config)
    requires AllAnswer(env)
    requires ReadsBackWorld(w)
    ensures var r := Run(Tick(w, env), Iterations(envs)); r.queue == [] && r.running && ReadsBackWorld(r)
  {
    var w1, t := w.(queue := []), w.queue[0];
    assert w.queue[1..] == [];
    hide Rewrites, Reduce, Run, Process, Firm, Obeys, Once;
    var base, limits := Refreshed(w1, t, env), RefreshedLimits(w1, t, env);
    var result := Reduce(base, t, limits, w.config);
    if result.Err? {
      RejectedConverges(w1, t, env, envs);
    } else {
      var out := result.value;
      ReduceWritesOnce(base, t, limits, w.config);
      OnceIsFirm(out.effects, CLEAN, Setting(w.hw, Publish(out.state), Ranges(w), Anyhow));
      AnyhowObeys(w.hw, w.caps, Ranges(w), out.effects, env, 0);
      ProcessConverges(w1, t, env, envs, out, Anyhow);
    }
  }
}
