/** Where convergence stops. A transition that is stale for a manner of refusal can be made to diverge by refusing one
    write in that manner: a later write lands on the same rail, and the pending rollback reports a value the hardware no
    longer has. With the theorem in `Rollback` this makes the boundary exact for each manner. */
module Divergence {
  import opened Units
  import opened Domain
  import opened FanTables
  import opened Inference
  import opened Envelope
  import opened Reducer
  import opened Hardware
  import opened Executor
  import opened Settling
  import opened Coherence
  import opened WriteOnce
  import opened Refusals
  import opened Rollback
  import opened Staleness
  import Presets

  lemma {:induction false} HandleAllAppend(w: World, ranges: TierRanges, a: seq<Effect>, b: seq<Effect>, env: Env,
                                           i: nat)
    ensures HandleAll(w, ranges, a + b, env, i) == HandleAll(HandleAll(w, ranges, a, env, i), ranges, b, env, i + |a|)
    decreases |a|
  {
    if a == [] {
      assert a + b == b;
    } else {
      assert (a + b)[0] == a[0] && (a + b)[1..] == a[1..] + b;
      HandleAllAppend(HandleEffect(w, ranges, a[0], env.outcome(i), env.saved(i)), ranges, a[1..], b, env, i + 1);
    }
  }

  const ALL_CAPS := Caps(true, true, true, true)

  // ---- One refusal ---------------------------------------------------------------------

  /** A refusal at the start of a double write, and the rollback it produces; `drop` says whether profile writes drop
      envelope and curve on the way. */
  datatype Witness = Witness(head: seq<Effect>, first: Effect, tail: seq<Effect>, residue: Hw, sync: Transition,
                             drop: bool)

  /** Every write lands, except that the k-th is refused, leaving `residue`. */
  function RefuseAt(answers: Env, k: nat, residue: Hw, drop: bool): Env {
    Env(answers.ac, answers.limits, i => if i == k then Refused(residue, true) else Landed(drop, drop), i => true)
  }

  function AllLanded(answers: Env, drop: bool): Env {
    Env(answers.ac, answers.limits, i => Landed(drop, drop), i => true)
  }

  /** Away from the refused write the two environments agree. */
  lemma {:induction false} OnlyOneRefusal(w: World, ranges: TierRanges, effects: seq<Effect>, answers: Env, k: nat,
                                          residue: Hw, drop: bool, i: nat)
    requires i + |effects| <= k || k < i
    ensures HandleAll(w, ranges, effects, RefuseAt(answers, k, residue, drop), i)
         == HandleAll(w, ranges, effects, AllLanded(answers, drop), i)
    decreases |effects|
  {
    if effects != [] {
      OnlyOneRefusal(HandleEffect(w, ranges, effects[0], Landed(drop, drop), true), ranges, effects[1..], answers, k,
                     residue, drop, i + 1);
    }
  }

  // ---- The hardware before it ------------------------------------------------------------

  /** What a full-featured device looks like once a list has landed. */
  function After(hw: Hw, ranges: TierRanges, effects: seq<Effect>, drop: bool): Hw
    decreases |effects|
  {
    if effects == [] then hw
    else After(Dispatch(effects[0], hw, Landed(drop, drop), ALL_CAPS, ranges).hw, ranges, effects[1..], drop)
  }

  lemma {:induction false} AfterAppend(hw: Hw, ranges: TierRanges, a: seq<Effect>, b: seq<Effect>, drop: bool)
    ensures After(hw, ranges, a + b, drop) == After(After(hw, ranges, a, drop), ranges, b, drop)
    decreases |a|
  {
    if a == [] {
      assert a + b == b;
    } else {
      assert (a + b)[0] == a[0] && (a + b)[1..] == a[1..] + b;
      AfterAppend(Dispatch(a[0], hw, Landed(drop, drop), ALL_CAPS, ranges).hw, ranges, a[1..], b, drop);
    }
  }

  /** Rails a list does not write stay as they are, unless profile writes drop a curve. */
  lemma {:induction false} AfterFrame(hw: Hw, ranges: TierRanges, effects: seq<Effect>, drop: bool, written: Dirty)
    ensures var r, m := After(hw, ranges, effects, drop), MarkAll(effects, written);
            && Within(written, m) && (!m.gpu ==> r.gpu == hw.gpu) && (!m.curve && !drop ==> r.curve == hw.curve)
    decreases |effects|
  {
    if effects != [] {
      AfterFrame(Dispatch(effects[0], hw, Landed(drop, drop), ALL_CAPS, ranges).hw, ranges, effects[1..], drop,
                 Mark(effects[0], written));
    }
  }

  // ---- Obedience ---------------------------------------------------------------------------

  lemma {:induction false} LandedObeys(hw: Hw, ranges: TierRanges, effects: seq<Effect>, env: Env, i: nat, drop: bool,
                                       m: Manner)
    requires forall k: nat :: i <= k ==> env.outcome(k) == Landed(drop, drop)
    requires drop ==> m.MayDrop()
    ensures Obeys(hw, ALL_CAPS, ranges, effects, env, i, m)
    decreases |effects|
  {
    if effects != [] {
      assert env.outcome(i) == Landed(drop, drop);
      LandedObeys(Dispatch(effects[0], hw, env.outcome(i), ALL_CAPS, ranges).hw, ranges, effects[1..], env, i + 1, drop,
                  m);
    }
  }

  lemma {:induction false} RefusedObeys(hw: Hw, ranges: TierRanges, a: Witness, answers: Env, i: nat, k: nat, m: Manner)
    requires k == i + |a.head| && (a.drop ==> m.MayDrop())
    requires Leaves(a.first, After(hw, ranges, a.head, a.drop), a.residue, ranges, m)
    ensures Obeys(hw, ALL_CAPS, ranges, a.head + [a.first] + a.tail, RefuseAt(answers, k, a.residue, a.drop), i, m)
    decreases |a.head|
  {
    hide Leaves;
    var env, effects := RefuseAt(answers, k, a.residue, a.drop), a.head + [a.first] + a.tail;
    if a.head == [] {
      assert effects[0] == a.first && effects[1..] == a.tail;
      LandedObeys(Dispatch(a.first, hw, env.outcome(i), ALL_CAPS, ranges).hw, ranges, a.tail, env, i + 1, a.drop, m);
    } else {
      assert effects[0] == a.head[0] && effects[1..] == a.head[1..] + [a.first] + a.tail;
      RefusedObeys(Dispatch(a.head[0], hw, Landed(a.drop, a.drop), ALL_CAPS, ranges).hw, ranges,
                   a.(head := a.head[1..]), answers, i + 1, k, m);
    }
  }

  // ---- A refusal followed by a second write ----------------------------------------

  /** Up to and including the refused write: its rollback is all that is queued. */
  lemma RefusedHead(w: World, ranges: TierRanges, goal: ProfileState, a: Witness, answers: Env)
    requires w.queue == [] && w.capacity > 0
    requires forall hw :: Dispatch(a.first, hw, Refused(a.residue, true), w.caps, ranges).sync == Some(a.sync)
    ensures var r := HandleAll(w, ranges, a.head + [a.first], RefuseAt(answers, |a.head|, a.residue, a.drop), 0);
            r == w.(hw := r.hw, queue := [a.sync], disk := r.disk) && r.hw.gpuBounds == w.hw.gpuBounds
  {
    var k, landed := |a.head|, AllLanded(answers, a.drop);
    var env := RefuseAt(answers, k, a.residue, a.drop);
    hide AgreesOff, Settle, Dispatch;
    HandleAllAppend(w, ranges, a.head, [a.first], env, 0);
    OnlyOneRefusal(w, ranges, a.head, answers, k, a.residue, a.drop, 0);
    NothingQueued(w, ranges, goal, a.head, landed, 0);
    HandleAllFrame(w, ranges, a.head, landed, 0);
    var w1 := HandleAll(w, ranges, a.head, landed, 0);
    assert [a.first][1..] == [];
    RefusalQueued(w1, ranges, a.first, a.residue, a.sync);
    assert HandleAll(w1, ranges, [a.first], env, k)
             == HandleEffect(w1, ranges, a.first, Refused(a.residue, true), true);
  }

  /** What the refused write leaves: its rollback alone in the queue, and below it hardware that agrees with the goal
      on every rail the remaining writes settle from scratch. */
  lemma RefusedThenSettled(w: World, ranges: TierRanges, goal: ProfileState, a: Witness, answers: Env)
    requires w.queue == [] && w.capacity > 0
    requires forall hw :: Dispatch(a.first, hw, Refused(a.residue, true), w.caps, ranges).sync == Some(a.sync)
    ensures var env := RefuseAt(answers, |a.head|, a.residue, a.drop);
            var r := HandleAll(w, ranges, a.head + [a.first] + a.tail, env, 0);
            && r == w.(hw := r.hw, queue := [a.sync], disk := r.disk) && r.hw.gpuBounds == w.hw.gpuBounds
            && AgreesOff(Settle(goal, a.tail, ALL_DIRTY), goal, r.hw, w.caps, ranges, true)
  {
    var k, landed := |a.head|, AllLanded(answers, a.drop);
    var env := RefuseAt(answers, k, a.residue, a.drop);
    RefusedHead(w, ranges, goal, a, answers);
    hide AgreesOff, Settle, Dispatch, HandleAll;
    HandleAllAppend(w, ranges, a.head + [a.first], a.tail, env, 0);
    var w2 := HandleAll(w, ranges, a.head + [a.first], env, 0);
    OnlyOneRefusal(w2, ranges, a.tail, answers, k, a.residue, a.drop, k + 1);
    AllDirtyAgrees(goal, w2.hw, w.caps, ranges);
    SettleSound(w2, ranges, goal, a.tail, landed, k + 1, ALL_DIRTY);
    HandleAllFrame(w2, ranges, a.tail, landed, k + 1);
  }

  lemma AllDirtyAgrees(goal: ProfileState, hw: Hw, caps: Caps, ranges: TierRanges)
    ensures AgreesOff(ALL_DIRTY, goal, hw, caps, ranges, true)
  {
  }

  lemma NothingQueued(w: World, ranges: TierRanges, goal: ProfileState, effects: seq<Effect>, env: Env, i: nat)
    requires AllLand(env)
    ensures HandleAll(w, ranges, effects, env, i).queue == w.queue
  {
    AllDirtyAgrees(goal, w.hw, w.caps, ranges);
    SettleSound(w, ranges, goal, effects, env, i, ALL_DIRTY);
  }

  lemma RefusalQueued(w: World, ranges: TierRanges, e: Effect, residue: Hw, sync: Transition)
    requires w.queue == [] && w.capacity > 0
    requires Dispatch(e, w.hw, Refused(residue, true), w.caps, ranges).sync == Some(sync)
    ensures var r := HandleEffect(w, ranges, e, Refused(residue, true), true);
            r == w.(hw := r.hw, queue := [sync]) && r.hw.gpuBounds == w.hw.gpuBounds
  {
  }

  // ---- Contradicting rollbacks -------------------------------------------------------------

  /** The rollback names something else than what the goal says on a clean rail of a device that has it. */
  predicate Contradicts(sync: Transition, goal: ProfileState, caps: Caps, ranges: TierRanges, d: Dirty) {
    match sync
    case SyncPowerTarget(found) =>
      !d.envelope && goal.target.fppt.Some? && !Holds(Write(Registers(0, 0, 0), goal.target), found)
    case SyncFanCurve(found) => !d.curve && caps.curve && CurveValue(found) != CurveValue(goal.curve)
    case SyncGpuClockRange(found) => !d.gpu && caps.gpu && found != RangeValue(goal.gpu, ranges)
    case _ => false
  }

  lemma StaleBelief(goal: ProfileState, sync: Transition, hw: Hw, caps: Caps, ranges: TierRanges, d: Dirty)
    requires sync.IsSync() && Contradicts(sync, goal, caps, ranges, d)
    requires AgreesOff(d, goal, hw, caps, ranges, true)
    ensures !ReadsBack(Believe(goal, sync), hw, caps, ranges)
  {
    hide Curves;
  }

  /** A rollback that contradicts a rail the hardware agrees with the goal on never reads back. */
  lemma StaleSyncDiverges(after: World, sync: Transition, d: Dirty)
    requires after.running && after.queue == [sync] && sync.IsSync()
    requires Publish(after.state) == after.state
    requires AgreesOff(d, after.state, after.hw, after.caps, Ranges(after), true)
    requires Contradicts(sync, after.state, after.caps, Ranges(after), d)
    ensures forall envs :: |envs| >= 1 ==> !ReadsBackWorld(Run(after, Iterations(envs)))
  {
    StaleBelief(after.state, sync, after.hw, after.caps, Ranges(after), d);
    forall envs | |envs| >= 1
      ensures !ReadsBackWorld(Run(after, Iterations(envs)))
    {
      DrainSyncs(after, envs);
      assert [sync][1..] == [];
      assert BelieveAll(after.state, [sync]) == Believe(after.state, sync);
    }
  }

  // ---- Witnesses --------------------------------------------------------------------------

  /** The refusal is a usable answer, and always produces this rollback. */
  ghost predicate Answered(a: Witness) {
    && a.sync.IsSync()
    && ReadTarget(a.residue.regs).Ok?
    && forall hw, ranges :: Dispatch(a.first, hw, Refused(a.residue, true), ALL_CAPS, ranges).sync == Some(a.sync)
  }

  /** The witness splits the list at a write whose refusal is in the manner and contradicts what the rest settles. */
  ghost predicate Works(a: Witness, o: Output, c: Setting) {
    && o.effects == a.head + [a.first] + a.tail
    && Answered(a)
    && (a.drop ==> c.manner.MayDrop())
    && Leaves(a.first, After(c.hw, c.ranges, a.head, a.drop), a.residue, c.ranges, c.manner)
    && Contradicts(a.sync, o.state, ALL_CAPS, c.ranges, Settle(o.state, a.tail, ALL_DIRTY))
  }

  /** Registers that hold a different SPL. */
  function OtherRegisters(t: PowerTarget): Registers {
    Registers(if AsWatts(t.spl) == 0 then 1 else 0, 0, 0)
  }

  lemma EnvelopeWitness(t: PowerTarget, tail: seq<Effect>, c: Setting) returns (a: Witness)
    requires !c.manner.Anyhow? ==> ReadTarget(c.hw.regs).Ok? && Write(c.hw.regs, t) != c.hw.regs && t.fppt.Some?
    ensures a.head == [] && a.first == ApplyEnvelope(t) && a.tail == tail && Answered(a) && !a.drop
    ensures Leaves(a.first, c.hw, a.residue, c.ranges, c.manner)
    ensures a.sync.SyncPowerTarget? && !Holds(Write(Registers(0, 0, 0), t), a.sync.realTarget)
  {
    var residue := if c.manner.Anyhow? then c.hw.(regs := OtherRegisters(t)) else c.hw;
    assert PartialWrite(c.hw.regs, t, 0) == c.hw.regs;
    a := Witness([], ApplyEnvelope(t), tail, residue, SyncPowerTarget(ReadTarget(residue.regs).value), false);
  }

  /** The refused curve write leaves what was there, or nothing if anything goes. */
  lemma CurveWitness(head: seq<Effect>, selection: FanSelection, tail: seq<Effect>, drop: bool, c: Setting)
    returns (a: Witness)
    ensures a.head == head && a.first == ApplyCurve(selection) && a.tail == tail && Answered(a) && a.drop == drop
    ensures Leaves(a.first, After(c.hw, c.ranges, head, drop), a.residue, c.ranges, c.manner)
    ensures a.sync.SyncFanCurve?
    ensures CurveValue(a.sync.realCurve) == if c.manner.Anyhow? then None else After(c.hw, c.ranges, head, drop).curve
  {
    hide Curves, NameOf, After;
    var hw := After(c.hw, c.ranges, head, drop);
    var left := if c.manner.Anyhow? then None else hw.curve;
    if left.Some? {
      NameReadsBack(left.value);
    }
    a := Witness(head, ApplyCurve(selection), tail, hw.(regs := Registers(0, 0, 0), curve := left),
                 SyncFanCurve(ReadCurve(left)), drop);
  }

  lemma GpuWitness(head: seq<Effect>, e: Effect, tail: seq<Effect>, left: Option<GpuRange>, c: Setting)
    returns (a: Witness)
    requires e.ApplyGpu? || e.DropGpu?
    requires !c.manner.Anyhow? ==> LeavesRange(e, After(c.hw, c.ranges, head, false).gpu, left, c.ranges, c.manner)
    ensures a.head == head && a.first == e && a.tail == tail && Answered(a) && !a.drop
    ensures Leaves(a.first, After(c.hw, c.ranges, head, false), a.residue, c.ranges, c.manner)
    ensures a.sync == SyncGpuClockRange(left)
  {
    a := Witness(head, e, tail, c.hw.(regs := Registers(0, 0, 0), gpu := left), SyncGpuClockRange(left), false);
  }

  // ---- Resume -------------------------------------------------------------------------------

  lemma ResumeWitness(s: ProfileState, limits: PowerLimits, config: RuntimeConfig, c: Setting) returns (a: Witness)
    requires ReappliesGpu(s) && StaleResume(s, c.ranges, c.manner) && c.hw.gpu == RangeValue(s.gpu, c.ranges)
    ensures Works(a, ReduceResume(s, limits, config), c)
  {
    var o, tier := ReduceResume(s, limits, config), s.gpu.value.tier;
    var core := [ApplyProfile(s.profile), ApplyEnvelope(s.target), ApplyCharge(s.charge)];
    var head, tail := core + ReassertCurve(s), [ApplyGpu(tier)];
    assert o.effects == head + [DropGpu] + tail;
    SettleSingle(o.state, ApplyGpu(tier), ALL_DIRTY);
    AfterFrame(c.hw, c.ranges, head, false, CLEAN);
    OnceAppend(core, ReassertCurve(s), CLEAN);
    OnceTriple(core[0], core[1], core[2], CLEAN);
    ReassertCurveOnce(s, MarkAll(core, CLEAN));
    hide After, Settle, MarkAll, ReduceResume;
    a := GpuWitness(head, DropGpu, tail, if c.manner.Anyhow? then None else Some(c.manner.factory), c);
  }

  // ---- Restoring defaults --------------------------------------------------------------------

  /** A collapsed list splits at any write, as long as a save before it is followed by one after it. */
  lemma CollapseSplits(x: seq<Effect>, e: Effect, rest: seq<Effect>)
    requires e != PersistState && (PersistState in x ==> PersistState in rest)
    ensures CollapsePersist(x + [e] + rest) == WithoutPersist(x) + [e] + CollapsePersist(rest)
  {
    assert WithoutPersist([e]) == [e];
    WithoutPersistAppend(x + [e], rest);
    WithoutPersistAppend(x, [e]);
    hide WithoutPersist;
    assert PersistState in x + [e] + rest <==> PersistState in rest;
    var a, b, last := WithoutPersist(x), WithoutPersist(rest), When(PersistState in rest, PersistState);
    assert (a + [e]) + b + last == a + [e] + (b + last);
  }

  lemma {:induction false} WithoutPersistAppend(a: seq<Effect>, b: seq<Effect>)
    ensures WithoutPersist(a + b) == WithoutPersist(a) + WithoutPersist(b)
  {
    if a == [] {
      assert a + b == b;
    } else {
      assert (a + b)[0] == a[0] && (a + b)[1..] == a[1..] + b;
      WithoutPersistAppend(a[1..], b);
    }
  }

  lemma ProfileStepSettles(s: ProfileState, goal: ProfileState, d: Dirty)
    requires goal.target == s.target && s.profile != Performance
    ensures var after := Settle(goal, ReduceSetProfile(s, Performance).effects, d);
            !after.envelope && (s.curve.Some? && goal.curve == s.curve ==> !after.curve)
  {
    var core, rest := [ApplyProfile(Performance), ApplyEnvelope(s.target)], ReassertCurve(s) + [PersistState];
    assert ReduceSetProfile(s, Performance).effects == core + rest;
    SettleAppend(goal, core, rest, d);
    SettlePair(goal, core[0], core[1], d);
    SettleAppend(goal, ReassertCurve(s), [PersistState], Settle(goal, core, d));
  }

  lemma WriteAndSaveSettles(goal: ProfileState, effects: seq<Effect>, e: Effect, d: Dirty)
    requires effects == [] || effects == [e, PersistState]
    ensures Settle(goal, effects, d) == if effects == [] then d else SettleOne(goal, e, d)
  {
    SettlePair(goal, e, PersistState, d);
  }

  /** The charge, auto-cooling and GPU-reset steps, after anything at all. */
  lemma LastStepsSettle(s: ProfileState, limits: PowerLimits, config: RuntimeConfig, before: Dirty)
    ensures var c := ReduceCharge(s, DEFAULT_CHARGE_THRESHOLD);
            var d := ReduceEnableFanAuto(c.state, limits, config);
            var e := ReduceResetGpu(d.state);
            var after := Settle(e.state, c.effects + d.effects + e.effects, before);
            && (!s.fanFollows || !before.curve ==> !after.curve) && (s.gpu.Some? ==> !after.gpu)
            && (!before.envelope ==> !after.envelope)
  {
    hide InferTier, Settle;
    var c := ReduceCharge(s, DEFAULT_CHARGE_THRESHOLD);
    var d := ReduceEnableFanAuto(c.state, limits, config);
    var e := ReduceResetGpu(d.state);
    var goal, d1 := e.state, Settle(e.state, c.effects, before);
    SettleAppend(goal, c.effects + d.effects, e.effects, before);
    SettleAppend(goal, c.effects, d.effects, before);
    WriteAndSaveSettles(goal, c.effects, ApplyCharge(DEFAULT_CHARGE_THRESHOLD), before);
    WriteAndSaveSettles(goal, d.effects, ApplyCurve(PresetCurve(InferTier(c.state.target, limits, config.thresholds))),
                        d1);
    WriteAndSaveSettles(goal, e.effects, DropGpu, Settle(goal, d.effects, d1));
  }

  lemma LaterStepsKeep(s: ProfileState, limits: PowerLimits, config: RuntimeConfig)
    requires ReduceRestoreDefaults(s, limits, config).Ok?
    ensures var p := DefaultsParts(s, limits, config);
            && p.e.state.target == p.a.state.target && p.e.state.gpu.None?
            && p.e.state.curve == (if p.a.state.fanFollows then p.a.state.curve
                                   else Some(PresetCurve(InferTier(p.a.state.target, limits, config.thresholds))))
            && p.b.state.fanFollows == p.a.state.fanFollows && p.b.state.gpu == p.a.state.gpu
  {
    hide ReduceSetPreset, InferTier;
  }

  /** What the steps after the first settle, whatever came before them. */
  lemma LaterStepsSettle(s: ProfileState, limits: PowerLimits, config: RuntimeConfig, x: seq<Effect>)
    requires ReduceRestoreDefaults(s, limits, config).Ok?
    ensures var p := DefaultsParts(s, limits, config);
            var (d1, d2) := (Settle(p.e.state, CollapsePersist(x + p.From(1)), ALL_DIRTY),
                             Settle(p.e.state, CollapsePersist(x + p.From(2)), ALL_DIRTY));
            && (p.a.state.profile != Performance ==>
                  !d1.envelope && (p.a.state.fanFollows && p.a.state.curve.Some? ==> !d1.curve))
            && (!p.a.state.fanFollows ==> !d2.curve)
            && (p.a.state.gpu.Some? ==> !d1.gpu)
  {
    hide ReduceSetPreset, ReduceCharge, ReduceEnableFanAuto, ReduceResetGpu, Settle, CollapsePersist, InferTier;
    var p := DefaultsParts(s, limits, config);
    var goal := p.e.state;
    var dx := Settle(goal, x, ALL_DIRTY);
    SettleCollapsed(goal, x + p.From(1), ALL_DIRTY);
    SettleCollapsed(goal, x + p.From(2), ALL_DIRTY);
    SettleAppend(goal, x, p.From(1), ALL_DIRTY);
    SettleAppend(goal, x, p.From(2), ALL_DIRTY);
    SettleAppend(goal, p.b.effects, p.From(2), dx);
    LastStepsSettle(p.b.state, limits, config, dx);
    LastStepsSettle(p.b.state, limits, config, Settle(goal, p.b.effects, dx));
    LaterStepsKeep(s, limits, config);
    if p.a.state.profile != Performance {
      ProfileStepSettles(p.a.state, goal, dx);
    }
  }

  /** The first step moves nothing unless the target moves, and then writes the target first. */
  lemma FirstStep(s: ProfileState, limits: PowerLimits, config: RuntimeConfig)
    returns (curve: seq<Effect>, gpu: seq<Effect>)
    requires ReduceRestoreDefaults(s, limits, config).Ok?
    ensures var a := DefaultsParts(s, limits, config).a;
            && a.state.profile == s.profile && a.state.fanFollows == s.fanFollows && a.state.target.fppt.Some?
            && (a.state.target == s.target ==> a == Output(s, []))
            && (a.state.target != s.target ==>
                  a.effects == [ApplyEnvelope(a.state.target)] + curve + gpu + [PersistState])
            && (a.state.curve == s.curve ==> curve == [])
            && (a.state.curve != s.curve ==>
                  s.fanFollows && a.state.curve.Some? && curve == [ApplyCurve(a.state.curve.value)])
            && (a.state.gpu != s.gpu ==>
                  && a.state.gpu.Some? && a.state.gpu.value.PresetClock? && gpu == [ApplyGpu(a.state.gpu.value.tier)])
            && (a.state.gpu == s.gpu ==> gpu == [])
  {
    var watts := PresetWatts(TdpPreset.Balanced, limits, config);
    var target := DeriveBoosted(FromWatts(watts).value, limits, config);
    var a := ApplyPowerTarget(s, target, limits, config);
    assert ReduceSetPreset(s, TdpPreset.Balanced, limits, config) == Ok(a) && target.fppt.Some?;
    hide PresetWatts, DeriveBoosted, ReduceSetPreset, InferTier;
    var tier := InferTier(target, limits, config.thresholds);
    curve := When(s.curve != a.state.curve, ApplyCurve(PresetCurve(tier)));
    gpu := When(s.gpu != a.state.gpu, ApplyGpu(tier));
  }

  lemma Regroup(e: seq<Effect>, curve: seq<Effect>, gpu: seq<Effect>, save: seq<Effect>, rest: seq<Effect>)
    ensures e + curve + gpu + save + rest == (e + curve) + gpu + (save + rest)
    ensures e + curve + gpu + save + rest == [] + e + ((curve + gpu + save) + rest)
    ensures e + curve + gpu + save + rest == e + curve + ((gpu + save) + rest)
  {
  }

  /** What comes before and after a rewritten rail's first write. */
  datatype Split = Split(head: seq<Effect>, tail: seq<Effect>)

  /** A tier that moves with the target and is then reset. */
  lemma GpuSplit(s: ProfileState, limits: PowerLimits, config: RuntimeConfig, c: Setting) returns (k: Split, tier: Tier)
    requires ReduceRestoreDefaults(s, limits, config).Ok? && BalancedFirst(s, limits, config).gpu != s.gpu
    ensures var o := ReduceRestoreDefaults(s, limits, config).value;
            && o.effects == k.head + [ApplyGpu(tier)] + k.tail && o.state.gpu.None?
            && !Settle(o.state, k.tail, ALL_DIRTY).gpu
    ensures After(c.hw, c.ranges, k.head, false).gpu == c.hw.gpu
  {
    var p := DefaultsParts(s, limits, config);
    DefaultsIsParts(s, limits, config);
    LaterStepsKeep(s, limits, config);
    var curve, gpu := FirstStep(s, limits, config);
    hide ReduceRestoreDefaults, CollapsePersist, Settle, After, DefaultsParts, WithoutPersist;
    var x, rest := [ApplyEnvelope(p.a.state.target)] + curve, [PersistState] + p.From(1);
    tier := p.a.state.gpu.value.tier;
    Regroup([ApplyEnvelope(p.a.state.target)], curve, gpu, [PersistState], p.From(1));
    CollapseSplits(x, ApplyGpu(tier), rest);
    LaterStepsSettle(s, limits, config, [PersistState]);
    UnwrittenGpu(p.a.state.target, curve, c);
    k := Split(WithoutPersist(x), CollapsePersist(rest));
  }

  lemma UnwrittenGpu(t: PowerTarget, curve: seq<Effect>, c: Setting)
    requires curve == [] || (|curve| == 1 && curve[0].ApplyCurve?)
    ensures After(c.hw, c.ranges, WithoutPersist([ApplyEnvelope(t)] + curve), false).gpu == c.hw.gpu
  {
    var x := [ApplyEnvelope(t)] + curve;
    OnceWithoutPersist(x, CLEAN);
    OnceAppend([ApplyEnvelope(t)], curve, CLEAN);
    OnceSingle(ApplyEnvelope(t), CLEAN);
    assert curve != [] ==> curve[1..] == [];
    AfterFrame(c.hw, c.ranges, WithoutPersist(x), false, CLEAN);
  }

  lemma GpuRewritten(s: ProfileState, limits: PowerLimits, config: RuntimeConfig, c: Setting) returns (a: Witness)
    requires ReduceRestoreDefaults(s, limits, config).Ok? && c.hw.gpu == RangeValue(s.gpu, c.ranges)
    requires BalancedFirst(s, limits, config).gpu != s.gpu && (!c.manner.Anyhow? ==> c.manner.partial || s.gpu.Some?)
    ensures Works(a, ReduceRestoreDefaults(s, limits, config).value, c)
  {
    var k, tier := GpuSplit(s, limits, config, c);
    hide ReduceRestoreDefaults, Settle, After, Answered, Leaves;
    var left := if c.manner.Anyhow? then Some(GpuRange(0, 0))
                else if s.gpu.Some? then c.hw.gpu
                else Some(c.manner.factory);
    a := GpuWitness(k.head, ApplyGpu(tier), k.tail, left, c);
  }

  /** A new target that the profile change makes the daemon write again. */
  lemma EnvelopeSplit(s: ProfileState, limits: PowerLimits, config: RuntimeConfig) returns (k: Split)
    requires ReduceRestoreDefaults(s, limits, config).Ok?
    requires s.profile != Performance && BalancedFirst(s, limits, config).target != s.target
    ensures var o, t := ReduceRestoreDefaults(s, limits, config).value, BalancedFirst(s, limits, config).target;
            && o.effects == k.head + [ApplyEnvelope(t)] + k.tail && k.head == [] && o.state.target == t && t.fppt.Some?
            && !Settle(o.state, k.tail, ALL_DIRTY).envelope
  {
    var p := DefaultsParts(s, limits, config);
    DefaultsIsParts(s, limits, config);
    LaterStepsKeep(s, limits, config);
    var curve, gpu := FirstStep(s, limits, config);
    assert WithoutPersist([]) == [];
    hide ReduceRestoreDefaults, CollapsePersist, Settle, DefaultsParts, WithoutPersist;
    var x, rest := [ApplyEnvelope(p.a.state.target)], curve + gpu + [PersistState];
    Regroup(x, curve, gpu, [PersistState], p.From(1));
    CollapseSplits([], x[0], rest + p.From(1));
    LaterStepsSettle(s, limits, config, rest);
    k := Split([], CollapsePersist(rest + p.From(1)));
  }

  lemma EnvelopeRewritten(s: ProfileState, limits: PowerLimits, config: RuntimeConfig, c: Setting) returns (a: Witness)
    requires ReduceRestoreDefaults(s, limits, config).Ok?
    requires var t := BalancedFirst(s, limits, config).target;
             && s.profile != Performance && t != s.target
             && (!c.manner.Anyhow? ==> ReadTarget(c.hw.regs).Ok? && Write(c.hw.regs, t) != c.hw.regs)
    ensures Works(a, ReduceRestoreDefaults(s, limits, config).value, c)
  {
    var k := EnvelopeSplit(s, limits, config);
    assert After(c.hw, c.ranges, [], false) == c.hw;
    hide ReduceRestoreDefaults, Settle, Holds, Write, ReadTarget, Leaves, After, Answered;
    a := EnvelopeWitness(BalancedFirst(s, limits, config).target, k.tail, c);
  }

  /** A curve that moves with the target and is written again after the profile change. */
  lemma FollowedSplit(s: ProfileState, limits: PowerLimits, config: RuntimeConfig, c: Setting) returns (k: Split)
    requires ReduceRestoreDefaults(s, limits, config).Ok?
    requires s.profile != Performance && BalancedFirst(s, limits, config).curve != s.curve
    ensures var o, curve := ReduceRestoreDefaults(s, limits, config).value, BalancedFirst(s, limits, config).curve;
            && curve.Some? && o.effects == k.head + [ApplyCurve(curve.value)] + k.tail && o.state.curve == curve
            && !Settle(o.state, k.tail, ALL_DIRTY).curve
    ensures After(c.hw, c.ranges, k.head, false).curve == c.hw.curve
  {
    var p := DefaultsParts(s, limits, config);
    DefaultsIsParts(s, limits, config);
    LaterStepsKeep(s, limits, config);
    var curve, gpu := FirstStep(s, limits, config);
    EnvelopeOnly(p.a.state.target, c);
    hide ReduceRestoreDefaults, CollapsePersist, Settle, DefaultsParts, WithoutPersist, After;
    var x, rest := [ApplyEnvelope(p.a.state.target)], gpu + [PersistState];
    Regroup(x, curve, gpu, [PersistState], p.From(1));
    CollapseSplits(x, curve[0], rest + p.From(1));
    LaterStepsSettle(s, limits, config, rest);
    k := Split(x, CollapsePersist(rest + p.From(1)));
  }

  lemma EnvelopeOnly(t: PowerTarget, c: Setting)
    ensures var x := [ApplyEnvelope(t)];
            WithoutPersist(x) == x && After(c.hw, c.ranges, x, false).curve == c.hw.curve
  {
    assert [ApplyEnvelope(t)][1..] == [];
  }

  lemma FollowedRewritten(s: ProfileState, limits: PowerLimits, config: RuntimeConfig, c: Setting) returns (a: Witness)
    requires ReduceRestoreDefaults(s, limits, config).Ok? && c.hw.curve == CurveValue(s.curve) && c.manner.Ordinary?
    requires s.profile != Performance && CurveValue(BalancedFirst(s, limits, config).curve) != CurveValue(s.curve)
    ensures Works(a, ReduceRestoreDefaults(s, limits, config).value, c)
  {
    hide ReduceRestoreDefaults, Settle, After, Answered, Leaves, Curves;
    var k := FollowedSplit(s, limits, config, c);
    a := CurveWitness(k.head, BalancedFirst(s, limits, config).curve.value, k.tail, false, c);
  }

  /** A manual curve re-asserted after the profile change and then replaced by the inferred one. */
  lemma ManualSplit(s: ProfileState, limits: PowerLimits, config: RuntimeConfig, drop: bool, c: Setting)
    returns (k: Split)
    requires ReduceRestoreDefaults(s, limits, config).Ok?
    requires s.profile != Performance && !s.fanFollows && s.curve.Some?
    ensures var o := ReduceRestoreDefaults(s, limits, config).value;
            && o.effects == k.head + [ApplyCurve(s.curve.value)] + k.tail
            && o.state.curve
                 == Some(PresetCurve(InferTier(BalancedFirst(s, limits, config).target, limits, config.thresholds)))
            && !Settle(o.state, k.tail, ALL_DIRTY).curve
    ensures After(c.hw, c.ranges, k.head, drop).curve == if drop then None else c.hw.curve
  {
    var p := DefaultsParts(s, limits, config);
    DefaultsIsParts(s, limits, config);
    LaterStepsKeep(s, limits, config);
    ManualFirst(s, limits, config);
    var core := [ApplyProfile(Performance), ApplyEnvelope(p.a.state.target)];
    var x, rest := p.a.effects + core, [PersistState] + p.From(2);
    ManualStep(p.a.state);
    hide ReduceRestoreDefaults, CollapsePersist, Settle, DefaultsParts, WithoutPersist, After, MarkAll, InferTier;
    RegroupManual(p.a.effects, core, [ApplyCurve(s.curve.value)], [PersistState], p.From(2));
    CollapseSplits(x, ApplyCurve(s.curve.value), rest);
    LaterStepsSettle(s, limits, config, [PersistState]);
    ReassertedOver(p.a.effects, p.a.state.target, drop, c);
    k := Split(WithoutPersist(x), CollapsePersist(rest));
  }

  lemma ManualStep(s: ProfileState)
    requires s.profile != Performance && s.curve.Some?
    ensures ReduceSetProfile(s, Performance).effects
         == [ApplyProfile(Performance), ApplyEnvelope(s.target)] + [ApplyCurve(s.curve.value)] + [PersistState]
  {
  }

  lemma RegroupManual(a: seq<Effect>, core: seq<Effect>, curve: seq<Effect>, save: seq<Effect>, rest: seq<Effect>)
    ensures a + (core + curve + save + rest) == (a + core) + curve + (save + rest)
  {
  }

  lemma ManualFirst(s: ProfileState, limits: PowerLimits, config: RuntimeConfig)
    requires ReduceRestoreDefaults(s, limits, config).Ok? && !s.fanFollows
    ensures var a := DefaultsParts(s, limits, config).a;
            a.state.profile == s.profile && !a.state.fanFollows && a.state.curve == s.curve
              && !MarkAll(a.effects, CLEAN).curve
  {
    var a := FirstStepMarks(s, limits, config);
  }

  lemma ProfileThenEnvelope(hw: Hw, t: PowerTarget, drop: bool, c: Setting)
    ensures var core := [ApplyProfile(Performance), ApplyEnvelope(t)];
            && WithoutPersist(core) == core
            && After(hw, c.ranges, core, drop).curve == if drop then None else hw.curve
  {
    var core := [ApplyProfile(Performance), ApplyEnvelope(t)];
    assert core[1..] == [core[1]] && [core[1]][1..] == [];
    var next := Dispatch(core[0], hw, Landed(drop, drop), ALL_CAPS, c.ranges).hw;
    assert After(hw, c.ranges, core, drop) == After(next, c.ranges, [core[1]], drop);
    assert After(next, c.ranges, [core[1]], drop) == Dispatch(core[1], next, Landed(drop, drop), ALL_CAPS, c.ranges).hw;
    assert WithoutPersist([core[1]]) == [core[1]];
  }

  /** The curve a manual selection shows when the profile step re-asserts it. */
  lemma ReassertedOver(first: seq<Effect>, t: PowerTarget, drop: bool, c: Setting)
    requires !MarkAll(first, CLEAN).curve
    ensures var x := first + [ApplyProfile(Performance), ApplyEnvelope(t)];
            After(c.hw, c.ranges, WithoutPersist(x), drop).curve == if drop then None else c.hw.curve
  {
    var core := [ApplyProfile(Performance), ApplyEnvelope(t)];
    WithoutPersistAppend(first, core);
    ProfileThenEnvelope(After(c.hw, c.ranges, WithoutPersist(first), drop), t, drop, c);
    AfterAppend(c.hw, c.ranges, WithoutPersist(first), core, drop);
    OnceWithoutPersist(first, CLEAN);
    AfterFrame(c.hw, c.ranges, WithoutPersist(first), drop, CLEAN);
  }

  lemma ManualRewritten(s: ProfileState, limits: PowerLimits, config: RuntimeConfig, c: Setting) returns (a: Witness)
    requires ReduceRestoreDefaults(s, limits, config).Ok? && c.hw.curve == CurveValue(s.curve)
    requires s.profile != Performance && !s.fanFollows && s.curve.Some?
    requires var inferred := InferTier(BalancedFirst(s, limits, config).target, limits, config.thresholds);
             c.manner.MayDrop() || Curves(s.curve.value) != Curves(PresetCurve(inferred))
    ensures Works(a, ReduceRestoreDefaults(s, limits, config).value, c)
  {
    hide ReduceRestoreDefaults, Settle, After, Answered, Leaves, Curves, InferTier;
    var k := ManualSplit(s, limits, config, c.manner.MayDrop(), c);
    a := CurveWitness(k.head, s.curve.value, k.tail, c.manner.MayDrop(), c);
  }

  lemma DefaultsWitness(s: ProfileState, limits: PowerLimits, config: RuntimeConfig, c: Setting) returns (a: Witness)
    requires ReduceRestoreDefaults(s, limits, config).Ok? && StaleDefaults(s, c.hw.regs, limits, config, c.manner)
    requires c.hw.curve == CurveValue(s.curve) && c.hw.gpu == RangeValue(s.gpu, c.ranges)
    ensures Works(a, ReduceRestoreDefaults(s, limits, config).value, c)
  {
    hide ReduceRestoreDefaults, ReduceSetPreset, Works, ReadTarget, Write, Curves, InferTier, QuietTarget;
    var b := BalancedFirst(s, limits, config);
    if b.gpu != s.gpu && (c.manner.Anyhow? || c.manner.partial || s.gpu.Some?) {
      a := GpuRewritten(s, limits, config, c);
    } else if b.target != s.target && (c.manner.Anyhow?
                                      || (ReadTarget(c.hw.regs).Ok? && Write(c.hw.regs, b.target) != c.hw.regs)) {
      a := EnvelopeRewritten(s, limits, config, c);
    } else if c.manner.Ordinary? && CurveValue(b.curve) != CurveValue(s.curve) {
      a := FollowedRewritten(s, limits, config, c);
    } else {
      a := ManualRewritten(s, limits, config, c);
    }
  }

  // ---- The exact boundary ---------------------------------------------------------------

  /** The state and limits the reducer sees, after the reads of a resume. */
  function Base(w: World, answers: Env): ProfileState
    requires w.queue != []
  {
    Refreshed(w, w.queue[0], answers)
  }

  predicate StaleWorld(w: World, answers: Env, m: Manner)
    requires w.queue != []
  {
    Stale(Base(w, answers), w.queue[0], RefreshedLimits(w, w.queue[0], answers), w.config, w.hw.regs, Ranges(w), m)
  }

  /** Every outcome of the queued transition's writes is in the manner. */
  ghost predicate ObeysWorld(w: World, env: Env, m: Manner)
    requires w.queue != []
  {
    var r := Reduce(Base(w, env), w.queue[0], RefreshedLimits(w, w.queue[0], env), w.config);
    r.Ok? ==> Obeys(w.hw, w.caps, Ranges(w), r.value.effects, env, 0, m)
  }

  /** A full-featured device whose published state reads back, with one ordinary transition queued. */
  predicate OneTransition(w: World, room: nat) {
    && w.running && |w.queue| == 1 && w.capacity >= room && w.caps == ALL_CAPS && ReadsBackWorld(w)
    && !w.queue[0].IsSync() && !w.queue[0].ConfigReload? && !w.queue[0].Shutdown?
  }

  lemma BaseReadsBack(w: World, answers: Env)
    requires OneTransition(w, 0)
    ensures var s := Base(w, answers);
            Holds(w.hw.regs, s.target) && w.hw.curve == CurveValue(s.curve) && w.hw.gpu == RangeValue(s.gpu, Ranges(w))
  {
    hide Holds, CurveValue, RangeValue, Ranges;
  }

  lemma StaleWitness(s: ProfileState, t: Transition, limits: PowerLimits, config: RuntimeConfig, c: Setting)
    returns (o: Output, a: Witness)
    requires Stale(s, t, limits, config, c.hw.regs, c.ranges, c.manner)
    requires c.hw.curve == CurveValue(s.curve) && c.hw.gpu == RangeValue(s.gpu, c.ranges)
    ensures Reduce(s, t, limits, config) == Ok(o) && Works(a, o, c)
  {
    BalancedIsQuiet(s, limits, config);
    hide ReduceRestoreDefaults, ReduceResume, Works, StaleDefaults, CurveValue, RangeValue, QuietFits;
    if t.SystemResumed? {
      o := ReduceResume(s, limits, config);
      a := ResumeWitness(s, limits, config, c);
    } else {
      o := ReduceRestoreDefaults(s, limits, config).value;
      a := DefaultsWitness(s, limits, config, c);
    }
  }

  /** A witness does not depend on the goal of its setting: it brings its own. */
  lemma WorksForAnyGoal(a: Witness, o: Output, c: Setting, goal: ProfileState)
    requires Works(a, o, c)
    ensures Works(a, o, c.(goal := goal))
  {
  }

  lemma WitnessAnswers(a: Witness, o: Output, c: Setting, answers: Env)
    requires Works(a, o, c)
    ensures AllAnswer(RefuseAt(answers, |a.head|, a.residue, a.drop))
    ensures Obeys(c.hw, ALL_CAPS, c.ranges, o.effects, RefuseAt(answers, |a.head|, a.residue, a.drop), 0, c.manner)
  {
    RefusedObeys(c.hw, c.ranges, a, answers, 0, |a.head|, c.manner);
  }

  lemma WitnessDiverges(w: World, t: Transition, o: Output, a: Witness, answers: Env, m: Manner)
    requires w.running && w.queue == [t] && w.capacity > 0 && w.caps == ALL_CAPS && !t.ConfigReload? && !t.Shutdown?
    requires Reduce(Refreshed(w, t, answers), t, RefreshedLimits(w, t, answers), w.config) == Ok(o)
    requires Works(a, o, Setting(w.hw, Publish(o.state), Ranges(w), m))
    ensures forall envs :: |envs| >= 1 ==>
              !ReadsBackWorld(Run(Tick(w, RefuseAt(answers, |a.head|, a.residue, a.drop)), Iterations(envs)))
  {
    var env, limits := RefuseAt(answers, |a.head|, a.residue, a.drop), RefreshedLimits(w, t, answers);
    var w1, goal, d := w.(queue := []), Publish(o.state), Settle(o.state, a.tail, ALL_DIRTY);
    assert Refreshed(w1, t, env) == Refreshed(w, t, answers) && RefreshedLimits(w1, t, env) == limits;
    hide Reduce, HandleAll, Settle, Dispatch, AgreesOff, Contradicts, ReadsBackWorld, Run, ReadTarget, RefuseAt,
         Publish, Refreshed, RefreshedLimits, Leaves, After, ResolveTiers;
    assert w.queue[1..] == [];
    ProcessUnfolds(w1, t, env, Ok(o));
    RefusedThenSettled(w1.(limits := limits, state := goal), Ranges(w), o.state, a, answers);
    PublishAgrees(o.state, a.sync, Tick(w, env).hw, w.caps, Ranges(w), d);
    StaleSyncDiverges(Tick(w, env), a.sync, d);
  }

  lemma PublishAgrees(s: ProfileState, sync: Transition, hw: Hw, caps: Caps, ranges: TierRanges, d: Dirty)
    requires AgreesOff(d, s, hw, caps, ranges, true) && Contradicts(sync, s, caps, ranges, d)
    ensures AgreesOff(d, Publish(s), hw, caps, ranges, true) && Contradicts(sync, Publish(s), caps, ranges, d)
    ensures Publish(Publish(s)) == Publish(s)
  {
    hide Holds, Write, CurveValue, RangeValue;
  }

  /** A stale transition can be made to diverge by one refusal in its manner: however long the drain, the published
      state does not read back. */
  lemma StaleCanDiverge(w: World, answers: Env, m: Manner) returns (env: Env)
    requires OneTransition(w, 1) && StaleWorld(w, answers, m)
    ensures env.ac == answers.ac && env.limits == answers.limits && AllAnswer(env) && ObeysWorld(w, env, m)
    ensures forall envs :: |envs| >= 1 ==> !ReadsBackWorld(Run(Tick(w, env), Iterations(envs)))
  {
    var s, t, limits := Base(w, answers), w.queue[0], RefreshedLimits(w, w.queue[0], answers);
    BaseReadsBack(w, answers);
    hide Works, Stale, Reduce, Run, ReadsBackWorld, Tick, Obeys, ResolveTiers, Holds;
    var o, a := StaleWitness(s, t, limits, w.config, Setting(w.hw, w.state, Ranges(w), m));
    env := RefuseAt(answers, |a.head|, a.residue, a.drop);
    WorksForAnyGoal(a, o, Setting(w.hw, w.state, Ranges(w), m), Publish(o.state));
    WitnessAnswers(a, o, Setting(w.hw, Publish(o.state), Ranges(w), m), answers);
    WitnessDiverges(w, t, o, a, answers, m);
  }

  /** Taking the transition off the queue changes nothing it depends on. */
  lemma QueueTaken(w: World, env: Env)
    requires OneTransition(w, 0)
    ensures var w1, t := w.(queue := []), w.queue[0];
            && Tick(w, env) == Process(w1, t, env) && Ranges(w1) == Ranges(w) && ReadsBackWorld(w1)
            && Refreshed(w1, t, env) == Base(w, env) && RefreshedLimits(w1, t, env) == RefreshedLimits(w, t, env)
  {
    hide Process, ReadsBack;
    assert w.queue[1..] == [];
  }

  /** A transition that is not stale always converges against refusals of that manner. */
  lemma NotStaleConverges(w: World, env: Env, envs: seq<Env>, m: Manner)
    requires OneTransition(w, Rollbacks(m)) && |envs| >= Rollbacks(m) && !StaleWorld(w, env, m)
    requires AllAnswer(env) && ObeysWorld(w, env, m)
    ensures var r := Run(Tick(w, env), Iterations(envs)); r.queue == [] && r.running && ReadsBackWorld(r)
  {
    var w1, s, t, limits := w.(queue := []), Base(w, env), w.queue[0], RefreshedLimits(w, w.queue[0], env);
    BaseReadsBack(w, env);
    QueueTaken(w, env);
    hide Stale, Reduce, Run, Process, Tick, Firm, Obeys, Writes, Ranges, Holds, CurveValue, RangeValue, Refreshed,
         RefreshedLimits, Base, ReadsBackWorld, AllAnswer, Iterations;
    var result := Reduce(s, t, limits, w.config);
    if result.Err? {
      RejectedConverges(w1, t, env, envs);
    } else {
      NotStaleFirm(s, t, limits, w.config, Setting(w.hw, Publish(result.value.state), Ranges(w), m));
      ProcessConverges(w1, t, env, envs, result.value, m);
    }
  }

  /** The answers to the resume's reads are all that staleness depends on. */
  lemma SameReads(w: World, env: Env, answers: Env, m: Manner)
    requires OneTransition(w, 0) && env.ac == answers.ac && env.limits == answers.limits
    ensures StaleWorld(w, env, m) == StaleWorld(w, answers, m)
  {
    hide Stale, OneTransition;
  }

  /** Whichever of the queued transition's writes are refused, in the manner, draining ends with a state that reads
      back. */
  ghost predicate AlwaysConverges(w: World, answers: Env, m: Manner)
    requires w.queue != []
  {
    forall env: Env, envs ::
      env.ac == answers.ac && env.limits == answers.limits && AllAnswer(env) && ObeysWorld(w, env, m)
        && |envs| >= Rollbacks(m)
      ==> ReadsBackWorld(Run(Tick(w, env), Iterations(envs)))
  }

  /** Exactly when rollback converges, for each manner of refusal: on a full-featured device, whatever subset of one
      transition's writes is refused in that manner, draining always ends with the published state reading back, if and
      only if the transition is not stale. */
  lemma ConvergesIff(w: World, answers: Env, m: Manner)
    requires OneTransition(w, Rollbacks(m))
    ensures AlwaysConverges(w, answers, m) <==> !StaleWorld(w, answers, m)
  {
    hide StaleWorld, ObeysWorld, AllAnswer, ReadsBackWorld, Run, Tick, Iterations;
    if StaleWorld(w, answers, m) {
      var env := StaleCanDiverge(w, answers, m);
      var envs := seq(Rollbacks(m), _ => env);
      assert !ReadsBackWorld(Run(Tick(w, env), Iterations(envs)));
    } else {
      forall env: Env, envs | env.ac == answers.ac && env.limits == answers.limits && AllAnswer(env)
                              && ObeysWorld(w, env, m) && |envs| >= Rollbacks(m)
        ensures ReadsBackWorld(Run(Tick(w, env), Iterations(envs)))
      {
        SameReads(w, env, answers, m);
        NotStaleConverges(w, env, envs, m);
      }
    }
  }

  /** With residues of any kind, the boundary is the double write itself. */
  lemma AnyResidueConvergesIff(w: World, answers: Env)
    requires OneTransition(w, 5)
    ensures (forall env: Env, envs ::
               env.ac == answers.ac && env.limits == answers.limits && AllAnswer(env) && |envs| >= 5 ==>
                 ReadsBackWorld(Run(Tick(w, env), Iterations(envs))))
       <==> !Rewrites(Base(w, answers), w.queue[0], RefreshedLimits(w, w.queue[0], answers), w.config)
  {
    ConvergesIff(w, answers, Anyhow);
    StaleAnyhow(Base(w, answers), w.queue[0], RefreshedLimits(w, w.queue[0], answers), w.config, w.hw.regs, Ranges(w),
                Anyhow);
    forall env: Env
      ensures ObeysWorld(w, env, Anyhow)
    {
      var r := Reduce(Base(w, env), w.queue[0], RefreshedLimits(w, w.queue[0], env), w.config);
      if r.Ok? {
        AnyhowObeys(w.hw, w.caps, Ranges(w), r.value.effects, env, 0);
      }
    }
  }

  /** A restore in which a rail that is written twice ends somewhere else than it was. */
  predicate MovesTwice(s: ProfileState, regs: Registers, limits: PowerLimits, config: RuntimeConfig) {
    var target, tier := QuietTarget(limits, config), QuietTier(limits, config);
    var moved := s.target != target;
    || (moved && s.gpuFollows && s.gpu.Some? && s.gpu != Some(PresetClock(tier)))
    || (s.profile != Performance && moved && ReadTarget(regs).Ok? && Write(regs, target) != regs)
    || (s.profile != Performance && (if s.fanFollows then moved else s.curve.Some?)
        && CurveValue(s.curve) != Some(Curves(PresetCurve(tier))))
  }

  /** The mildest hardware: a refused write leaves its rail exactly as it was and profile writes drop nothing. Even then
      a restore diverges, exactly when a twice-written rail moves. */
  lemma UnchangedRailConvergesIff(w: World, answers: Env, factory: GpuRange)
    requires OneTransition(w, 9)
    ensures var s, limits := Base(w, answers), RefreshedLimits(w, w.queue[0], answers);
            AlwaysConverges(w, answers, Ordinary(false, false, factory))
            <==> !(&& w.queue[0].RestoreDefaults? && !s.Locked() && QuietFits(limits, w.config)
                   && MovesTwice(s, w.hw.regs, limits, w.config))
  {
    ConvergesIff(w, answers, Ordinary(false, false, factory));
    hide AlwaysConverges, OneTransition, Base, RefreshedLimits, QuietFits, QuietTarget, QuietTier, CurveValue, Write,
         ReadTarget;
  }

  /** Such a restore exists for every configuration: a 7 to 35 W device at 10 W in its balanced profile, nothing
      managed. */
  lemma MildestRestoreDiverges(config: RuntimeConfig, answers: Env, factory: GpuRange, bounds: GpuConstraints)
    returns (w: World)
    ensures w.queue == [RestoreDefaults] && w.config == config && OneTransition(w, 9)
    ensures !AlwaysConverges(w, answers, Ordinary(false, false, factory))
  {
    var limits := PowerLimits(7000, 35000, 13000, 45000, 19000, 53000);
    var s := ProfileState(PowerTarget(10000, 13000, Some(19000)), ProfileName.Balanced, 80, false, None, true, None,
                          None, false, false, false);
    var hw := Hw(Registers(10, 13, 19), true, s.profile, s.charge, None, None, bounds);
    w := World(s, config, limits, [RestoreDefaults], 9, ALL_CAPS, hw, None, true);
    Presets.BalancedRejectedIff(s, limits, config);
    Presets.AcEdgeRejectedIff(s, false, limits, config);
    assert QuietTarget(limits, config).spl == 21000;
    hide AlwaysConverges;
    UnchangedRailConvergesIff(w, answers, factory);
  }
}
