/** A static account of what an effect list still owes the hardware.

    `Settle` walks a list once, assuming the worst of every profile write, and tracks which rails
    may differ from a goal state. It never looks at the hardware, so a fact about a reducer output
    holds against every adversary. */
module Settling {
  import opened Units
  import opened Domain
  import opened FanTables
  import opened Reducer
  import opened Hardware
  import opened Inference
  import opened Executor

  /** The rails that may disagree with the goal. */
  datatype Dirty = Dirty(profile: bool, envelope: bool, charge: bool, curve: bool, gpu: bool)

  const CLEAN := Dirty(false, false, false, false, false)

  function SettleOne(goal: ProfileState, e: Effect, d: Dirty): Dirty {
    match e
    case ApplyProfile(p) => d.(profile := p != goal.profile, envelope := true, curve := d.curve || goal.curve.Some?)
    case ApplyEnvelope(t) => d.(envelope := t != goal.target)
    case ApplyCharge(c) => d.(charge := c != goal.charge)
    case ApplyCurve(s) => d.(curve := goal.curve != Some(s))
    case DropCurve => d.(curve := goal.curve.Some?)
    case ApplyGpu(tier) => d.(gpu := goal.gpu != Some(PresetClock(tier)))
    case DropGpu => d.(gpu := goal.gpu.Some?)
    case PersistState => d
  }

  function Settle(goal: ProfileState, effects: seq<Effect>, d: Dirty): Dirty {
    if effects == [] then d else Settle(goal, effects[1..], SettleOne(goal, effects[0], d))
  }

  /** The rails on which two states differ. */
  function Changed(a: ProfileState, b: ProfileState): Dirty {
    Dirty(a.profile != b.profile, a.target != b.target, a.charge != b.charge, a.curve != b.curve, a.gpu != b.gpu)
  }

  predicate Within(a: Dirty, b: Dirty) {
    && (a.profile ==> b.profile) && (a.envelope ==> b.envelope) && (a.charge ==> b.charge)
    && (a.curve ==> b.curve) && (a.gpu ==> b.gpu)
  }

  // ---- Structure -------------------------------------------------------

  lemma {:induction false} SettleAppend(goal: ProfileState, a: seq<Effect>, b: seq<Effect>, d: Dirty)
    ensures Settle(goal, a + b, d) == Settle(goal, b, Settle(goal, a, d))
  {
    if a == [] {
      assert a + b == b;
    } else {
      assert (a + b)[0] == a[0] && (a + b)[1..] == a[1..] + b;
      SettleAppend(goal, a[1..], b, SettleOne(goal, a[0], d));
    }
  }

  lemma SettleSingle(goal: ProfileState, e: Effect, d: Dirty)
    ensures Settle(goal, [e], d) == SettleOne(goal, e, d)
  {
  }

  lemma SettlePair(goal: ProfileState, e: Effect, f: Effect, d: Dirty)
    ensures Settle(goal, [e, f], d) == SettleOne(goal, f, SettleOne(goal, e, d))
  {
    assert [e, f][1..] == [f];
    SettleSingle(goal, f, SettleOne(goal, e, d));
  }

  lemma SettleTriple(goal: ProfileState, e: Effect, f: Effect, g: Effect, d: Dirty)
    ensures Settle(goal, [e, f, g], d) == SettleOne(goal, g, SettleOne(goal, f, SettleOne(goal, e, d)))
  {
    assert [e, f, g][1..] == [f, g];
    SettlePair(goal, f, g, SettleOne(goal, e, d));
  }

  lemma SettleWhen(goal: ProfileState, condition: bool, e: Effect, d: Dirty)
    ensures Settle(goal, When(condition, e), d) == if condition then SettleOne(goal, e, d) else d
  {
  }

  /** Saving owes the hardware nothing, so collapsing the saves changes nothing owed. */
  lemma {:induction false} SettleWithoutPersist(goal: ProfileState, effects: seq<Effect>, d: Dirty)
    ensures Settle(goal, WithoutPersist(effects), d) == Settle(goal, effects, d)
  {
    if effects != [] {
      var d' := SettleOne(goal, effects[0], d);
      SettleAppend(goal, When(effects[0] != PersistState, effects[0]), WithoutPersist(effects[1..]), d);
      SettleWhen(goal, effects[0] != PersistState, effects[0], d);
      SettleWithoutPersist(goal, effects[1..], d');
    }
  }

  lemma SettleCollapsed(goal: ProfileState, effects: seq<Effect>, d: Dirty)
    ensures Settle(goal, CollapsePersist(effects), d) == Settle(goal, effects, d)
  {
    SettleAppend(goal, WithoutPersist(effects), When(PersistState in effects, PersistState), d);
    SettleWithoutPersist(goal, effects, d);
    SettleWhen(goal, PersistState in effects, PersistState, Settle(goal, effects, d));
  }

  function Join(a: Dirty, b: Dirty): Dirty {
    Dirty(a.profile || b.profile, a.envelope || b.envelope, a.charge || b.charge, a.curve || b.curve, a.gpu || b.gpu)
  }

  lemma SettleOneRetarget(mid: ProfileState, goal: ProfileState, e: Effect, d: Dirty, d': Dirty)
    requires Within(d', Join(d, Changed(mid, goal)))
    ensures Within(SettleOne(goal, e, d'), Join(SettleOne(mid, e, d), Changed(mid, goal)))
  {
    if e.ApplyCurve? || e.DropCurve? {
      CurveRetarget(mid, goal, e, d, d');
    } else if e.ApplyGpu? || e.DropGpu? {
      GpuRetarget(mid, goal, e, d, d');
    } else {
      OtherRetarget(mid, goal, e, d, d');
    }
    hide SettleOne, Within, Join, Changed;
  }

  lemma CurveRetarget(mid: ProfileState, goal: ProfileState, e: Effect, d: Dirty, d': Dirty)
    requires e.ApplyCurve? || e.DropCurve?
    requires Within(d', Join(d, Changed(mid, goal)))
    ensures Within(SettleOne(goal, e, d'), Join(SettleOne(mid, e, d), Changed(mid, goal)))
  {
  }

  lemma GpuRetarget(mid: ProfileState, goal: ProfileState, e: Effect, d: Dirty, d': Dirty)
    requires e.ApplyGpu? || e.DropGpu?
    requires Within(d', Join(d, Changed(mid, goal)))
    ensures Within(SettleOne(goal, e, d'), Join(SettleOne(mid, e, d), Changed(mid, goal)))
  {
  }

  lemma OtherRetarget(mid: ProfileState, goal: ProfileState, e: Effect, d: Dirty, d': Dirty)
    requires !e.ApplyCurve? && !e.DropCurve? && !e.ApplyGpu? && !e.DropGpu?
    requires Within(d', Join(d, Changed(mid, goal)))
    ensures Within(SettleOne(goal, e, d'), Join(SettleOne(mid, e, d), Changed(mid, goal)))
  {
  }

  /** Retargeting: relative to a later goal, a list leaves at most what it left before plus what the goals disagree
      on. */
  lemma {:induction false} SettleRetarget(mid: ProfileState, goal: ProfileState, effects: seq<Effect>, d: Dirty,
                                          d': Dirty)
    requires Within(d', Join(d, Changed(mid, goal)))
    ensures Within(Settle(goal, effects, d'), Join(Settle(mid, effects, d), Changed(mid, goal)))
    decreases |effects|
  {
    if effects != [] {
      SettleOneRetarget(mid, goal, effects[0], d, d');
      SettleRetarget(mid, goal, effects[1..], SettleOne(mid, effects[0], d), SettleOne(goal, effects[0], d'));
    }
  }

  /** Owing more beforehand can only leave more owed afterwards. */
  lemma SettleMonotone(goal: ProfileState, effects: seq<Effect>, d: Dirty, d': Dirty)
    requires Within(d, d')
    ensures Within(Settle(goal, effects, d), Settle(goal, effects, d'))
  {
    SettleRetarget(goal, goal, effects, d', d);
  }

  /** Lists that each pay for their own step pay, one after the other, for both steps. */
  lemma SettleCompose(s: ProfileState, mid: ProfileState, goal: ProfileState, a: seq<Effect>, b: seq<Effect>)
    requires Settle(mid, a, Changed(s, mid)) == CLEAN
    requires Settle(goal, b, Changed(mid, goal)) == CLEAN
    ensures Settle(goal, a + b, Changed(s, goal)) == CLEAN
  {
    SettleAppend(goal, a, b, Changed(s, goal));
    SettleRetarget(mid, goal, a, Changed(s, mid), Changed(s, goal));
    SettleMonotone(goal, b, Settle(goal, a, Changed(s, goal)), Changed(mid, goal));
  }

  // ---- Soundness against the adversary ----------------------------------

  /** Agreement on every rail that is not dirty. `strict` also asks for an enforced envelope. */
  predicate AgreesOff(d: Dirty, s: ProfileState, hw: Hw, caps: Caps, ranges: TierRanges, strict: bool) {
    && (d.profile || ProfileAgrees(s, hw, caps))
    && (d.envelope || (Holds(hw.regs, s.target) && (strict ==> hw.enforced)))
    && (d.charge || ChargeAgrees(s, hw, caps))
    && (d.curve || CurveAgrees(s, hw, caps))
    && (d.gpu || GpuAgrees(s, hw, caps, ranges))
  }

  ghost predicate AllLand(env: Env) {
    forall i: nat :: env.outcome(i).Landed?
  }

  lemma SettleOneSound(hw: Hw, caps: Caps, ranges: TierRanges, goal: ProfileState, e: Effect, o: Outcome, d: Dirty)
    requires o.Landed?
    requires AgreesOff(d, goal, hw, caps, ranges, true)
    ensures var r := Dispatch(e, hw, o, caps, ranges);
            AgreesOff(SettleOne(goal, e, d), goal, r.hw, caps, ranges, true) && r.sync.None?
  {
  }

  /** If every write lands, whatever a list settles really agrees afterwards, however profile writes misbehave. */
  lemma {:induction false} SettleSound(w: World, ranges: TierRanges, goal: ProfileState, effects: seq<Effect>, env: Env,
                                       i: nat, d: Dirty)
    requires AllLand(env)
    requires AgreesOff(d, goal, w.hw, w.caps, ranges, true)
    ensures var r := HandleAll(w, ranges, effects, env, i);
            AgreesOff(Settle(goal, effects, d), goal, r.hw, w.caps, ranges, true) && r.queue == w.queue
    decreases |effects|
  {
    if effects != [] {
      var e, o := effects[0], env.outcome(i);
      assert o.Landed?;
      var next := HandleEffect(w, ranges, e, o, env.saved(i));
      SettleOneSound(w.hw, w.caps, ranges, goal, e, o, d);
      SettleSound(next, ranges, goal, effects[1..], env, i + 1, SettleOne(goal, e, d));
    }
  }

  /** No write is refused; GPU writes may be skipped only if `skip` says so. */
  ghost predicate Unrefused(env: Env, skip: bool) {
    forall i: nat :: !env.outcome(i).Refused? && (env.outcome(i).Skipped? ==> skip)
  }

  /** A rail that may be skipped is never counted as settled. */
  function Off(d: Dirty, skip: bool): Dirty {
    d.(gpu := d.gpu || skip)
  }

  lemma SettleOneUnrefused(hw: Hw, caps: Caps, ranges: TierRanges, goal: ProfileState, e: Effect, o: Outcome, d: Dirty,
                           skip: bool)
    requires !o.Refused? && (o.Skipped? ==> skip)
    requires AgreesOff(Off(d, skip), goal, hw, caps, ranges, false)
    ensures var r := Dispatch(e, hw, o, caps, ranges);
            AgreesOff(Off(SettleOne(goal, e, d), skip), goal, r.hw, caps, ranges, false) && r.sync.None?
  {
    hide Curves;
  }

  /** The same account against the read-back alone, with GPU writes that may be skipped. */
  lemma {:induction false} SettleUnrefused(w: World, ranges: TierRanges, goal: ProfileState, effects: seq<Effect>,
                                           env: Env, i: nat, d: Dirty, skip: bool)
    requires Unrefused(env, skip)
    requires AgreesOff(Off(d, skip), goal, w.hw, w.caps, ranges, false)
    ensures var r := HandleAll(w, ranges, effects, env, i);
            AgreesOff(Off(Settle(goal, effects, d), skip), goal, r.hw, w.caps, ranges, false) && r.queue == w.queue
    decreases |effects|
  {
    hide AgreesOff, SettleOne, Off, Dispatch;
    if effects != [] {
      var e, o := effects[0], env.outcome(i);
      assert !o.Refused? && (o.Skipped? ==> skip);
      SettleOneUnrefused(w.hw, w.caps, ranges, goal, e, o, d, skip);
      HandledUnrefused(w, ranges, e, o, env.saved(i));
      SettleUnrefused(HandleEffect(w, ranges, e, o, env.saved(i)), ranges, goal, effects[1..], env, i + 1,
                      SettleOne(goal, e, d), skip);
    }
  }

  lemma HandledUnrefused(w: World, ranges: TierRanges, e: Effect, o: Outcome, saved: bool)
    requires Dispatch(e, w.hw, o, w.caps, ranges).sync.None?
    ensures var r := HandleEffect(w, ranges, e, o, saved);
            r.hw == Dispatch(e, w.hw, o, w.caps, ranges).hw && r.caps == w.caps && r.queue == w.queue
  {
  }
}
