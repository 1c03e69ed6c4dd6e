/** What a refused write leaves behind, and when that cannot matter.

    A rail that is written twice is the delicate case: if the first write is refused and the second lands, the queued
    rollback reports what the refusal left, not what the second write put there. `Firm` says of an effect list that
    wherever this can happen, what the refusal leaves already means what the goal asks for. */
module Refusals {
  import opened Units
  import opened Domain
  import opened FanTables
  import opened Inference
  import opened Reducer
  import opened Hardware
  import opened Executor
  import opened Settling
  import opened WriteOnce

  // ---- Manners of refusal ------------------------------------------------------

  /** How the hardware misbehaves. `Anyhow`: a refused write leaves its rail in any condition. `Ordinary`: it leaves the
      rail as it was or, if `partial`, as a prefix of the backend's own writes leaves it; `drops` says whether profile
      writes drop envelope and curve; `factory` is the clock range a reset table shows. */
  datatype Manner = Anyhow | Ordinary(partial: bool, drops: bool, factory: GpuRange) {
    predicate MayDrop() {
      Anyhow? || drops
    }
  }

  /** The first `k` of the three rails have been written. */
  function PartialWrite(regs: Registers, t: PowerTarget, k: nat): Registers {
    Registers(if k >= 1 then AsWatts(t.spl) else regs.spl, if k >= 2 then AsWatts(t.sppt) else regs.sppt, regs.fppt)
  }

  /** The first `n` of a fan's sixteen files have been written. */
  function MixedCurve(stored: FanCurve, wanted: FanCurve, n: int): FanCurve {
    seq(FAN_CURVE_POINTS, k requires 0 <= k < FAN_CURVE_POINTS =>
      FanPoint(if 2 * k < n then wanted[k].tempC else stored[k].tempC,
               if 2 * k + 1 < n then wanted[k].pwm else stored[k].pwm))
  }

  /** The first `n` of both fans' files have been written. */
  function MixedPair(stored: CurvePair, wanted: CurvePair, n: int): CurvePair {
    CurvePair(MixedCurve(stored.cpu, wanted.cpu, n), MixedCurve(stored.gpu, wanted.gpu, n - 2 * FAN_CURVE_POINTS))
  }

  ghost predicate LeavesCurve(stored: Option<CurvePair>, wanted: Option<CurvePair>, left: Option<CurvePair>,
                              partial: bool) {
    || left == stored
    || (partial && left == wanted)
    || (partial && stored.Some? && wanted.Some? && exists n :: left == Some(MixedPair(stored.value, wanted.value, n)))
  }

  predicate LeavesRange(e: Effect, range: Option<GpuRange>, left: Option<GpuRange>, ranges: TierRanges, m: Manner)
    requires m.Ordinary?
  {
    || left == range
    || (m.partial && e.ApplyGpu? && (left.None? || left == Some(ranges.Of(e.tier))))
    || (m.partial && (e.ApplyGpu? || range.Some?) && left == Some(m.factory))
  }

  /** The refused write `e` may leave its rail as in `left`. */
  ghost predicate Leaves(e: Effect, hw: Hw, left: Hw, ranges: TierRanges, m: Manner) {
    m.Anyhow? ||
    match e
    case ApplyProfile(_) => left.profile == hw.profile && (m.drops || (left.enforced && left.curve.Some?))
    case ApplyEnvelope(t) =>
      exists k: nat :: k <= (if m.partial then 2 else 0) && left.regs == PartialWrite(hw.regs, t, k)
    case ApplyCharge(_) => left.charge == hw.charge
    case ApplyCurve(s) => LeavesCurve(hw.curve, Some(Curves(s)), left.curve, m.partial)
    case DropCurve => LeavesCurve(hw.curve, None, left.curve, m.partial)
    case ApplyGpu(_) => LeavesRange(e, hw.gpu, left.gpu, ranges, m)
    case DropGpu => LeavesRange(e, hw.gpu, left.gpu, ranges, m)
    case PersistState => true
  }

  ghost predicate Fits(e: Effect, hw: Hw, o: Outcome, ranges: TierRanges, m: Manner) {
    match o
    case Landed(dropsEnvelope, dropsCurve) => e.ApplyProfile? && !m.MayDrop() ==> !dropsEnvelope && !dropsCurve
    case Refused(left, _) => Leaves(e, hw, left, ranges, m)
    case Skipped => true
  }

  /** Every outcome along the dispatch of a list is in the manner. */
  ghost predicate Obeys(hw: Hw, caps: Caps, ranges: TierRanges, effects: seq<Effect>, env: Env, i: nat, m: Manner)
    decreases |effects|
  {
    effects == [] ||
    (Fits(effects[0], hw, env.outcome(i), ranges, m)
     && Obeys(Dispatch(effects[0], hw, env.outcome(i), caps, ranges).hw, caps, ranges, effects[1..], env, i + 1, m))
  }

  // ---- Rails written later ---------------------------------------------------------

  function Rail(e: Effect): Dirty {
    Mark(e, CLEAN)
  }

  function Meet(a: Dirty, b: Dirty): Dirty {
    Dirty(a.profile && b.profile, a.envelope && b.envelope, a.charge && b.charge, a.curve && b.curve, a.gpu && b.gpu)
  }

  /** The rails still to be written, and those to be written at least twice. */
  datatype Later = Later(once: Dirty, twice: Dirty)

  const NEVER := Later(CLEAN, CLEAN)

  function Before(e: Effect, l: Later): Later {
    Later(Join(Rail(e), l.once), Join(l.twice, Meet(Rail(e), l.once)))
  }

  function Ahead(effects: seq<Effect>, l: Later): Later {
    if effects == [] then l else Before(effects[0], Ahead(effects[1..], l))
  }

  // ---- Harmless refusals --------------------------------------------------------------

  /** Two targets that fill the registers alike. */
  predicate SameTarget(x: PowerTarget, goal: PowerTarget) {
    && AsWatts(x.spl) == AsWatts(goal.spl) && AsWatts(x.sppt) == AsWatts(goal.sppt)
    && (x.fppt.Some? ==> goal.fppt.Some? && AsWatts(x.fppt.value) == AsWatts(goal.fppt.value))
  }

  /** What the refused write leaves reads back as what the goal means. */
  predicate Harmless(e: Effect, left: Hw, goal: ProfileState, ranges: TierRanges) {
    match e
    case ApplyProfile(_) => left.profile == goal.profile
    case ApplyEnvelope(_) => var found := ReadTarget(left.regs); found.Ok? ==> SameTarget(found.value, goal.target)
    case ApplyCharge(_) => left.charge == goal.charge
    case ApplyCurve(_) => CurveMatches(goal.curve, left.curve)
    case DropCurve => CurveMatches(goal.curve, left.curve)
    case ApplyGpu(_) => GpuMatches(goal.gpu, left.gpu, ranges)
    case DropGpu => GpuMatches(goal.gpu, left.gpu, ranges)
    case PersistState => true
  }

  /** The hardware a list starts from, the state it is to reach, and what can happen on the way. */
  datatype Setting = Setting(hw: Hw, goal: ProfileState, ranges: TierRanges, manner: Manner)

  ghost predicate AllHarmless(e: Effect, c: Setting) {
    forall left: Hw :: Leaves(e, c.hw, left, c.ranges, c.manner) ==> Harmless(e, left, c.goal, c.ranges)
  }

  /** One write, given what comes later: if its rail is written again, it is the last but one write and its refusal is
      harmless; a profile write drops no curve that still has two writes to come, nor one it could not restore. */
  ghost predicate FirmOne(e: Effect, l: Later, c: Setting) {
    && (Meet(Rail(e), l.once) != CLEAN ==> Meet(Rail(e), l.twice) == CLEAN && AllHarmless(e, c))
    && (e.ApplyProfile? && c.manner.MayDrop() ==> !l.twice.curve)
    && (Rail(e).curve && l.once.profile ==> c.goal.curve.Some?)
  }

  ghost predicate Firm(effects: seq<Effect>, l: Later, c: Setting) {
    effects == [] || (FirmOne(effects[0], Ahead(effects[1..], l), c) && Firm(effects[1..], l, c))
  }

  lemma {:induction false} FirmAppend(a: seq<Effect>, b: seq<Effect>, l: Later, c: Setting)
    ensures Ahead(a + b, l) == Ahead(a, Ahead(b, l))
    ensures Firm(a + b, l, c) <==> Firm(a, Ahead(b, l), c) && Firm(b, l, c)
  {
    if a == [] {
      assert a + b == b;
    } else {
      assert (a + b)[0] == a[0] && (a + b)[1..] == a[1..] + b;
      FirmAppend(a[1..], b, l, c);
    }
  }

  lemma FirmSingle(e: Effect, l: Later, c: Setting)
    ensures Ahead([e], l) == Before(e, l)
    ensures Firm([e], l, c) <==> FirmOne(e, l, c)
  {
    assert [e][1..] == [];
  }

  /** Saving is neither a write nor a risk. */
  lemma {:induction false} FirmWithoutPersist(effects: seq<Effect>, l: Later, c: Setting)
    ensures Ahead(WithoutPersist(effects), l) == Ahead(effects, l)
    ensures Firm(WithoutPersist(effects), l, c) <==> Firm(effects, l, c)
  {
    if effects != [] {
      var kept := When(effects[0] != PersistState, effects[0]);
      FirmAppend(kept, WithoutPersist(effects[1..]), l, c);
      FirmSingle(effects[0], Ahead(effects[1..], l), c);
      FirmWithoutPersist(effects[1..], l, c);
    }
  }

  lemma FirmCollapsed(effects: seq<Effect>, c: Setting)
    ensures Firm(CollapsePersist(effects), NEVER, c) <==> Firm(effects, NEVER, c)
  {
    var last := When(PersistState in effects, PersistState);
    FirmAppend(WithoutPersist(effects), last, NEVER, c);
    FirmSingle(PersistState, NEVER, c);
    FirmWithoutPersist(effects, NEVER, c);
  }

  /** How many writes a list holds: the most rollbacks it can cause. */
  function Writes(effects: seq<Effect>): nat {
    if effects == [] then 0 else (if effects[0].PersistState? then 0 else 1) + Writes(effects[1..])
  }

  function Room(written: bool): nat {
    if written then 0 else 1
  }

  function Unwritten(written: Dirty): nat {
    Room(written.profile) + Room(written.envelope) + Room(written.charge) + Room(written.curve) + Room(written.gpu)
  }

  /** Nothing a list still writes has been written, and no profile write follows what it may drop. */
  predicate Apart(once: Dirty, written: Dirty) {
    Meet(once, written) == CLEAN && (once.profile ==> !written.envelope && !written.curve)
  }

  lemma OnceStep(e: Effect, l: Later, written: Dirty, c: Setting)
    requires Allowed(e, written) && Apart(l.once, Mark(e, written)) && l.twice == CLEAN
    ensures Apart(Before(e, l).once, written) && Before(e, l).twice == CLEAN && FirmOne(e, l, c)
    ensures (if e.PersistState? then 0 else 1) + Unwritten(Mark(e, written)) <= Unwritten(written)
  {
    hide AllHarmless;
  }

  /** A list that writes each rail at most once is firm whatever happens, and causes at most one rollback per rail. */
  lemma {:induction false} OnceIsFirm(effects: seq<Effect>, written: Dirty, c: Setting)
    requires Once(effects, written)
    ensures Firm(effects, NEVER, c) && Writes(effects) <= Unwritten(written)
    ensures Apart(Ahead(effects, NEVER).once, written) && Ahead(effects, NEVER).twice == CLEAN
    decreases |effects|
  {
    if effects != [] {
      OnceIsFirm(effects[1..], Mark(effects[0], written), c);
      OnceStep(effects[0], Ahead(effects[1..], NEVER), written, c);
    }
  }
}
