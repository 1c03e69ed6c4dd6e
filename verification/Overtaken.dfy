/** A rollback that waits behind another command. It reports what the hardware read when the write was refused; if the
    command in front of it writes the same rail, the report is out of date by the time it is applied. */
module Overtaken {
  import opened Units
  import opened Domain
  import opened FanTables
  import opened Envelope
  import opened Inference
  import opened Reducer
  import opened Hardware
  import opened Executor
  import opened Settling
  import opened Coherence
  import opened WriteOnce
  import opened Refusals
  import opened Rollback
  import opened Staleness
  import opened Divergence

  /** The rails a list writes. */
  function Written(effects: seq<Effect>): Dirty {
    Ahead(effects, NEVER).once
  }

  /** The rail a rollback corrects. */
  function Corrects(sync: Transition): Dirty
    requires sync.IsSync()
  {
    match sync
    case SyncPowerTarget(_) => CLEAN.(envelope := true)
    case SyncPlatformProfile(_) => CLEAN.(profile := true)
    case SyncChargeThreshold(_) => CLEAN.(charge := true)
    case SyncFanCurve(_) => CLEAN.(curve := true)
    case SyncGpuClockRange(_) => CLEAN.(gpu := true)
  }

  /** The command writes the rail the rollback reports, with something else; or its profile write may drop the reported
      curve without re-asserting one. */
  predicate OutOfDate(sync: Transition, o: Output, regs: Registers, ranges: TierRanges) {
    var written, goal := Written(o.effects), o.state;
    match sync
    case SyncPowerTarget(found) => written.envelope && !Holds(Write(regs, goal.target), found)
    case SyncPlatformProfile(found) => written.profile && found != goal.profile
    case SyncChargeThreshold(found) => written.charge && found != goal.charge
    case SyncFanCurve(found) =>
      if written.curve then CurveValue(found) != CurveValue(goal.curve) else written.profile && found.Some?
    case SyncGpuClockRange(found) => written.gpu && found != RangeValue(goal.gpu, ranges)
    case _ => false
  }

  // ---- What a landing list leaves --------------------------------------------------------

  predicate SameOff(w: Dirty, a: Hw, b: Hw) {
    && (w.profile || b.profile == a.profile) && (w.envelope || b.regs == a.regs) && (w.charge || b.charge == a.charge)
    && (w.gpu || b.gpu == a.gpu) && (w.curve || b.curve == a.curve || (w.profile && b.curve.None?))
  }

  lemma StepFrame(w: World, ranges: TierRanges, e: Effect, o: Outcome, saved: bool)
    requires o.Landed?
    ensures var r := HandleEffect(w, ranges, e, o, saved);
            SameOff(Rail(e), w.hw, r.hw) && r.caps == w.caps
    ensures e.ApplyProfile? && o.dropsCurve && w.caps.profile ==> HandleEffect(w, ranges, e, o, saved).hw.curve.None?
    ensures e.ApplyEnvelope? ==> HandleEffect(w, ranges, e, o, saved).hw.regs == Write(w.hw.regs, e.target)
  {
  }

  lemma FrameJoins(a: Hw, b: Hw, c: Hw, e: Effect, l: Later)
    requires SameOff(Rail(e), a, b) && SameOff(l.once, b, c)
    ensures SameOff(Before(e, l).once, a, c)
  {
  }

  /** Unwritten rails stay; a dropped curve that is not written again stays away; registers hold the one target
      written. */
  lemma {:induction false} LandedFrame(w: World, ranges: TierRanges, effects: seq<Effect>, env: Env, i: nat,
                                       t: PowerTarget)
    requires AllLand(env) && w.caps == ALL_CAPS
    requires forall e :: e in effects && e.ApplyEnvelope? ==> e.target == t
    ensures var r, m := HandleAll(w, ranges, effects, env, i), Written(effects);
            && SameOff(m, w.hw, r.hw)
            && (!m.curve
                && (w.hw.curve.None? || (m.profile && forall k: nat :: env.outcome(k) == Landed(true, true))) ==>
                  r.hw.curve.None?)
            && (m.envelope ==> r.hw.regs == Write(w.hw.regs, t))
    decreases |effects|
  {
    hide HandleEffect, Write;
    if effects != [] {
      var e, o, rest := effects[0], env.outcome(i), effects[1..];
      assert o.Landed?;
      var next := HandleEffect(w, ranges, e, o, env.saved(i));
      StepFrame(w, ranges, e, o, env.saved(i));
      LandedFrame(next, ranges, rest, env, i + 1, t);
      FrameJoins(w.hw, next.hw, HandleAll(next, ranges, rest, env, i + 1).hw, e, Ahead(rest, NEVER));
      WriteTwice(w.hw.regs, t);
    }
  }

  lemma WriteTwice(regs: Registers, t: PowerTarget)
    ensures Write(Write(regs, t), t) == Write(regs, t)
  {
  }

  // ---- The account with one rail wrong from the start ---------------------------------------

  /** Where two accounts agree, or the list writes the rail, they end alike. */
  predicate Alike(d: Dirty, e: Dirty, w: Dirty) {
    && (d.profile == e.profile || w.profile) && (d.envelope == e.envelope || w.envelope)
    && (d.charge == e.charge || w.charge)
    && (d.curve == e.curve || w.curve) && (d.gpu == e.gpu || w.gpu)
  }

  lemma OneForgets(goal: ProfileState, e: Effect, d: Dirty, d': Dirty, l: Later, off: Dirty)
    requires Alike(d, d', Join(Before(e, l).once, off))
    ensures Alike(SettleOne(goal, e, d), SettleOne(goal, e, d'), Join(l.once, off))
  {
    if e.ApplyCurve? || e.DropCurve? {
      CurveForgets(goal, e, d, d', l, off);
    } else if e.ApplyGpu? || e.DropGpu? {
      GpuForgets(goal, e, d, d', l, off);
    } else {
      OtherForgets(goal, e, d, d', l, off);
    }
    hide SettleOne, Alike, Join, Before;
  }

  lemma CurveForgets(goal: ProfileState, e: Effect, d: Dirty, d': Dirty, l: Later, off: Dirty)
    requires e.ApplyCurve? || e.DropCurve?
    requires Alike(d, d', Join(Before(e, l).once, off))
    ensures Alike(SettleOne(goal, e, d), SettleOne(goal, e, d'), Join(l.once, off))
  {
  }

  lemma GpuForgets(goal: ProfileState, e: Effect, d: Dirty, d': Dirty, l: Later, off: Dirty)
    requires e.ApplyGpu? || e.DropGpu?
    requires Alike(d, d', Join(Before(e, l).once, off))
    ensures Alike(SettleOne(goal, e, d), SettleOne(goal, e, d'), Join(l.once, off))
  {
  }

  lemma OtherForgets(goal: ProfileState, e: Effect, d: Dirty, d': Dirty, l: Later, off: Dirty)
    requires !e.ApplyCurve? && !e.DropCurve? && !e.ApplyGpu? && !e.DropGpu?
    requires Alike(d, d', Join(Before(e, l).once, off))
    ensures Alike(SettleOne(goal, e, d), SettleOne(goal, e, d'), Join(l.once, off))
  {
  }

  lemma {:induction false} SettleForgets(goal: ProfileState, effects: seq<Effect>, d: Dirty, d': Dirty, off: Dirty)
    requires Alike(d, d', Join(Written(effects), off))
    ensures Alike(Settle(goal, effects, d), Settle(goal, effects, d'), off)
    decreases |effects|
  {
    hide Alike, SettleOne, Before, Join;
    if effects == [] {
      NothingForgotten(d, d', off);
    } else {
      OneForgets(goal, effects[0], d, d', Ahead(effects[1..], NEVER), off);
      SettleForgets(goal, effects[1..], SettleOne(goal, effects[0], d), SettleOne(goal, effects[0], d'), off);
    }
  }

  lemma NothingForgotten(d: Dirty, d': Dirty, off: Dirty)
    requires Alike(d, d', Join(CLEAN, off))
    ensures Alike(d, d', off)
  {
  }

  // ---- Only one target is ever written ------------------------------------------------------

  predicate OneTarget(effects: seq<Effect>, t: PowerTarget) {
    forall e :: e in effects && e.ApplyEnvelope? ==> e.target == t
  }

  lemma AppliedTarget(s: ProfileState, target: PowerTarget, limits: PowerLimits, config: RuntimeConfig)
    ensures var o := ApplyPowerTarget(s, target, limits, config); OneTarget(o.effects, o.state.target)
  {
    hide InferTier;
  }

  lemma TargetAppend(a: seq<Effect>, b: seq<Effect>, t: PowerTarget)
    ensures OneTarget(a + b, t) <==> OneTarget(a, t) && OneTarget(b, t)
  {
  }

  lemma LaterTargets(s: ProfileState, limits: PowerLimits, config: RuntimeConfig)
    ensures var b := ReduceSetProfile(s, Performance);
            var c := ReduceCharge(b.state, DEFAULT_CHARGE_THRESHOLD);
            var d := ReduceEnableFanAuto(c.state, limits, config);
            OneTarget(b.effects, s.target)
              && OneTarget(c.effects + d.effects + ReduceResetGpu(d.state).effects, s.target)
  {
    hide InferTier;
  }

  lemma CollapsedTarget(effects: seq<Effect>, t: PowerTarget)
    requires OneTarget(effects, t)
    ensures OneTarget(CollapsePersist(effects), t)
  {
    TargetAppend(WithoutPersist(effects), When(PersistState in effects, PersistState), t);
  }

  lemma DefaultsTarget(s: ProfileState, limits: PowerLimits, config: RuntimeConfig)
    requires ReduceRestoreDefaults(s, limits, config).Ok?
    ensures var o := ReduceRestoreDefaults(s, limits, config).value; OneTarget(o.effects, o.state.target)
  {
    DefaultsIsParts(s, limits, config);
    LaterStepsKeep(s, limits, config);
    var p := DefaultsParts(s, limits, config);
    AppliedTarget(s, QuietTarget(limits, config), limits, config);
    LaterTargets(p.a.state, limits, config);
    hide OneTarget, InferTier, ReduceRestoreDefaults, ReduceSetPreset, ApplyPowerTarget, QuietTarget, CollapsePersist;
    TargetAppend(p.b.effects, p.From(2), p.a.state.target);
    TargetAppend(p.a.effects, p.From(1), p.a.state.target);
    CollapsedTarget(p.From(0), p.a.state.target);
  }

  lemma ForcedTarget(s: ProfileState, limits: PowerLimits, config: RuntimeConfig)
    ensures var o := ForceAcMax(s, limits, config); OneTarget(o.effects, o.state.target)
  {
    hide DeriveBoosted;
  }

  lemma RestoredTarget(s: ProfileState, snapshot: DcSnapshot)
    ensures var o := RestoreDc(s, snapshot); OneTarget(o.effects, o.state.target)
  {
  }

  lemma ReduceOneTarget(s: ProfileState, t: Transition, limits: PowerLimits, config: RuntimeConfig)
    requires Reduce(s, t, limits, config).Ok?
    ensures var o := Reduce(s, t, limits, config).value; OneTarget(o.effects, o.state.target)
  {
    hide InferTier, DeriveBoosted, PresetWatts, Validate, ReduceRestoreDefaults, ApplyPowerTarget, ReduceResume,
         ReduceSetAcMax, ReducePlug, ReduceUnplug;
    if !(s.Locked() && t.IsLockedWrite()) {
      match t
      case SetPreset(preset) =>
        AppliedTarget(s, DeriveBoosted(FromWatts(PresetWatts(preset, limits, config)).value, limits, config), limits,
                      config);
      case SetSpl(watts) => AppliedTarget(s, DeriveBoosted(FromWatts(watts).value, limits, config), limits, config);
      case SetEnvelope(target) => AppliedTarget(s, target, limits, config);
      case RestoreDefaults => DefaultsTarget(s, limits, config);
      case AcPowerChanged(plugged) => EdgeTarget(s, plugged, limits, config);
      case SystemResumed => ResumeTarget(s, limits, config);
      case SetAcMaxPerformance(enabled) => ToggleTarget(s, enabled, limits, config);
      case _ =>
    }
  }

  lemma ResumeTarget(s: ProfileState, limits: PowerLimits, config: RuntimeConfig)
    ensures var o := ReduceResume(s, limits, config); OneTarget(o.effects, o.state.target)
  {
    ForcedTarget(s, limits, config);
    if s.lastDc.Some? {
      RestoredTarget(s, s.lastDc.value);
    }
    hide RestoreDc, ForceAcMax;
  }

  lemma ToggleTarget(s: ProfileState, enabled: bool, limits: PowerLimits, config: RuntimeConfig)
    ensures var o := ReduceSetAcMax(s, enabled, limits, config); OneTarget(o.effects, o.state.target)
  {
    ForcedTarget(s, limits, config);
    if s.lastDc.Some? {
      RestoredTarget(s, s.lastDc.value);
    }
    hide RestoreDc, ForceAcMax;
  }

  lemma EdgeTarget(s: ProfileState, plugged: bool, limits: PowerLimits, config: RuntimeConfig)
    requires Reduce(s, AcPowerChanged(plugged), limits, config).Ok?
    ensures var o := Reduce(s, AcPowerChanged(plugged), limits, config).value; OneTarget(o.effects, o.state.target)
  {
    var view := s.(acConnected := false, fanFollows := true);
    BalancedIsQuiet(view, limits, config);
    AppliedTarget(view, QuietTarget(limits, config), limits, config);
    ForcedTarget(s, limits, config);
    assert OneTarget([PersistState], ForceAcMax(s, limits, config).state.target);
    TargetAppend(ForceAcMax(s, limits, config).effects, [PersistState], ForceAcMax(s, limits, config).state.target);
    assert OneTarget([], s.target);
    if s.lastDc.Some? {
      RestoredTarget(s, s.lastDc.value);
    }
    hide OneTarget, InferTier, DeriveBoosted, ReduceSetPreset, ApplyPowerTarget, RestoreDc, ForceAcMax, QuietTarget,
         QuietFits;
  }

  // ---- The exact condition --------------------------------------------------------------------

  /** Hardware that agrees on every rail but the reported one, which is as reported, until the list has landed. */
  lemma LandsUnder(w: World, ranges: TierRanges, base: ProfileState, o: Output, sync: Transition, env: Env)
    requires sync.IsSync() && AllLand(env) && w.caps == ALL_CAPS
    requires ReadsBack(Believe(base, sync), w.hw, w.caps, ranges)
    requires Settle(o.state, o.effects, Changed(base, o.state)) == CLEAN
    ensures var r, off := HandleAll(w, ranges, o.effects, env, 0), Corrects(sync);
            && r.queue == w.queue
            && AgreesOff(if Meet(off, Written(o.effects)) == off then CLEAN else off, o.state, r.hw, ALL_CAPS, ranges,
                         false)
  {
    hide Settle, AgreesOff, Alike, HandleAll, Written;
    var changed, off := Changed(base, o.state), Corrects(sync);
    var d, left := Join(changed, off), if Meet(off, Written(o.effects)) == off then CLEAN else off;
    StartsUnder(base, o.state, sync, w.hw, ranges);
    SettleUnrefused(w, ranges, o.state, o.effects, env, 0, d, false);
    AlikeFromStart(changed, off, Written(o.effects), left);
    SettleForgets(o.state, o.effects, changed, d, left);
    AlikeAtEnd(Settle(o.state, o.effects, d), left, o.state, HandleAll(w, ranges, o.effects, env, 0).hw, ranges);
  }

  lemma StartsUnder(base: ProfileState, goal: ProfileState, sync: Transition, hw: Hw, ranges: TierRanges)
    requires sync.IsSync() && ReadsBack(Believe(base, sync), hw, ALL_CAPS, ranges)
    ensures AgreesOff(Off(Join(Changed(base, goal), Corrects(sync)), false), goal, hw, ALL_CAPS, ranges, false)
  {
    hide Holds, CurveMatches, GpuMatches;
  }

  lemma AlikeFromStart(changed: Dirty, off: Dirty, written: Dirty, left: Dirty)
    requires left == if Meet(off, written) == off then CLEAN else off
    ensures Alike(changed, Join(changed, off), Join(written, left))
  {
  }

  lemma AlikeAtEnd(d: Dirty, left: Dirty, goal: ProfileState, hw: Hw, ranges: TierRanges)
    requires Alike(CLEAN, d, left) && AgreesOff(Off(d, false), goal, hw, ALL_CAPS, ranges, false)
    ensures AgreesOff(left, goal, hw, ALL_CAPS, ranges, false)
  {
    hide Holds, CurveMatches, GpuMatches;
  }

  /** Reading back with the rollback applied is a matter of the reported rail alone. */
  lemma ReportedRail(base: ProfileState, o: Output, sync: Transition, before: Hw, after: Hw, ranges: TierRanges,
                     dropped: bool)
    requires sync.IsSync() && ReadsBack(Believe(base, sync), before, ALL_CAPS, ranges)
    requires var off, w := Corrects(sync), Written(o.effects);
             && AgreesOff(if Meet(off, w) == off then CLEAN else off, o.state, after, ALL_CAPS, ranges, false)
             && SameOff(w, before, after) && (w.envelope ==> after.regs == Write(before.regs, o.state.target))
             && (dropped && !w.curve && w.profile ==> after.curve.None?)
    ensures !OutOfDate(sync, o, before.regs, ranges) ==>
              ReadsBack(Believe(Publish(o.state), sync), after, ALL_CAPS, ranges)
    ensures dropped && OutOfDate(sync, o, before.regs, ranges) ==>
              !ReadsBack(Believe(Publish(o.state), sync), after, ALL_CAPS, ranges)
  {
    hide Written, Curves, Write, Holds;
  }

  /** A rollback waiting behind one ordinary command; taken at once it would repair the state. */
  predicate Waiting(w: World, t: Transition, sync: Transition) {
    && w.running && w.queue == [t, sync] && w.caps == ALL_CAPS
    && sync.IsSync() && !t.IsSync() && !t.ConfigReload? && !t.Shutdown?
    && ReadsBack(Believe(w.state, sync), w.hw, w.caps, Ranges(w))
  }

  lemma HeadTaken(w: World, t: Transition, sync: Transition, env: Env)
    requires Waiting(w, t, sync)
    ensures var w1, base := w.(queue := [sync]), Refreshed(w, t, env);
            && Tick(w, env) == Process(w1, t, env) && Ranges(w1) == Ranges(w)
            && Refreshed(w1, t, env) == base && RefreshedLimits(w1, t, env) == RefreshedLimits(w, t, env)
            && ReadsBack(Believe(base, sync), w.hw, ALL_CAPS, Ranges(w))
  {
    hide Process, Holds, CurveMatches, GpuMatches;
    assert [t, sync][1..] == [sync];
  }

  /** Draining the one rollback that is left. */
  lemma OneLeft(w: World, sync: Transition, envs: seq<Env>)
    requires w.running && w.queue == [sync] && sync.IsSync() && Publish(w.state) == w.state && |envs| >= 1
    ensures Run(w, Iterations(envs)) == w.(queue := [], state := Believe(w.state, sync))
  {
    DrainSyncs(w, envs);
    assert [sync][1..] == [];
    assert BelieveAll(w.state, [sync]) == Believe(w.state, sync);
  }

  /** The command lands, then the rollback is applied. */
  lemma CommandThenRollback(w: World, t: Transition, sync: Transition, env: Env, envs: seq<Env>, o: Output)
    requires Waiting(w, t, sync) && AllLand(env) && |envs| >= 1
    requires Reduce(Refreshed(w, t, env), t, RefreshedLimits(w, t, env), w.config) == Ok(o)
    ensures var r := Run(Tick(w, env), Iterations(envs));
            && r.queue == []
            && (!OutOfDate(sync, o, w.hw.regs, Ranges(w)) ==> ReadsBackWorld(r))
            && ((forall k: nat :: env.outcome(k) == Landed(true, true)) && OutOfDate(sync, o, w.hw.regs, Ranges(w)) ==>
                  !ReadsBackWorld(r))
  {
    var base, limits, w1 := Refreshed(w, t, env), RefreshedLimits(w, t, env), w.(queue := [sync]);
    HeadTaken(w, t, sync, env);
    ReduceSettles(base, t, limits, w.config);
    ReduceOneTarget(base, t, limits, w.config);
    ProcessUnfolds(w1, t, env, Ok(o));
    hide Reduce, HandleAll, Settle, Process, Tick, Run, ReadsBack, OutOfDate, AgreesOff, SameOff, Written, Write,
         ResolveTiers, Refreshed, RefreshedLimits, Believe, Iterations;
    var w2 := w1.(limits := limits, state := Publish(o.state));
    LandsUnder(w2, Ranges(w), base, o, sync, env);
    LandedFrame(w2, Ranges(w), o.effects, env, 0, o.state.target);
    HandleAllFrame(w2, Ranges(w), o.effects, env, 0);
    var landed := HandleAll(w2, Ranges(w), o.effects, env, 0);
    OneLeft(landed, sync, envs);
    ReportedRail(base, o, sync, w.hw, landed.hw, Ranges(w), forall k: nat :: env.outcome(k) == Landed(true, true));
  }

  /** A rejected command changes nothing, so the rollback still fits. */
  lemma RejectedThenRollback(w: World, t: Transition, sync: Transition, env: Env, envs: seq<Env>)
    requires Waiting(w, t, sync) && |envs| >= 1 && Publish(w.state) == w.state
    requires Reduce(Refreshed(w, t, env), t, RefreshedLimits(w, t, env), w.config).Err?
    ensures ReadsBackWorld(Run(Tick(w, env), Iterations(envs)))
  {
    HeadTaken(w, t, sync, env);
    ProcessUnfolds(w.(queue := [sync]), t, env, Reduce(Refreshed(w, t, env), t, RefreshedLimits(w, t, env), w.config));
    hide Reduce, Process, Tick, Run, ReadsBack, Believe, Iterations;
    OneLeft(w.(queue := [sync], limits := RefreshedLimits(w, t, env)), sync, envs);
  }

  /** However the command's writes land, profile writes that drop a curve included, the state reads back in the end. */
  ghost predicate StillRepairs(w: World, answers: Env) {
    forall env: Env, envs ::
      env.ac == answers.ac && env.limits == answers.limits && AllLand(env) && |envs| >= 1
      ==> ReadsBackWorld(Run(Tick(w, env), Iterations(envs)))
  }

  /** Exactly when a rollback survives the command in front of it: the command is rejected, or it leaves the reported
      rail alone, or it ends where the report says. */
  lemma QueuedRollbackIff(w: World, t: Transition, sync: Transition, answers: Env)
    requires Waiting(w, t, sync) && Publish(w.state) == w.state
    ensures var r := Reduce(Refreshed(w, t, answers), t, RefreshedLimits(w, t, answers), w.config);
            StillRepairs(w, answers) <==> (r.Ok? ==> !OutOfDate(sync, r.value, w.hw.regs, Ranges(w)))
  {
    var r := Reduce(Refreshed(w, t, answers), t, RefreshedLimits(w, t, answers), w.config);
    hide Reduce, Run, Tick, ReadsBackWorld, OutOfDate, Waiting, ResolveTiers, Iterations;
    forall env: Env, envs | env.ac == answers.ac && env.limits == answers.limits && AllLand(env) && |envs| >= 1
                            && (r.Ok? ==> !OutOfDate(sync, r.value, w.hw.regs, Ranges(w)))
      ensures ReadsBackWorld(Run(Tick(w, env), Iterations(envs)))
    {
      if r.Ok? {
        CommandThenRollback(w, t, sync, env, envs, r.value);
      } else {
        RejectedThenRollback(w, t, sync, env, envs);
      }
    }
    if r.Ok? && OutOfDate(sync, r.value, w.hw.regs, Ranges(w)) {
      var env := AllLanded(answers, true);
      CommandThenRollback(w, t, sync, env, [env], r.value);
    }
  }

  // ---- Commands on the same rail ------------------------------------------------------------------

  /** What the single-lever commands make of a report about their own rail. */
  lemma SameRailOutOfDate(s: ProfileState, t: Transition, sync: Transition, limits: PowerLimits, config: RuntimeConfig,
                          regs: Registers, ranges: TierRanges)
    requires !s.Locked() && Reduce(s, t, limits, config).Ok?
    ensures var late := OutOfDate(sync, Reduce(s, t, limits, config).value, regs, ranges);
            && (t.ChargeThresholdChanged? && sync.SyncChargeThreshold? ==>
                  (!late <==> t.threshold == s.charge || t.threshold == sync.realThreshold))
            && (t.SetProfile? && sync.SyncPlatformProfile? ==>
                  (!late <==> t.newProfile == s.profile || t.newProfile == sync.realProfile))
            && (t.SetCoolingLevel? && sync.SyncFanCurve? ==>
                  (!late <==> CurveValue(sync.realCurve) == Some(Curves(PresetCurve(t.level)))))
            && (t.ResetGpuClocks? && sync.SyncGpuClockRange? ==> (!late <==> s.gpu.None? || sync.realRange.None?))
            && (t.SetEnvelope? && sync.SyncPowerTarget? ==>
                  (!late <==> t.envelope == s.target || Holds(Write(regs, t.envelope), sync.realTarget)))
  {
    hide Validate, InferTier, Holds, Write, Curves;
  }

  /** The single-lever commands: a rollback of the same rail goes stale exactly if the command changes the rail to
      something else than the rollback reports. */
  lemma SameRailIff(w: World, t: Transition, sync: Transition, answers: Env)
    requires Waiting(w, t, sync) && Publish(w.state) == w.state && !w.state.Locked()
    ensures t.ChargeThresholdChanged? && sync.SyncChargeThreshold? ==>
              (StillRepairs(w, answers) <==> t.threshold == w.state.charge || t.threshold == sync.realThreshold)
    ensures t.SetProfile? && sync.SyncPlatformProfile? ==>
              (StillRepairs(w, answers) <==> t.newProfile == w.state.profile || t.newProfile == sync.realProfile)
    ensures t.SetCoolingLevel? && sync.SyncFanCurve? ==>
              (StillRepairs(w, answers) <==> CurveValue(sync.realCurve) == Some(Curves(PresetCurve(t.level))))
    ensures t.ResetGpuClocks? && sync.SyncGpuClockRange? ==>
              (StillRepairs(w, answers) <==> w.state.gpu.None? || sync.realRange.None?)
    ensures t.SetEnvelope? && sync.SyncPowerTarget? && Validate(t.envelope, w.limits).Ok? ==>
              (StillRepairs(w, answers) <==>
                 t.envelope == w.state.target || Holds(Write(w.hw.regs, t.envelope), sync.realTarget))
  {
    QueuedRollbackIff(w, t, sync, answers);
    if Reduce(w.state, t, w.limits, w.config).Ok? {
      SameRailOutOfDate(w.state, t, sync, w.limits, w.config, w.hw.regs, Ranges(w));
    }
    hide StillRepairs, Waiting, Validate, InferTier, Holds, Write, Curves, OutOfDate, ResolveTiers;
  }

  /** The whole story on one rail: two charge thresholds are queued, the first is refused and leaves something, the
      second lands, and the first one's rollback has the last word. */
  lemma ChargeTwice(w: World, a: U8, b: U8, first: Env, second: Env, third: Env)
    requires w.running && w.queue == [ChargeThresholdChanged(a), ChargeThresholdChanged(b)] && w.capacity >= 2
    requires w.caps.charge && ReadsBackWorld(w) && a != w.state.charge
    requires first.outcome(0).Refused? && first.outcome(0).readable && second.outcome(0).Landed?
    ensures var r := Run(w, [Iterate(first), Iterate(second), Iterate(third)]);
            r.queue == [] && (ReadsBackWorld(r) <==> a == b || first.outcome(0).residue.charge == b)
  {
    var left := first.outcome(0).residue.charge;
    var w1, w2 := Tick(w, first), Tick(Tick(w, first), second);
    hide ReadsBackWorld, Tick, Ranges, Run;
    RefusedCharge(w, a, [ChargeThresholdChanged(b)], first);
    LandedCharge(w1, b, [SyncChargeThreshold(left)], second);
    ChargeSynced(w2, left, third);
    RunThree(w, first, second, third);
    ChargeRail(w, Tick(w2, third));
  }

  lemma RunThree(w: World, first: Env, second: Env, third: Env)
    ensures Run(w, [Iterate(first), Iterate(second), Iterate(third)]) == Tick(Tick(Tick(w, first), second), third)
  {
    hide Tick;
    var w1, w2 := Tick(w, first), Tick(Tick(w, first), second);
    assert [Iterate(first), Iterate(second), Iterate(third)][1..] == [Iterate(second), Iterate(third)];
    assert [Iterate(second), Iterate(third)][1..] == [Iterate(third)] && [Iterate(third)][1..] == [];
    assert Run(w2, [Iterate(third)]) == Tick(w2, third);
    assert Run(w1, [Iterate(second), Iterate(third)]) == Run(w2, [Iterate(third)]);
  }

  lemma RefusedCharge(w: World, a: U8, rest: seq<Transition>, env: Env)
    requires w.running && w.queue == [ChargeThresholdChanged(a)] + rest && |rest| < w.capacity && w.caps.charge
    requires a != w.state.charge && env.outcome(0).Refused? && env.outcome(0).readable
    ensures var r, left := Tick(w, env), env.outcome(0).residue.charge;
            && r.running && r.queue == rest + [SyncChargeThreshold(left)] && r.state == Publish(w.state.(charge := a))
            && r.hw == w.hw.(charge := left) && r.caps == w.caps && r.config == w.config && r.capacity == w.capacity
  {
    var o := ReduceCharge(w.state, a);
    assert w.queue[1..] == rest;
    ProcessUnfolds(w.(queue := rest), ChargeThresholdChanged(a), env, Ok(o));
    SaveAfter(w.(queue := rest, state := Publish(o.state)), o.effects[0], env);
  }

  lemma SaveAfter(w: World, e: Effect, env: Env)
    ensures var next, r := HandleEffect(w, Ranges(w), e, env.outcome(0), env.saved(0)),
                           HandleAll(w, Ranges(w), [e, PersistState], env, 0);
            r == next.(disk := r.disk)
  {
    var next := HandleEffect(w, Ranges(w), e, env.outcome(0), env.saved(0));
    HandleAllAppend(w, Ranges(w), [e], [PersistState], env, 0);
    assert [e] + [PersistState] == [e, PersistState] && [e][1..] == [] && [PersistState][1..] == [];
    assert HandleAll(w, Ranges(w), [e], env, 0) == next;
    hide Dispatch, Ranges;
    assert HandleAll(next, Ranges(w), [PersistState], env, 1)
             == HandleEffect(next, Ranges(w), PersistState, env.outcome(1), env.saved(1));
  }

  lemma LandedCharge(w: World, b: U8, rest: seq<Transition>, env: Env)
    requires w.running && w.queue == [ChargeThresholdChanged(b)] + rest && w.caps.charge && env.outcome(0).Landed?
    requires Publish(w.state) == w.state
    ensures var r := Tick(w, env);
            && r.running && r.queue == rest && r.state == w.state.(charge := b) && r.caps == w.caps
            && r.config == w.config
            && r.hw == if b == w.state.charge then w.hw else w.hw.(charge := b)
  {
    var o := ReduceCharge(w.state, b);
    assert w.queue[1..] == rest;
    ProcessUnfolds(w.(queue := rest), ChargeThresholdChanged(b), env, Ok(o));
    if b != w.state.charge {
      SaveAfter(w.(queue := rest, state := Publish(o.state)), o.effects[0], env);
    }
  }

  lemma ChargeSynced(w: World, left: U8, env: Env)
    requires w.running && w.queue == [SyncChargeThreshold(left)] && Publish(w.state) == w.state
    ensures Tick(w, env) == w.(queue := [], state := w.state.(charge := left))
  {
    assert w.queue[1..] == [];
  }

  /** Nothing but the charge rail has moved. */
  lemma ChargeRail(w: World, r: World)
    requires ReadsBackWorld(w) && w.caps.charge && r.caps == w.caps && r.config == w.config
    requires r.hw == w.hw.(charge := r.hw.charge) && r.state == Publish(w.state).(charge := r.state.charge)
    ensures ReadsBackWorld(r) <==> r.hw.charge == r.state.charge
  {
    hide Holds, CurveMatches, GpuMatches, ResolveTiers;
  }
}
