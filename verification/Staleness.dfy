/** Which rewriting transitions can leave a stale rollback, for each manner of refusal; the others are firm. */
module Staleness {
  import opened Units
  import opened Domain
  import opened FanTables
  import opened Inference
  import opened Envelope
  import opened Reducer
  import opened Hardware
  import opened Executor
  import opened Settling
  import opened WriteOnce
  import opened Refusals

  // ---- The conditions ------------------------------------------------------------

  /** A resume re-applies a GPU tier after a reset. A refused reset that leaves the range alone is harmless, since the
      same range comes back; one that has cleared the table shows the factory range. */
  predicate StaleResume(s: ProfileState, ranges: TierRanges, m: Manner) {
    ReappliesGpu(s) && (m.Anyhow? || (m.partial && m.factory != ranges.Of(s.gpu.value.tier)))
  }

  /** Restoring defaults: a GPU tier that moves before its reset, registers that differ in whole watts from the quiet
      target, a followed curve that moves, or a manual curve that differs from the inferred one or may be dropped. */
  predicate StaleDefaults(s: ProfileState, regs: Registers, limits: PowerLimits, config: RuntimeConfig, m: Manner) {
    if m.Anyhow? then DefaultsRewrite(s, limits, config)
    else
      var target, tier := QuietTarget(limits, config), QuietTier(limits, config);
      var moved, inferred := s.target != target, Some(Curves(PresetCurve(tier)));
      || (moved && s.gpuFollows && s.gpu != Some(PresetClock(tier)) && (m.partial || s.gpu.Some?))
      || (s.profile != Performance && moved && ReadTarget(regs).Ok? && Write(regs, target) != regs)
      || (s.profile != Performance && moved && s.fanFollows && CurveValue(s.curve) != inferred)
      || (s.profile != Performance && !s.fanFollows && s.curve.Some? && (m.drops || CurveValue(s.curve) != inferred))
  }

  predicate Stale(s: ProfileState, t: Transition, limits: PowerLimits, config: RuntimeConfig, regs: Registers,
                  ranges: TierRanges, m: Manner) {
    match t
    case SystemResumed => StaleResume(s, ranges, m)
    case RestoreDefaults =>
      !s.Locked() && QuietFits(limits, config) && StaleDefaults(s, regs, limits, config, m)
    case _ => false
  }

  /** With arbitrary residues the condition is just the double write, and ordinary refusals never make it worse. */
  lemma StaleAnyhow(s: ProfileState, t: Transition, limits: PowerLimits, config: RuntimeConfig, regs: Registers,
                    ranges: TierRanges, m: Manner)
    ensures Stale(s, t, limits, config, regs, ranges, Anyhow) == Rewrites(s, t, limits, config)
    ensures Stale(s, t, limits, config, regs, ranges, m) ==> Rewrites(s, t, limits, config)
  {
    hide QuietFits, StaleDefaults, DefaultsRewrite, ReappliesGpu;
    StaleDefaultsRewrites(s, regs, limits, config, m);
  }

  lemma StaleDefaultsRewrites(s: ProfileState, regs: Registers, limits: PowerLimits, config: RuntimeConfig, m: Manner)
    ensures StaleDefaults(s, regs, limits, config, Anyhow) == DefaultsRewrite(s, limits, config)
    ensures StaleDefaults(s, regs, limits, config, m) ==> DefaultsRewrite(s, limits, config)
  {
    hide QuietTarget, QuietTier, ReadTarget, Write;
  }

  // ---- Harmless refusals -------------------------------------------------------------

  lemma MixedSame(p: CurvePair, n: int)
    ensures MixedPair(p, p, n) == p
  {
    assert MixedCurve(p.cpu, p.cpu, n) == p.cpu;
    assert MixedCurve(p.gpu, p.gpu, n - 2 * FAN_CURVE_POINTS) == p.gpu;
  }

  /** Re-writing the curve that already runs. */
  lemma SameCurveHarmless(selection: FanSelection, c: Setting)
    requires c.manner.Ordinary? && c.hw.curve == Some(Curves(selection)) == CurveValue(c.goal.curve)
    ensures AllHarmless(ApplyCurve(selection), c)
  {
    hide Curves, MixedPair;
    forall left: Hw | Leaves(ApplyCurve(selection), c.hw, left, c.ranges, c.manner)
      ensures Harmless(ApplyCurve(selection), left, c.goal, c.ranges)
    {
      forall n {
        MixedSame(Curves(selection), n);
      }
    }
  }

  /** Re-writing registers that already hold the target, or registers that cannot be read back at all. */
  lemma SameRegistersHarmless(t: PowerTarget, c: Setting)
    requires c.manner.Ordinary? && c.goal.target == t && t.fppt.Some?
    requires FromWatts(c.hw.regs.spl).Ok? && FromWatts(c.hw.regs.sppt).Ok?
    requires ReadTarget(c.hw.regs).Ok? ==> Write(c.hw.regs, t) == c.hw.regs
    ensures AllHarmless(ApplyEnvelope(t), c)
  {
    forall left: Hw | Leaves(ApplyEnvelope(t), c.hw, left, c.ranges, c.manner)
      ensures Harmless(ApplyEnvelope(t), left, c.goal, c.ranges)
    {
      var k: nat :| k <= 2 && left.regs == PartialWrite(c.hw.regs, t, k);
    }
  }

  /** Applying a tier over firmware control that a refusal leaves alone. */
  lemma UntouchedRangeHarmless(tier: Tier, c: Setting)
    requires c.manner.Ordinary? && !c.manner.partial && c.hw.gpu.None? && c.goal.gpu.None?
    ensures AllHarmless(ApplyGpu(tier), c)
  {
  }

  /** Resetting a range that is about to be applied again, when even a cleared table shows it. */
  lemma ResetHarmless(c: Setting)
    requires c.manner.Ordinary? && c.hw.gpu == RangeValue(c.goal.gpu, c.ranges)
    requires c.manner.partial ==> c.hw.gpu == Some(c.manner.factory)
    ensures AllHarmless(DropGpu, c)
  {
  }

  // ---- Firm lists ------------------------------------------------------------------------

  lemma FirmWhen(condition: bool, e: Effect, l: Later, c: Setting)
    ensures Ahead(When(condition, e), l) == if condition then Before(e, l) else l
    ensures Firm(When(condition, e), l, c) <==> (condition ==> FirmOne(e, l, c))
  {
    FirmSingle(e, l, c);
  }

  /** A guarded write and its save. */
  lemma FirmWriteAndSave(effects: seq<Effect>, e: Effect, l: Later, c: Setting)
    requires effects == [] || effects == [e, PersistState]
    ensures Ahead(effects, l) == if effects == [] then l else Before(e, l)
    ensures Firm(effects, l, c) <==> effects == [] || FirmOne(e, l, c)
  {
    hide AllHarmless;
    assert [e, PersistState][1..] == [PersistState];
    FirmSingle(PersistState, l, c);
  }

  /** A rail nothing later writes, with no profile write to come. */
  lemma FreshRail(e: Effect, l: Later, c: Setting)
    requires Meet(Rail(e), l.once) == CLEAN && !l.once.profile
    requires e.ApplyProfile? ==> !l.twice.curve
    ensures Before(e, l) == Later(Mark(e, l.once), l.twice) && FirmOne(e, l, c)
  {
  }

  const GPU_ONLY := Dirty(false, false, false, false, true)

  lemma ResetThenApply(tier: Tier, c: Setting)
    requires AllHarmless(DropGpu, c)
    ensures Firm([DropGpu] + [ApplyGpu(tier)], NEVER, c)
    ensures Ahead([DropGpu] + [ApplyGpu(tier)], NEVER) == Later(GPU_ONLY, GPU_ONLY)
  {
    FirmAppend([DropGpu], [ApplyGpu(tier)], NEVER, c);
    FirmSingle(ApplyGpu(tier), NEVER, c);
    FirmSingle(DropGpu, Later(GPU_ONLY, CLEAN), c);
    hide AllHarmless;
  }

  lemma ResumeFirm(s: ProfileState, limits: PowerLimits, config: RuntimeConfig, c: Setting)
    requires ReappliesGpu(s) && c.manner.Ordinary? && !StaleResume(s, c.ranges, c.manner)
    requires c.hw.gpu == RangeValue(s.gpu, c.ranges) && c.goal.gpu == s.gpu
    ensures Firm(ReduceResume(s, limits, config).effects, NEVER, c)
  {
    var core := [ApplyProfile(s.profile), ApplyEnvelope(s.target), ApplyCharge(s.charge)];
    var gpu := [DropGpu] + [ApplyGpu(s.gpu.value.tier)];
    assert ReduceResume(s, limits, config).effects == core + ReassertCurve(s) + gpu;
    ResetHarmless(c);
    ResetThenApply(s.gpu.value.tier, c);
    HeadFirm(s, core[0], core[1], core[2], Later(GPU_ONLY, GPU_ONLY), c);
    hide Firm, Ahead, ReduceResume;
    FirmAppend(core + ReassertCurve(s), gpu, NEVER, c);
    FirmAppend(core, ReassertCurve(s), Ahead(gpu, NEVER), c);
  }

  /** The profile, envelope, charge and curve writes of a resume, before its GPU writes. */
  lemma HeadFirm(s: ProfileState, e: Effect, f: Effect, g: Effect, l: Later, c: Setting)
    requires e.ApplyProfile? && f.ApplyEnvelope? && g.ApplyCharge? && l == Later(GPU_ONLY, GPU_ONLY)
    ensures Firm(ReassertCurve(s), l, c) && Firm([e, f, g], Ahead(ReassertCurve(s), l), c)
  {
    hide FirmOne, Before;
    FirmReassert(s, l, c);
    if s.curve.Some? {
      FreshRail(ApplyCurve(s.curve.value), l, c);
    }
    var l1 := Ahead(ReassertCurve(s), l);
    FirmTriple(e, f, g, l1, c);
    FreshRail(g, l1, c);
    FreshRail(f, Before(g, l1), c);
    FreshRail(e, Before(f, Before(g, l1)), c);
  }

  lemma FirmTriple(e: Effect, f: Effect, g: Effect, l: Later, c: Setting)
    ensures Ahead([e, f, g], l) == Before(e, Before(f, Before(g, l)))
    ensures Firm([e, f, g], l, c) <==>
              FirmOne(e, Before(f, Before(g, l)), c) && FirmOne(f, Before(g, l), c) && FirmOne(g, l, c)
  {
    hide FirmOne, Before;
    assert [e, f, g][1..] == [f, g] && [f, g][1..] == [g];
    FirmSingle(g, l, c);
  }

  lemma FirmReassert(s: ProfileState, l: Later, c: Setting)
    ensures Ahead(ReassertCurve(s), l) == if s.curve.Some? then Before(ApplyCurve(s.curve.value), l) else l
    ensures Firm(ReassertCurve(s), l, c) <==> (s.curve.Some? ==> FirmOne(ApplyCurve(s.curve.value), l, c))
  {
    if s.curve.Some? {
      FirmSingle(ApplyCurve(s.curve.value), l, c);
    }
  }

  /** What the last three steps still write. */
  function LastAhead(s: ProfileState): Later {
    Later(Dirty(false, false, s.charge != DEFAULT_CHARGE_THRESHOLD, !s.fanFollows, s.gpu.Some?), CLEAN)
  }

  /** A guarded write of a fresh rail, and its save. */
  lemma FreshWriteAndSave(effects: seq<Effect>, e: Effect, l: Later, c: Setting)
    requires effects == [] || effects == [e, PersistState]
    requires Meet(Rail(e), l.once) == CLEAN && !l.once.profile && !e.ApplyProfile?
    ensures Firm(effects, l, c) && Ahead(effects, l) == if effects == [] then l else Later(Mark(e, l.once), l.twice)
  {
    FirmWriteAndSave(effects, e, l, c);
    FreshRail(e, l, c);
    hide FirmOne, Before, Firm, Ahead;
  }

  /** The charge, auto-cooling and GPU-reset steps never repeat a rail among themselves. */
  lemma LastStepsFirm(s: ProfileState, limits: PowerLimits, config: RuntimeConfig, c: Setting)
    ensures var x := ReduceCharge(s, DEFAULT_CHARGE_THRESHOLD);
            var d := ReduceEnableFanAuto(x.state, limits, config);
            var e := ReduceResetGpu(d.state);
            var effects := x.effects + d.effects + e.effects;
            Firm(effects, NEVER, c) && Ahead(effects, NEVER) == LastAhead(s)
  {
    hide Firm, Ahead, InferTier;
    var x := ReduceCharge(s, DEFAULT_CHARGE_THRESHOLD);
    var d := ReduceEnableFanAuto(x.state, limits, config);
    var e := ReduceResetGpu(d.state);
    FirmAppend(x.effects + d.effects, e.effects, NEVER, c);
    FreshWriteAndSave(e.effects, DropGpu, NEVER, c);
    var l := Later(Dirty(false, false, false, false, s.gpu.Some?), CLEAN);
    assert Ahead(e.effects, NEVER) == l;
    FirmAppend(x.effects, d.effects, l, c);
    FreshWriteAndSave(d.effects, ApplyCurve(PresetCurve(InferTier(x.state.target, limits, config.thresholds))), l, c);
    var l1 := Later(Dirty(false, false, false, !s.fanFollows, s.gpu.Some?), CLEAN);
    assert Ahead(d.effects, l) == l1;
    FreshWriteAndSave(x.effects, ApplyCharge(DEFAULT_CHARGE_THRESHOLD), l1, c);
  }

  /** What the profile step and everything after it still write. */
  function ProfileAhead(s: ProfileState): Later {
    if s.profile == Performance then LastAhead(s)
    else
      Later(LastAhead(s).once.(profile := true, envelope := true, curve := !s.fanFollows || s.curve.Some?),
            CLEAN.(curve := !s.fanFollows && s.curve.Some?))
  }

  /** What the re-asserted curve and everything after it still write. */
  function ReassertAhead(s: ProfileState): Later {
    Later(LastAhead(s).once.(curve := !s.fanFollows || s.curve.Some?), CLEAN.(curve := !s.fanFollows && s.curve.Some?))
  }

  lemma ReassertFirm(s: ProfileState, c: Setting)
    requires !s.fanFollows && s.curve.Some? ==> AllHarmless(ApplyCurve(s.curve.value), c)
    ensures Firm(ReassertCurve(s), LastAhead(s), c) && Ahead(ReassertCurve(s), LastAhead(s)) == ReassertAhead(s)
  {
    hide AllHarmless;
    FirmReassert(s, LastAhead(s), c);
  }

  lemma ProfileAndEnvelopeFirm(s: ProfileState, c: Setting)
    requires !s.fanFollows && s.curve.Some? ==> !c.manner.MayDrop()
    requires s.profile != Performance
    ensures var core := [ApplyProfile(Performance), ApplyEnvelope(s.target)];
            Firm(core, ReassertAhead(s), c) && Ahead(core, ReassertAhead(s)) == ProfileAhead(s)
  {
    hide AllHarmless;
    var e, f, l := ApplyProfile(Performance), ApplyEnvelope(s.target), ReassertAhead(s);
    FirmAppend([e], [f], l, c);
    FirmSingle(f, l, c);
    FirmSingle(e, Before(f, l), c);
    assert [e] + [f] == [e, f];
  }

  lemma SaveFirm(l: Later, c: Setting)
    ensures Firm([PersistState], l, c) && Ahead([PersistState], l) == l
  {
    FirmSingle(PersistState, l, c);
  }

  /** The profile step is firm if a manual curve it re-asserts cannot be dropped and means the inferred one. */
  lemma ProfileStepFirm(s: ProfileState, c: Setting)
    requires s.profile != Performance && !s.fanFollows && s.curve.Some? ==>
               !c.manner.MayDrop() && AllHarmless(ApplyCurve(s.curve.value), c)
    ensures var b := ReduceSetProfile(s, Performance);
            Firm(b.effects, LastAhead(s), c) && Ahead(b.effects, LastAhead(s)) == ProfileAhead(s)
  {
    assert Firm([], LastAhead(s), c) && Ahead([], LastAhead(s)) == LastAhead(s);
    assert s.profile == Performance ==> ProfileAhead(s) == LastAhead(s);
    hide AllHarmless, ReassertCurve, Firm, Ahead, ReassertAhead, LastAhead, FirmOne, Before, ProfileAhead;
    if s.profile != Performance {
      var l, core := LastAhead(s), [ApplyProfile(Performance), ApplyEnvelope(s.target)];
      ReassertFirm(s, c);
      ProfileAndEnvelopeFirm(s, c);
      FirmAppend(core + ReassertCurve(s), [PersistState], l, c);
      SaveFirm(l, c);
      FirmAppend(core, ReassertCurve(s), l, c);
    }
  }

  /** The first step is firm if each of its writes that is written again is harmless when refused. */
  lemma FirstStepFirm(s: ProfileState, target: PowerTarget, limits: PowerLimits, config: RuntimeConfig, c: Setting)
    requires var a := ApplyPowerTarget(s, target, limits, config).state;
             && (a.target != s.target && s.profile != Performance ==> AllHarmless(ApplyEnvelope(target), c))
             && (a.curve != s.curve && s.profile != Performance ==>
                   a.curve.Some? && AllHarmless(ApplyCurve(a.curve.value), c))
             && (a.curve != s.curve ==> c.goal.curve.Some?)
             && (a.gpu != s.gpu ==>
                   a.gpu.Some? && a.gpu.value.PresetClock? && AllHarmless(ApplyGpu(a.gpu.value.tier), c))
    ensures var a := ApplyPowerTarget(s, target, limits, config);
            Firm(a.effects, ProfileAhead(a.state), c)
  {
    hide AllHarmless, InferTier, Firm, Ahead;
    var a := ApplyPowerTarget(s, target, limits, config);
    var l, tier, moved := ProfileAhead(a.state), InferTier(target, limits, config.thresholds), s.target != target;
    var x, p := When(moved, ApplyEnvelope(target)), When(moved, PersistState);
    var y := When(s.curve != a.state.curve, ApplyCurve(PresetCurve(tier)));
    var z := When(s.gpu != a.state.gpu, ApplyGpu(tier));
    FirmAppend(x + y + z, p, l, c);
    FirmWhen(moved, PersistState, l, c);
    FirmAppend(x + y, z, l, c);
    FirmWhen(s.gpu != a.state.gpu, ApplyGpu(tier), l, c);
    FirmAppend(x, y, Ahead(z, l), c);
    FirmWhen(s.curve != a.state.curve, ApplyCurve(PresetCurve(tier)), Ahead(z, l), c);
    FirmWhen(moved, ApplyEnvelope(target), Ahead(y, Ahead(z, l)), c);
  }

  /** What the first two steps may be refused, when the restore is not stale. */
  lemma DefaultsHarmless(s: ProfileState, limits: PowerLimits, config: RuntimeConfig, c: Setting)
    requires ReduceRestoreDefaults(s, limits, config).Ok? && c.manner.Ordinary?
    requires !StaleDefaults(s, c.hw.regs, limits, config, c.manner)
    requires c.goal == Publish(ReduceRestoreDefaults(s, limits, config).value.state)
    requires Holds(c.hw.regs, s.target) && c.hw.curve == CurveValue(s.curve) && c.hw.gpu == RangeValue(s.gpu, c.ranges)
    ensures var a := BalancedFirst(s, limits, config);
            && (a.target != s.target && s.profile != Performance ==> AllHarmless(ApplyEnvelope(a.target), c))
            && (a.curve != s.curve && s.profile != Performance ==>
                  a.curve.Some? && AllHarmless(ApplyCurve(a.curve.value), c))
            && (a.curve != s.curve ==> c.goal.curve.Some?)
            && (a.gpu != s.gpu ==>
                  a.gpu.Some? && a.gpu.value.PresetClock? && AllHarmless(ApplyGpu(a.gpu.value.tier), c))
            && (s.profile != Performance && !s.fanFollows && s.curve.Some? ==>
                  a.curve == s.curve && !c.manner.MayDrop() && AllHarmless(ApplyCurve(s.curve.value), c))
  {
    hide AllHarmless, Curves, InferTier, ReadTarget, Write;
    var a := BalancedFirst(s, limits, config);
    if a.target != s.target && s.profile != Performance {
      SameRegistersHarmless(a.target, c);
    }
    if a.curve != s.curve && s.profile != Performance {
      SameCurveHarmless(a.curve.value, c);
    }
    if a.gpu != s.gpu {
      UntouchedRangeHarmless(a.gpu.value.tier, c);
    }
    if s.profile != Performance && !s.fanFollows && s.curve.Some? {
      SameCurveHarmless(s.curve.value, c);
    }
  }

  /** The five effect lists of a restore, in order. */
  datatype Parts = Parts(a: Output, b: Output, c: Output, d: Output, e: Output) {
    function From(n: nat): seq<Effect> {
      if n == 0 then a.effects + (b.effects + (c.effects + d.effects + e.effects))
      else if n == 1 then b.effects + (c.effects + d.effects + e.effects)
      else c.effects + d.effects + e.effects
    }
  }

  function DefaultsParts(s: ProfileState, limits: PowerLimits, config: RuntimeConfig): Parts
    requires ReduceRestoreDefaults(s, limits, config).Ok?
  {
    var a := ReduceSetPreset(s, TdpPreset.Balanced, limits, config).value;
    var b := ReduceSetProfile(a.state, Performance);
    var c := ReduceCharge(b.state, DEFAULT_CHARGE_THRESHOLD);
    var d := ReduceEnableFanAuto(c.state, limits, config);
    Parts(a, b, c, d, ReduceResetGpu(d.state))
  }

  lemma DefaultsIsParts(s: ProfileState, limits: PowerLimits, config: RuntimeConfig)
    requires ReduceRestoreDefaults(s, limits, config).Ok?
    ensures var p, o := DefaultsParts(s, limits, config), ReduceRestoreDefaults(s, limits, config).value;
            && o.effects == CollapsePersist(p.From(0)) && o.state == p.e.state
            && p.a == ApplyPowerTarget(s, QuietTarget(limits, config), limits, config)
            && LastAhead(p.b.state) == LastAhead(p.a.state)
  {
    BalancedIsQuiet(s, limits, config);
    hide CollapsePersist, ReduceSetPreset, ApplyPowerTarget, QuietTarget, QuietFits;
    FirstStepUntouched(s, limits, config);
    var p := DefaultsParts(s, limits, config);
    assert p.a.effects + p.b.effects + p.c.effects + p.d.effects + p.e.effects == p.From(0);
  }

  lemma DefaultsFirm(s: ProfileState, limits: PowerLimits, config: RuntimeConfig, c: Setting)
    requires ReduceRestoreDefaults(s, limits, config).Ok? && c.manner.Ordinary?
    requires !StaleDefaults(s, c.hw.regs, limits, config, c.manner)
    requires c.goal == Publish(ReduceRestoreDefaults(s, limits, config).value.state)
    requires Holds(c.hw.regs, s.target) && c.hw.curve == CurveValue(s.curve) && c.hw.gpu == RangeValue(s.gpu, c.ranges)
    ensures Firm(ReduceRestoreDefaults(s, limits, config).value.effects, NEVER, c)
  {
    DefaultsHarmless(s, limits, config, c);
    DefaultsIsParts(s, limits, config);
    var p := DefaultsParts(s, limits, config);
    hide AllHarmless, StaleDefaults, Firm, Ahead, CollapsePersist, Holds, CurveValue, RangeValue, ReduceRestoreDefaults,
         ReduceSetPreset, LastAhead, ProfileAhead, ApplyPowerTarget;
    FirstStepUntouched(s, limits, config);
    FirstStepFirm(s, p.a.state.target, limits, config, c);
    ProfileStepFirm(p.a.state, c);
    LastStepsFirm(p.b.state, limits, config, c);
    FirmAppend(p.a.effects, p.From(1), NEVER, c);
    FirmAppend(p.b.effects, p.From(2), NEVER, c);
    FirmCollapsed(p.From(0), c);
  }

  lemma FirstStepUntouched(s: ProfileState, limits: PowerLimits, config: RuntimeConfig)
    requires ReduceRestoreDefaults(s, limits, config).Ok?
    ensures var a := DefaultsParts(s, limits, config).a.state;
            a.profile == s.profile && a.fanFollows == s.fanFollows && (!s.fanFollows ==> a.curve == s.curve)
  {
  }

  // ---- All transitions -----------------------------------------------------------------

  lemma {:induction false} WritesAppend(a: seq<Effect>, b: seq<Effect>)
    ensures Writes(a + b) == Writes(a) + Writes(b)
  {
    if a == [] {
      assert a + b == b;
    } else {
      assert (a + b)[0] == a[0] && (a + b)[1..] == a[1..] + b;
      WritesAppend(a[1..], b);
    }
  }

  lemma {:induction false} WritesBounded(effects: seq<Effect>)
    ensures Writes(effects) <= |effects|
    ensures effects != [] && effects[|effects| - 1].PersistState? ==> Writes(effects) < |effects|
  {
    if effects != [] {
      WritesBounded(effects[1..]);
    }
  }

  lemma {:induction false} WritesWithoutPersist(effects: seq<Effect>)
    ensures Writes(WithoutPersist(effects)) == Writes(effects)
  {
    if effects != [] {
      WritesAppend(When(effects[0] != PersistState, effects[0]), WithoutPersist(effects[1..]));
      WritesWithoutPersist(effects[1..]);
    }
  }

  /** The most rollbacks one transition can cause without going stale. */
  function Rollbacks(m: Manner): nat {
    if m.Anyhow? then 5 else 9
  }

  lemma ResumeWrites(s: ProfileState, limits: PowerLimits, config: RuntimeConfig)
    requires ReappliesGpu(s)
    ensures Writes(ReduceResume(s, limits, config).effects) <= 9
  {
    WritesBounded(ReduceResume(s, limits, config).effects);
  }

  /** The lengths of the first two steps; the others are one write and one save. */
  lemma StepLengths(s: ProfileState, target: PowerTarget, limits: PowerLimits, config: RuntimeConfig)
    ensures var a := ApplyPowerTarget(s, target, limits, config).effects;
            |a| <= 4 && (|a| == 4 ==> a[3].PersistState?)
    ensures var b := ReduceSetProfile(s, Performance).effects;
            |b| <= 4 && (|b| == 4 ==> b[3].PersistState?)
  {
    hide InferTier;
  }

  lemma LastWrites(c: Output, d: Output, e: Output)
    requires forall o :: o in {c, d, e} ==> |o.effects| <= 2 && (|o.effects| == 2 ==> o.effects[1].PersistState?)
    ensures Writes(c.effects + d.effects + e.effects) <= 3
  {
    hide Writes;
    WritesBounded(c.effects);
    WritesBounded(d.effects);
    WritesBounded(e.effects);
    WritesAppend(c.effects + d.effects, e.effects);
    WritesAppend(c.effects, d.effects);
  }

  lemma DefaultsWrites(s: ProfileState, limits: PowerLimits, config: RuntimeConfig)
    requires ReduceRestoreDefaults(s, limits, config).Ok?
    ensures Writes(ReduceRestoreDefaults(s, limits, config).value.effects) <= 9
  {
    DefaultsIsParts(s, limits, config);
    var p := DefaultsParts(s, limits, config);
    StepLengths(s, p.a.state.target, limits, config);
    StepLengths(p.a.state, p.a.state.target, limits, config);
    LastWrites(p.c, p.d, p.e);
    hide InferTier, ReduceRestoreDefaults, DefaultsParts, Writes;
    WritesBounded(p.a.effects);
    WritesBounded(p.b.effects);
    CollapsedWrites(p.From(0));
    WritesAppend(p.a.effects, p.From(1));
    WritesAppend(p.b.effects, p.From(2));
  }

  lemma CollapsedWrites(effects: seq<Effect>)
    ensures Writes(CollapsePersist(effects)) == Writes(effects)
  {
    WritesAppend(WithoutPersist(effects), When(PersistState in effects, PersistState));
    WritesWithoutPersist(effects);
  }

  /** A transition that is not stale is firm against refusals of that manner. */
  lemma NotStaleFirm(s: ProfileState, t: Transition, limits: PowerLimits, config: RuntimeConfig, c: Setting)
    requires Reduce(s, t, limits, config).Ok? && c.goal == Publish(Reduce(s, t, limits, config).value.state)
    requires !Stale(s, t, limits, config, c.hw.regs, c.ranges, c.manner)
    requires Holds(c.hw.regs, s.target) && c.hw.curve == CurveValue(s.curve) && c.hw.gpu == RangeValue(s.gpu, c.ranges)
    ensures var effects := Reduce(s, t, limits, config).value.effects;
            Firm(effects, NEVER, c) && Writes(effects) <= Rollbacks(c.manner)
  {
    hide Firm, Holds, CurveValue, RangeValue, StaleDefaults, StaleResume, DefaultsRewrite, ReduceResume,
         ReduceRestoreDefaults, Once, Writes;
    StaleAnyhow(s, t, limits, config, c.hw.regs, c.ranges, c.manner);
    if Rewrites(s, t, limits, config) {
      if t.SystemResumed? {
        ResumeKeepsGpu(s, limits, config);
        ResumeFirm(s, limits, config, c);
        ResumeWrites(s, limits, config);
      } else {
        DefaultsFirm(s, limits, config, c);
        DefaultsWrites(s, limits, config);
      }
    } else {
      ReduceWritesOnce(s, t, limits, config);
      OnceIsFirm(Reduce(s, t, limits, config).value.effects, CLEAN, c);
    }
  }

  lemma ResumeKeepsGpu(s: ProfileState, limits: PowerLimits, config: RuntimeConfig)
    requires ReappliesGpu(s)
    ensures ReduceResume(s, limits, config).state.gpu == s.gpu
  {
  }
}
