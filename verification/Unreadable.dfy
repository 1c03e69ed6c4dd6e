/** An unreadable GPU clock table. The executor then skips the tier write and only logs it: nothing is queued, and the
    published tier may be wrong until something else corrects it. Exactly which transitions that concerns. */
module Unreadable {
  import opened Units
  import opened Domain
  import opened Envelope
  import opened Inference
  import opened Reducer
  import opened Hardware
  import opened Executor
  import opened Settling
  import opened Coherence
  import opened WriteOnce
  import opened Rollback
  import opened Staleness

  /** Every tier write among the effects is skipped. */
  ghost predicate TierWritesSkipped(effects: seq<Effect>, env: Env, i: nat) {
    forall k: nat :: k < |effects| && effects[k].ApplyGpu? ==> env.outcome(i + k).Skipped?
  }

  // ---- What the hardware is left with -------------------------------------------------

  /** Only a reset moves the clock range. */
  lemma {:induction false} RangeAfterSkips(w: World, ranges: TierRanges, effects: seq<Effect>, env: Env, i: nat)
    requires Unrefused(env, true) && TierWritesSkipped(effects, env, i) && w.caps.gpu
    ensures HandleAll(w, ranges, effects, env, i).hw.gpu == if DropGpu in effects then None else w.hw.gpu
    decreases |effects|
  {
    if effects != [] {
      var e, o, rest := effects[0], env.outcome(i), effects[1..];
      assert !o.Refused? && (e.ApplyGpu? ==> o.Skipped?);
      assert effects == [e] + rest;
      forall k: nat | k < |rest| && rest[k].ApplyGpu?
        ensures env.outcome(i + 1 + k).Skipped?
      {
        assert effects[k + 1] == rest[k];
      }
      StepAfterSkip(w, ranges, e, o, env.saved(i));
      hide Dispatch, HandleEffect;
      RangeAfterSkips(HandleEffect(w, ranges, e, o, env.saved(i)), ranges, rest, env, i + 1);
    }
  }

  lemma StepAfterSkip(w: World, ranges: TierRanges, e: Effect, o: Outcome, saved: bool)
    requires !o.Refused? && (e.ApplyGpu? ==> o.Skipped?) && w.caps.gpu
    ensures var r := HandleEffect(w, ranges, e, o, saved);
            r.caps == w.caps && r.hw.gpu == if e.DropGpu? then None else w.hw.gpu
  {
  }

  /** Everything but the clock range still agrees, so the state reads back exactly if the range does. */
  lemma SkippedOutput(w: World, t: Transition, env: Env, o: Output)
    requires !t.IsSync() && !t.ConfigReload? && w.caps.gpu && ReadsBackWorld(w)
    requires Reduce(Refreshed(w, t, env), t, RefreshedLimits(w, t, env), w.config) == Ok(o)
    requires Unrefused(env, true) && TierWritesSkipped(o.effects, env, 0)
    ensures var r := Process(w, t, env);
            && r.queue == w.queue
            && (ReadsBackWorld(r) <==>
                  RangeValue(o.state.gpu, Ranges(w))
                  == if DropGpu in o.effects then None else RangeValue(w.state.gpu, Ranges(w)))
  {
    var base, limits := Refreshed(w, t, env), RefreshedLimits(w, t, env);
    ProcessUnfolds(w, t, env, Ok(o));
    ReduceSettles(base, t, limits, w.config);
    hide Reduce, HandleAll, Settle, Process;
    var w1, d := w.(limits := limits, state := Publish(o.state)), Changed(base, o.state);
    StartsSettled(base, o.state, w.hw, w.caps, Ranges(w));
    SettleUnrefused(w1, Ranges(w), o.state, o.effects, env, 0, d, true);
    RangeAfterSkips(w1, Ranges(w), o.effects, env, 0);
    HandleAllFrame(w1, Ranges(w), o.effects, env, 0);
    AllButRange(o.state, HandleAll(w1, Ranges(w), o.effects, env, 0).hw, w.caps, Ranges(w));
  }

  lemma StartsSettled(base: ProfileState, goal: ProfileState, hw: Hw, caps: Caps, ranges: TierRanges)
    requires ReadsBack(base, hw, caps, ranges)
    ensures AgreesOff(Off(Changed(base, goal), true), goal, hw, caps, ranges, false)
  {
    hide Holds, CurveMatches, GpuMatches;
  }

  lemma AllButRange(s: ProfileState, hw: Hw, caps: Caps, ranges: TierRanges)
    requires AgreesOff(Off(CLEAN, true), s, hw, caps, ranges, false) && caps.gpu
    ensures ReadsBack(Publish(s), hw, caps, ranges) <==> hw.gpu == RangeValue(s.gpu, ranges)
  {
    hide Holds, CurveMatches, RangeValue;
  }

  // ---- Which tier a transition asks for -------------------------------------------------

  /** Auto-follow moves with the target. */
  function Followed(s: ProfileState, target: PowerTarget, limits: PowerLimits, config: RuntimeConfig): Option<Tier> {
    if s.gpuFollows && s.target != target then Some(InferTier(target, limits, config.thresholds)) else None
  }

  function Forced(s: ProfileState): Option<Tier> {
    if s.gpu.Some? then Some(Aggressive) else None
  }

  function Saved(s: ProfileState): Option<Tier>
    requires s.lastDc.Some?
  {
    var saved := s.lastDc.value.gpu;
    if saved.Some? && saved.value.PresetClock? && s.gpu != saved then Some(saved.value.tier) else None
  }

  /** The tier an accepted transition other than a re-applying resume writes, read off its guard. */
  function AskedTier(s: ProfileState, t: Transition, limits: PowerLimits, config: RuntimeConfig): Option<Tier> {
    match t
    case SetPreset(preset) =>
      var spl := FromWatts(PresetWatts(preset, limits, config));
      if s.Locked() || spl.Err? then None else Followed(s, DeriveBoosted(spl.value, limits, config), limits, config)
    case SetSpl(watts) =>
      var spl := FromWatts(watts);
      if s.Locked() || spl.Err? then None else Followed(s, DeriveBoosted(spl.value, limits, config), limits, config)
    case SetEnvelope(target) => if s.Locked() then None else Followed(s, target, limits, config)
    case EnableGpuAutoFollow =>
      if s.Locked() || s.gpuFollows then None else Some(InferTier(s.target, limits, config.thresholds))
    case AcPowerChanged(plugged) =>
      if s.acConnected == plugged then None
      else if plugged then (if s.acMaxPerformance then Forced(s) else None)
      else if s.lastDc.Some? then Saved(s)
      else if s.acMaxPerformance then Followed(s, QuietTarget(limits, config), limits, config)
      else None
    case SystemResumed => if s.Locked() then Forced(s) else if s.lastDc.Some? then Saved(s) else None
    case SetAcMaxPerformance(enabled) =>
      if s.acMaxPerformance == enabled || !s.acConnected then None
      else if enabled then Forced(s)
      else if s.lastDc.Some? then Saved(s)
      else None
    case _ => None
  }

  /** A resume that resets the range and then cannot re-apply the tier, or a tier that is not the range already
      there. */
  predicate LosesTier(s: ProfileState, t: Transition, limits: PowerLimits, config: RuntimeConfig, ranges: TierRanges) {
    var asked := AskedTier(s, t, limits, config);
    || (t.SystemResumed? && ReappliesGpu(s))
    || (asked.Some? && RangeValue(s.gpu, ranges) != Some(ranges.Of(asked.value)))
  }

  lemma FirstStepKeepsManaged(s: ProfileState, limits: PowerLimits, config: RuntimeConfig)
    requires ReduceRestoreDefaults(s, limits, config).Ok?
    ensures s.gpu.Some? ==> DefaultsParts(s, limits, config).a.state.gpu.Some?
  {
    hide InferTier;
  }

  /** The three steps in between leave the GPU selection to the reset. */
  lemma PartsKeepGpu(s: ProfileState, limits: PowerLimits, config: RuntimeConfig)
    ensures var c := ReduceCharge(ReduceSetProfile(s, Performance).state, DEFAULT_CHARGE_THRESHOLD);
            ReduceEnableFanAuto(c.state, limits, config).state.gpu == s.gpu
  {
  }

  lemma KeptInCollapsed(effects: seq<Effect>)
    ensures DropGpu in WithoutPersist(effects) ==> DropGpu in CollapsePersist(effects)
  {
  }

  /** Restoring the defaults ends with a reset whenever a tier was or became selected. */
  lemma DefaultsEndReset(s: ProfileState, limits: PowerLimits, config: RuntimeConfig)
    requires ReduceRestoreDefaults(s, limits, config).Ok?
    ensures var o := ReduceRestoreDefaults(s, limits, config).value;
            o.state.gpu.None? && (s.gpu.Some? ==> DropGpu in o.effects)
  {
    DefaultsIsParts(s, limits, config);
    FirstStepKeepsManaged(s, limits, config);
    var p := DefaultsParts(s, limits, config);
    hide ReduceRestoreDefaults, ReduceSetPreset, InferTier, CollapsePersist, ReduceCharge, ReduceEnableFanAuto,
         ReduceSetProfile, LastAhead, ApplyPowerTarget;
    PartsKeepGpu(p.a.state, limits, config);
    if s.gpu.Some? {
      assert p.e.effects[0] == DropGpu;
      assert DropGpu in p.From(0);
      WritesKept(p.From(0), DropGpu);
      KeptInCollapsed(p.From(0));
    }
  }

  lemma {:induction false} WritesKept(effects: seq<Effect>, e: Effect)
    requires e != PersistState && e in effects
    ensures e in WithoutPersist(effects)
  {
    if effects[0] != e {
      WritesKept(effects[1..], e);
    }
  }

  /** What an output does to the GPU is what was asked: that tier and no reset, or no tier and the selection as it was
      or reset. */
  predicate Decided(before: Option<GpuSelection>, o: Output, asked: Option<Tier>) {
    if asked.Some? then DropGpu !in o.effects && o.state.gpu == Some(PresetClock(asked.value))
    else o.state.gpu == if DropGpu in o.effects then None else before
  }

  lemma FollowedDecides(s: ProfileState, target: PowerTarget, limits: PowerLimits, config: RuntimeConfig)
    ensures Decided(s.gpu, ApplyPowerTarget(s, target, limits, config), Followed(s, target, limits, config))
  {
    hide InferTier;
  }

  lemma ForcedDecides(s: ProfileState, limits: PowerLimits, config: RuntimeConfig)
    ensures Decided(s.gpu, ForceAcMax(s, limits, config), Forced(s))
  {
    hide DeriveBoosted;
  }

  lemma RestoreDecides(s: ProfileState)
    requires s.lastDc.Some?
    ensures Decided(s.gpu, RestoreDc(s, s.lastDc.value), Saved(s))
  {
  }

  /** Saving and the connection flags decide nothing. */
  lemma StillDecided(before: Option<GpuSelection>, o: Output, asked: Option<Tier>, more: seq<Effect>, r: Output)
    requires Decided(before, o, asked) && DropGpu !in more
    requires r.effects == o.effects + more && r.state.gpu == o.state.gpu
    ensures Decided(before, r, asked)
  {
  }

  lemma PlugDecides(s: ProfileState, limits: PowerLimits, config: RuntimeConfig)
    requires !s.acConnected
    ensures Decided(s.gpu, ReducePlug(s, limits, config), AskedTier(s, AcPowerChanged(true), limits, config))
  {
    ForcedDecides(s, limits, config);
    var f, r := ForceAcMax(s, limits, config), ReducePlug(s, limits, config);
    hide Decided, ForceAcMax;
    if s.acMaxPerformance {
      StillDecided(s.gpu, f, Forced(s), [PersistState], r);
    } else {
      NothingDecided(s.gpu, r);
    }
  }

  lemma NothingDecided(before: Option<GpuSelection>, o: Output)
    requires o.effects == [] || o.effects == [PersistState]
    requires o.state.gpu == before
    ensures Decided(before, o, None)
  {
  }

  lemma UnplugDecides(s: ProfileState, limits: PowerLimits, config: RuntimeConfig)
    requires s.acConnected && ReduceUnplug(s, limits, config).Ok?
    ensures Decided(s.gpu, ReduceUnplug(s, limits, config).value, AskedTier(s, AcPowerChanged(false), limits, config))
  {
    var r, view := ReduceUnplug(s, limits, config).value, s.(acConnected := false, fanFollows := true);
    BalancedIsQuiet(view, limits, config);
    FollowedDecides(view, QuietTarget(limits, config), limits, config);
    hide Decided, ReduceSetPreset, ApplyPowerTarget, RestoreDc, QuietTarget, QuietFits, InferTier;
    if s.lastDc.Some? {
      RestoreDecides(s);
      StillDecided(s.gpu, RestoreDc(s, s.lastDc.value), Saved(s), [], r);
    } else if s.acMaxPerformance {
      StillDecided(s.gpu, ApplyPowerTarget(view, QuietTarget(limits, config), limits, config),
                   Followed(view, QuietTarget(limits, config), limits, config), [], r);
    } else {
      NothingDecided(s.gpu, r);
    }
  }

  lemma ResumeDecides(s: ProfileState, limits: PowerLimits, config: RuntimeConfig)
    requires !ReappliesGpu(s)
    ensures Decided(s.gpu, ReduceResume(s, limits, config), AskedTier(s, SystemResumed, limits, config))
  {
    ForcedDecides(s, limits, config);
    if s.lastDc.Some? {
      RestoreDecides(s);
    }
    var f, r := ForceAcMax(s, limits, config), ReduceResume(s, limits, config);
    if s.Locked() {
      StillDecided(s.gpu, f, Forced(s), [ApplyCharge(s.charge), PersistState], r);
    } else if s.lastDc.Some? {
      StillDecided(s.gpu, RestoreDc(s, s.lastDc.value), Saved(s), [ApplyCharge(s.charge)], r);
    }
    hide RestoreDc, ForceAcMax;
  }

  lemma ToggleDecides(s: ProfileState, enabled: bool, limits: PowerLimits, config: RuntimeConfig)
    ensures Decided(s.gpu, ReduceSetAcMax(s, enabled, limits, config),
                    AskedTier(s, SetAcMaxPerformance(enabled), limits, config))
  {
    ForcedDecides(s, limits, config);
    var f, r := ForceAcMax(s, limits, config), ReduceSetAcMax(s, enabled, limits, config);
    hide Decided, ForceAcMax, RestoreDc;
    if s.acMaxPerformance == enabled || !s.acConnected {
      NothingDecided(s.gpu, r);
    } else if enabled {
      StillDecided(s.gpu, f, Forced(s), [PersistState], r);
    } else if s.lastDc.Some? {
      RestoreDecides(s);
      StillDecided(s.gpu, RestoreDc(s, s.lastDc.value), Saved(s), [], r);
    } else {
      NothingDecided(s.gpu, r);
    }
  }

  /** Every accepted transition but a re-applying resume does to the GPU what its guard asks. */
  lemma ReduceDecides(s: ProfileState, t: Transition, limits: PowerLimits, config: RuntimeConfig)
    requires !t.IsSync() && Reduce(s, t, limits, config).Ok? && !(t.SystemResumed? && ReappliesGpu(s))
    ensures Decided(s.gpu, Reduce(s, t, limits, config).value, AskedTier(s, t, limits, config))
  {
    hide InferTier, DeriveBoosted, PresetWatts, Validate, ReduceRestoreDefaults, ApplyPowerTarget, RestoreDc,
         QuietTarget, ReducePlug, ReduceUnplug, ReduceResume, ReduceSetAcMax, Followed;
    if !(s.Locked() && t.IsLockedWrite()) {
      match t
      case SetPreset(preset) =>
        var spl := FromWatts(PresetWatts(preset, limits, config)).value;
        FollowedDecides(s, DeriveBoosted(spl, limits, config), limits, config);
      case SetSpl(watts) => FollowedDecides(s, DeriveBoosted(FromWatts(watts).value, limits, config), limits, config);
      case SetEnvelope(target) => FollowedDecides(s, target, limits, config);
      case AcPowerChanged(plugged) =>
        if s.acConnected != plugged {
          if plugged {
            PlugDecides(s, limits, config);
          } else {
            UnplugDecides(s, limits, config);
          }
        }
      case SystemResumed => ResumeDecides(s, limits, config);
      case SetAcMaxPerformance(enabled) => ToggleDecides(s, enabled, limits, config);
      case RestoreDefaults => DefaultsEndReset(s, limits, config);
      case _ =>
    }
  }

  lemma DecidedIff(before: Option<GpuSelection>, o: Output, asked: Option<Tier>, ranges: TierRanges)
    requires Decided(before, o, asked)
    ensures RangeValue(o.state.gpu, ranges) == (if DropGpu in o.effects then None else RangeValue(before, ranges))
       <==> !(asked.Some? && RangeValue(before, ranges) != Some(ranges.Of(asked.value)))
  {
  }

  /** The guard decides: an accepted transition leaves range and selection apart exactly if it loses a tier. */
  lemma AskedDecides(s: ProfileState, t: Transition, limits: PowerLimits, config: RuntimeConfig, ranges: TierRanges)
    requires !t.IsSync() && !t.ConfigReload? && Reduce(s, t, limits, config).Ok?
    ensures var o := Reduce(s, t, limits, config).value;
            RangeValue(o.state.gpu, ranges) == (if DropGpu in o.effects then None else RangeValue(s.gpu, ranges))
            <==> !LosesTier(s, t, limits, config, ranges)
  {
    if t.SystemResumed? && ReappliesGpu(s) {
      assert DropGpu in ReduceResume(s, limits, config).effects;
    } else {
      ReduceDecides(s, t, limits, config);
      DecidedIff(s.gpu, Reduce(s, t, limits, config).value, AskedTier(s, t, limits, config), ranges);
    }
    hide AskedTier, Decided, RangeValue, ReduceRestoreDefaults, ReduceSetPreset, ReduceSetSpl;
  }

  // ---- The exact condition ------------------------------------------------------------------

  /** With an unreadable clock table and every other write landing, one transition leaves the published state reading
      back exactly if it is rejected or loses no tier; whatever it leaves, nothing is queued to repair it. */
  lemma UnreadableIff(w: World, t: Transition, env: Env)
    requires !t.IsSync() && !t.ConfigReload? && w.caps.gpu && ReadsBackWorld(w)
    requires var r := Reduce(Refreshed(w, t, env), t, RefreshedLimits(w, t, env), w.config);
             Unrefused(env, true) && (r.Ok? ==> TierWritesSkipped(r.value.effects, env, 0))
    ensures var s, limits, r := Refreshed(w, t, env), RefreshedLimits(w, t, env), Process(w, t, env);
            && r.queue == w.queue
            && (ReadsBackWorld(r) <==>
                  Reduce(s, t, limits, w.config).Err? || !LosesTier(s, t, limits, w.config, Ranges(w)))
  {
    var s, limits := Refreshed(w, t, env), RefreshedLimits(w, t, env);
    var result := Reduce(s, t, limits, w.config);
    if result.Ok? {
      AskedDecides(s, t, limits, w.config, Ranges(w));
      hide Reduce, LosesTier, Process, RangeValue, ReadsBackWorld;
      SkippedOutput(w, t, env, result.value);
    } else {
      ProcessUnfolds(w, t, env, result);
    }
  }

  /** An unreadable GPU clock table is only logged: opting in is published, nothing is written, nothing rolls back. */
  lemma UnreadableGpuDiverges(w: World, env: Env)
    requires w.running && w.queue == [EnableGpuAutoFollow] && w.caps.gpu
    requires !w.state.Locked() && w.state.gpu.None? && !w.state.gpuFollows
    requires ReadsBackWorld(w) && env.outcome(0).Skipped?
    ensures var r := Tick(w, env); r.queue == [] && r.hw == w.hw && r.state.gpu.Some? && !ReadsBackWorld(r)
  {
    var out := ReduceEnableGpuFollow(w.state, w.limits, w.config);
    assert w.queue[1..] == [];
    ProcessUnfolds(w.(queue := []), EnableGpuAutoFollow, env, Ok(out));
    var w1 := w.(queue := [], state := Publish(out.state));
    assert out.effects[1..] == [PersistState] && [PersistState][1..] == [];
    assert HandleEffect(w1, Ranges(w), out.effects[0], env.outcome(0), env.saved(0)) == w1;
  }
}
