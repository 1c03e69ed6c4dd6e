/** Optional capabilities: a rail the device does not have is never touched and never reported, over any run. */
module Capabilities {
  import opened Domain
  import opened Inference
  import opened Reducer
  import opened Hardware
  import opened Executor

  /** The rails without a capability are as they were. */
  predicate Absent(caps: Caps, before: Hw, after: Hw) {
    && (!caps.profile ==> after.profile == before.profile)
    && (!caps.charge ==> after.charge == before.charge)
    && (!caps.curve && !caps.profile ==> after.curve == before.curve)
    && (!caps.gpu ==> after.gpu == before.gpu)
  }

  /** The transition reports a rail the device has. */
  predicate Reportable(t: Transition, caps: Caps) {
    && (t.SyncPlatformProfile? ==> caps.profile) && (t.SyncChargeThreshold? ==> caps.charge)
    && (t.SyncFanCurve? ==> caps.curve) && (t.SyncGpuClockRange? ==> caps.gpu)
  }

  lemma DispatchRespects(e: Effect, hw: Hw, o: Outcome, caps: Caps, ranges: TierRanges)
    ensures var d := Dispatch(e, hw, o, caps, ranges);
            && Absent(caps, hw, d.hw)
            && (!caps.curve && (e.ApplyCurve? || e.DropCurve?) ==> d.hw == hw)
            && (d.sync.Some? ==> Reportable(d.sync.value, caps))
  {
  }

  /** The rail an effect writes, if the device has it. */
  predicate Reaches(e: Effect, caps: Caps) {
    match e
    case ApplyEnvelope(_) => true
    case ApplyProfile(_) => caps.profile
    case ApplyCharge(_) => caps.charge
    case ApplyCurve(_) => caps.curve
    case DropCurve => caps.curve
    case ApplyGpu(_) => caps.gpu
    case DropGpu => caps.gpu
    case PersistState => false
  }

  /** A rollback is queued exactly when a write that reaches a rail was refused and that rail could be read back. */
  lemma RollbackIff(e: Effect, hw: Hw, o: Outcome, caps: Caps, ranges: TierRanges)
    ensures Dispatch(e, hw, o, caps, ranges).sync.Some? <==>
              Reaches(e, caps) && o.Refused? && o.readable && (e.ApplyEnvelope? ==> ReadTarget(o.residue.regs).Ok?)
  {
  }

  lemma {:induction false} HandleAllRespects(w: World, ranges: TierRanges, effects: seq<Effect>, env: Env, i: nat)
    requires forall t :: t in w.queue ==> Reportable(t, w.caps)
    ensures var r := HandleAll(w, ranges, effects, env, i);
            Absent(w.caps, w.hw, r.hw) && forall t :: t in r.queue ==> Reportable(t, w.caps)
    decreases |effects|
  {
    if effects != [] {
      var next := HandleEffect(w, ranges, effects[0], env.outcome(i), env.saved(i));
      DispatchRespects(effects[0], w.hw, env.outcome(i), w.caps, ranges);
      hide Dispatch;
      HandleAllRespects(next, ranges, effects[1..], env, i + 1);
    }
  }

  /** Producers report only what there is, and the hardware does not change by itself. */
  predicate Respects(e: Event, caps: Caps) {
    (e.Submit? ==> Reportable(e.t, caps)) && !e.Disturb?
  }

  lemma NextRespects(w: World, e: Event)
    requires forall t :: t in w.queue ==> Reportable(t, w.caps)
    requires Respects(e, w.caps)
    ensures var r := Next(w, e);
            && Absent(w.caps, w.hw, r.hw) && r.caps == w.caps
            && forall t :: t in r.queue ==> Reportable(t, w.caps)
  {
    if e.Iterate? && w.running && w.queue != [] && !w.queue[0].ConfigReload? {
      var w1, t := w.(queue := w.queue[1..]), w.queue[0];
      var limits := RefreshedLimits(w1, t, e.env);
      var result := Reduce(Refreshed(w1, t, e.env), t, limits, w.config);
      ProcessUnfolds(w1, t, e.env, result);
      hide Reduce, HandleAll, Absent, Reportable;
      if result.Ok? {
        var w2 := w1.(limits := limits, state := Publish(result.value.state));
        HandleAllRespects(w2, Ranges(w1), result.value.effects, e.env, 0);
        HandleAllFrame(w2, Ranges(w1), result.value.effects, e.env, 0);
      } else {
        NothingAbsent(w.caps, w.hw);
      }
    } else {
      NothingAbsent(w.caps, w.hw);
    }
  }

  lemma NothingAbsent(caps: Caps, hw: Hw)
    ensures Absent(caps, hw, hw)
  {
  }

  /** Over every run with failures of any kind, on hardware that does not change by itself. */
  lemma {:induction false} AbsentRailsUntouched(w: World, events: seq<Event>)
    requires forall t :: t in w.queue ==> Reportable(t, w.caps)
    requires forall e :: e in events ==> Respects(e, w.caps)
    ensures var r := Run(w, events);
            Absent(w.caps, w.hw, r.hw) && forall t :: t in r.queue ==> Reportable(t, w.caps)
    decreases |events|
  {
    hide Next, Reportable, Respects;
    if events != [] {
      assert events[0] in events;
      NextRespects(w, events[0]);
      AbsentRailsUntouched(Next(w, events[0]), events[1..]);
    }
  }
}
