/** The profile holds next to the real executor, and what an AC round trip does to them. */
module HoldsOverAc {
  import opened Units
  import opened Domain
  import opened Envelope
  import opened Reducer
  import opened Executor
  import opened AcLock
  import HoldStack

  /** The shim and the daemon it talks to, between two steps. */
  datatype Joint = Joint(stack: HoldStack.Stack, world: World) {
    predicate Idle() {
      world.running && world.queue == [] && world.capacity > 0
    }

    /** What the shim sees of the daemon. */
    function View(): HoldStack.System {
      HoldStack.System(stack, world.state.profile, world.state.Locked())
    }
  }

  /** A client of the shim acts, or a transition reaches the executor by another road. */
  datatype Act = Shim(op: HoldStack.Op) | Outside(t: Transition) {
    predicate Ordinary() {
      (Shim? ==> !op.Announce?) && (Outside? ==> !t.IsSync() && !t.Shutdown?)
    }
  }

  /** A transition submitted and processed; its publication wakes the reconciler. */
  function Processed(st: HoldStack.Stack, w: World, t: Transition, env: Env): Joint {
    var after := Tick(TrySend(w, t), env);
    Joint(HoldStack.Reconciled(st, after.state.profile), after)
  }

  function Next(j: Joint, act: Act, env: Env): Joint {
    match act
    case Outside(t) => Processed(j.stack, j.world, t, env)
    case Shim(op) =>
      var st := HoldStack.Answer(j.stack, op, j.world.state.profile);
      if |st.sent| <= |j.stack.sent| then j.(stack := st)
      else Processed(st, j.world, SetProfile(st.sent[|st.sent| - 1]), env)
  }

  datatype Deed = Deed(act: Act, env: Env)

  function RunJoint(j: Joint, deeds: seq<Deed>): Joint
    decreases |deeds|
  {
    if deeds == [] then j else RunJoint(Next(j, deeds[0].act, deeds[0].env), deeds[1..])
  }

  ghost predicate Quiet(d: Deed) {
    d.act.Ordinary() && NoRefusals(d.env)
  }

  // ---- The shim's model of the executor is right ------------------------------------

  lemma TickIsProcess(w: World, t: Transition, env: Env)
    requires w.running && w.queue == [] && w.capacity > 0
    ensures Tick(TrySend(w, t), env) == Process(w, t, env)
  {
    hide Process;
    var w1 := TrySend(w, t);
    assert w1.queue == [t] && [t][1..] == [];
    assert w1.(queue := w1.queue[1..]) == w;
  }

  lemma ProcessStaysIdle(w: World, t: Transition, env: Env)
    requires w.running && w.queue == [] && NoRefusals(env) && !t.Shutdown?
    ensures var r := Process(w, t, env); r.running && r.queue == [] && r.capacity == w.capacity
  {
    if !t.ConfigReload? {
      var base, limits := Refreshed(w, t, env), RefreshedLimits(w, t, env);
      var result := Reduce(base, t, limits, w.config);
      ProcessUnfolds(w, t, env, result);
      if result.Ok? {
        var w1 := w.(limits := limits, state := Publish(result.value.state));
        hide Reduce, HandleAll, Process;
        HandleAllFrame(w1, Ranges(w), result.value.effects, env, 0);
        NoRefusalsNoRollback(w1, Ranges(w), result.value.effects, env, 0);
      }
    }
  }

  /** A queued profile change lands unless the AC lock suppresses it, and never moves the lock. */
  lemma SetProfileLands(w: World, profile: ProfileName, env: Env)
    requires w.running && w.queue == []
    ensures var r := Process(w, SetProfile(profile), env);
            r.state.profile == (if w.state.Locked() then w.state.profile else profile)
              && r.state.Locked() == w.state.Locked()
  {
    var result := Reduce(w.state, SetProfile(profile), w.limits, w.config);
    ProcessUnfolds(w, SetProfile(profile), env, result);
    HandleAllFrame(w.(state := Publish(result.value.state)), Ranges(w), result.value.effects, env, 0);
  }

  /** The shim next to the executor's own state machine behaves as the shim next to the two facts it sees of it: its own
      profile changes settle, and anything else looks like an announcement. */
  lemma NextIsStep(j: Joint, act: Act, env: Env)
    requires j.Idle() && act.Ordinary() && NoRefusals(env)
    ensures var r := Next(j, act, env);
            && r.Idle()
            && r.View() == HoldStack.Step(j.View(), if act.Shim? then act.op
                                                    else HoldStack.Announce(r.world.state.profile,
                                                                            r.world.state.Locked()))
  {
    hide Tick, Process, HoldStack.Answer, HoldStack.Reconciled;
    var st := if act.Shim? then HoldStack.Answer(j.stack, act.op, j.world.state.profile) else j.stack;
    var t := if act.Outside? then act.t else if st.sent == [] then Shutdown else SetProfile(st.sent[|st.sent| - 1]);
    if act.Outside? || |st.sent| > |j.stack.sent| {
      TickIsProcess(j.world, t, env);
      ProcessStaysIdle(j.world, t, env);
      if act.Shim? {
        SetProfileLands(j.world, t.newProfile, env);
      }
    }
  }

  /** So the shim's invariant holds over every run of the two together. */
  lemma {:induction false} JointInvRun(j: Joint, deeds: seq<Deed>)
    requires j.Idle() && HoldStack.Inv(j.View())
    requires forall d :: d in deeds ==> Quiet(d)
    ensures RunJoint(j, deeds).Idle() && HoldStack.Inv(RunJoint(j, deeds).View())
    decreases |deeds|
  {
    hide Next, HoldStack.Inv, HoldStack.Step;
    if deeds != [] {
      var d := deeds[0];
      assert Quiet(d);
      NextIsStep(j, d.act, d.env);
      var r := Next(j, d.act, d.env);
      HoldStack.StepKeepsInv(j.View(), if d.act.Shim? then d.act.op
                                       else HoldStack.Announce(r.world.state.profile, r.world.state.Locked()));
      JointInvRun(r, deeds[1..]);
    }
  }

  // ---- A hold across an AC round trip -----------------------------------------------------

  /** Locked throughout. */
  predicate StaysLockedJoint(j: Joint, deeds: seq<Deed>)
    decreases |deeds|
  {
    j.world.state.Locked()
    && (deeds != [] ==> StaysLockedJoint(Next(j, deeds[0].act, deeds[0].env), deeds[1..]))
  }

  /** Something is held throughout. */
  predicate StaysHeld(j: Joint, deeds: seq<Deed>)
    decreases |deeds|
  {
    j.stack.holds != []
    && (deeds != [] ==> StaysHeld(Next(j, deeds[0].act, deeds[0].env), deeds[1..]))
  }

  /** On the lock the active profile is pinned: a stack that stays occupied keeps its baseline, and one that was ever
      empty has the pinned profile as its baseline. */
  lemma LockedBaseline(sys: HoldStack.System, op: HoldStack.Op)
    requires HoldStack.Inv(sys) && sys.locked && sys.active == Performance
    requires op.Announce? ==> op.profile == Performance && op.locked
    ensures var r := HoldStack.Step(sys, op);
            && HoldStack.Inv(r)
            && HoldStack.Baseline(r)
                 == (if sys.stack.holds != [] && r.stack.holds != [] then HoldStack.Baseline(sys) else Performance)
  {
    HoldStack.StepKeepsInv(sys, op);
  }

  /** The lock's hold on the world: a saved snapshot, the pins, and an idle executor. */
  ghost predicate UnderLock(j: Joint, saved: DcSnapshot) {
    && j.Idle() && HoldStack.Inv(j.View())
    && j.world.state.Locked() && j.world.state.lastDc == Some(saved) && Pinned(j.world.state, j.world.limits)
  }

  lemma NextUnderLock(j: Joint, act: Act, env: Env, saved: DcSnapshot)
    requires UnderLock(j, saved) && act.Ordinary() && NoRefusals(env)
    requires Next(j, act, env).world.state.Locked()
    ensures var r := Next(j, act, env);
            && UnderLock(r, saved)
            && HoldStack.Baseline(r.View())
               == (if j.stack.holds != [] && r.stack.holds != [] then HoldStack.Baseline(j.View()) else Performance)
  {
    hide Tick, Process, HoldStack.Answer, HoldStack.Reconciled, HoldStack.Step, HoldStack.Inv, HoldStack.Baseline,
         ForcedMax;
    NextIsStep(j, act, env);
    var r := Next(j, act, env);
    WorldUnderLock(j, act, env, saved);
    LockedBaseline(j.View(), if act.Shim? then act.op
                             else HoldStack.Announce(r.world.state.profile, r.world.state.Locked()));
  }

  lemma WorldUnderLock(j: Joint, act: Act, env: Env, saved: DcSnapshot)
    requires UnderLock(j, saved) && act.Ordinary() && NoRefusals(env)
    requires Next(j, act, env).world.state.Locked()
    ensures var w := Next(j, act, env).world; w.state.lastDc == Some(saved) && Pinned(w.state, w.limits)
  {
    hide Tick, Process, HoldStack.Answer, HoldStack.Reconciled, HoldStack.Inv, Pinned;
    var st := if act.Shim? then HoldStack.Answer(j.stack, act.op, j.world.state.profile) else j.stack;
    if act.Outside? || |st.sent| > |j.stack.sent| {
      var t := if act.Outside? then act.t else SetProfile(st.sent[|st.sent| - 1]);
      TickIsProcess(j.world, t, env);
      ProcessFromLocked(j.world, t, env, saved);
      ProcessKeepsPins(j.world, t, env);
    }
  }

  lemma {:induction false} RunUnderLock(j: Joint, deeds: seq<Deed>, saved: DcSnapshot)
    requires UnderLock(j, saved) && StaysLockedJoint(j, deeds)
    requires HoldStack.Baseline(j.View()) == Performance || j.stack.holds != []
    requires forall d :: d in deeds ==> Quiet(d)
    ensures var r := RunJoint(j, deeds);
            && UnderLock(r, saved)
            && HoldStack.Baseline(r.View())
                 == (if StaysHeld(j, deeds) then HoldStack.Baseline(j.View()) else Performance)
    decreases |deeds|
  {
    hide Next, HoldStack.Inv, Pinned, HoldStack.Baseline;
    if deeds != [] {
      var d := deeds[0];
      assert Quiet(d);
      NextUnderLock(j, d.act, d.env, saved);
      RunUnderLock(Next(j, d.act, d.env), deeds[1..], saved);
    }
  }

  /** The plug edge: the lock takes over, and the holds survive exactly if they ask for performance. */
  lemma PlugUnderHold(j: Joint, plug: Env)
    requires j.Idle() && HoldStack.Inv(j.View()) && j.stack.holds != [] && NoRefusals(plug)
    requires !j.world.state.acConnected && j.world.state.acMaxPerformance
    ensures var r := Next(j, Outside(AcPowerChanged(true)), plug);
            && UnderLock(r, j.world.state.Snapshot())
            && (if j.world.state.profile == Performance then r.stack == j.stack else r.stack.holds == [])
  {
    var w := j.world;
    var out := ReducePlug(w.state, w.limits, w.config);
    NextIsStep(j, Outside(AcPowerChanged(true)), plug);
    TickIsProcess(w, AcPowerChanged(true), plug);
    ProcessUnfolds(w, AcPowerChanged(true), plug, Ok(out));
    HandleAllFrame(w.(state := Publish(out.state)), Ranges(w), out.effects, plug, 0);
    ProcessKeepsPins(w, AcPowerChanged(true), plug);
    hide Tick, Process, ForceAcMax, ForcedMax;
    HoldStack.StepKeepsInv(j.View(), HoldStack.Announce(Performance, true));
  }

  /** A hold alive at the plug edge is copied into the battery snapshot. After any quiet stretch on the lock, leaving it
      brings the held profile back, whatever became of the hold; the profile under the holds is still the one to return
      to exactly if it was the active one anyway, or the holds asked for performance and never all went away. */
  lemma HoldOverAc(j: Joint, plug: Env, deeds: seq<Deed>, t: Transition, last: Env)
    requires j.Idle() && HoldStack.Inv(j.View()) && j.stack.holds != []
    requires !j.world.state.acConnected && j.world.state.acMaxPerformance
    requires NoRefusals(plug) && NoRefusals(last) && Outside(t).Ordinary() && forall d :: d in deeds ==> Quiet(d)
    requires StaysLockedJoint(Next(j, Outside(AcPowerChanged(true)), plug), deeds)
    requires !Next(RunJoint(Next(j, Outside(AcPowerChanged(true)), plug), deeds), Outside(t), last).world.state.Locked()
    ensures var held, under := j.world.state.profile, HoldStack.Baseline(j.View());
            var plugged := Next(j, Outside(AcPowerChanged(true)), plug);
            var r := Next(RunJoint(plugged, deeds), Outside(t), last);
            && HoldStack.Inv(r.View())
            && r.world.state.profile == held
            && (HoldStack.Baseline(r.View()) == under
                <==> held == under || (held == Performance && StaysHeld(plugged, deeds)))
  {
    var plugged, saved := Next(j, Outside(AcPowerChanged(true)), plug), j.world.state.Snapshot();
    PlugUnderHold(j, plug);
    PluggedBaseline(j, plugged);
    hide Next, HoldStack.Inv, Pinned;
    RunUnderLock(plugged, deeds, saved);
    var b := RunJoint(plugged, deeds);
    var r := Next(b, Outside(t), last);
    LeavingLock(b, t, last, saved);
    assert StaysHeld(plugged, deeds) ==> plugged.stack.holds != [];
  }

  lemma PluggedBaseline(j: Joint, r: Joint)
    requires HoldStack.Inv(j.View()) && HoldStack.Inv(r.View()) && j.stack.holds != []
    requires r.world.state.profile == Performance
    requires if j.world.state.profile == Performance then r.stack == j.stack else r.stack.holds == []
    ensures HoldStack.Baseline(r.View())
         == if j.world.state.profile == Performance then HoldStack.Baseline(j.View()) else Performance
  {
  }

  /** The step that leaves the lock: the saved profile is back, and the holds of the locked stretch survive it exactly
      if that profile is performance. */
  lemma LeavingLock(j: Joint, t: Transition, env: Env, saved: DcSnapshot)
    requires UnderLock(j, saved) && Outside(t).Ordinary() && NoRefusals(env)
    requires !Next(j, Outside(t), env).world.state.Locked()
    ensures var r := Next(j, Outside(t), env);
            && HoldStack.Inv(r.View()) && r.world.state.profile == saved.profile
            && HoldStack.Baseline(r.View())
               == (if saved.profile == Performance then HoldStack.Baseline(j.View()) else saved.profile)
  {
    hide Tick, Process, ForcedMax;
    NextIsStep(j, Outside(t), env);
    TickIsProcess(j.world, t, env);
    ProcessFromLocked(j.world, t, env, saved);
    var r := Next(j, Outside(t), env);
    HoldStack.StepKeepsInv(j.View(), HoldStack.Announce(r.world.state.profile, r.world.state.Locked()));
  }

  /** The plainest loss: hold power-saver, plug in and out. The hold is cancelled at the plug edge, yet power-saver is
      back on battery, with nothing held and nothing remembered that could end it. */
  lemma SaverOutlivesItsHold(j: Joint, plug: Env, unplug: Env)
    requires j.Idle() && HoldStack.Inv(j.View()) && j.stack.holds != [] && j.world.state.profile == PowerSaver
    requires !j.world.state.acConnected && j.world.state.acMaxPerformance && NoRefusals(plug) && NoRefusals(unplug)
    ensures var r := Next(Next(j, Outside(AcPowerChanged(true)), plug), Outside(AcPowerChanged(false)), unplug);
            && r.world.state.profile == PowerSaver && !r.world.state.Locked()
            && r.stack.holds == [] && r.stack.preHold.None?
  {
    PlugUnderHold(j, plug);
    var plugged, saved := Next(j, Outside(AcPowerChanged(true)), plug), j.world.state.Snapshot();
    UnplugLeavesLock(plugged.world, saved, unplug);
    hide Tick, Process, RestoreDc;
    TickIsProcess(plugged.world, AcPowerChanged(false), unplug);
    LeavingLock(plugged, AcPowerChanged(false), unplug, saved);
  }

  lemma UnplugLeavesLock(w: World, saved: DcSnapshot, env: Env)
    requires w.state.Locked() && w.state.lastDc == Some(saved)
    ensures !Process(w, AcPowerChanged(false), env).state.Locked()
  {
    var out := RestoreDc(w.state, saved);
    var o := Output(out.state.(acConnected := false), out.effects);
    ProcessUnfolds(w, AcPowerChanged(false), env, Ok(o));
    HandleAllFrame(w.(state := Publish(o.state)), Ranges(w), o.effects, env, 0);
  }
}
