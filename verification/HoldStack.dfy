/** Profile holds on the power-profiles bus: a stack of requests on top of whatever profile was active before. */
module HoldStack {
  import opened Units
  import opened Domain

  datatype Hold = Hold(cookie: U32, profile: ProfileName, holder: string)

  /** The shared state of the shim; `sent` lists the profile changes it has queued for the executor. */
  datatype Stack = Stack(holds: seq<Hold>, nextCookie: U32, preHold: Option<ProfileName>, sent: seq<ProfileName>)

  const EMPTY := Stack([], 1, None, [])

  /** Power-saver outranks performance. */
  function Effective(holds: seq<Hold>): Option<ProfileName> {
    if exists h :: h in holds && h.profile == PowerSaver then Some(PowerSaver)
    else if exists h :: h in holds && h.profile == Performance then Some(Performance)
    else None
  }

  function Send(st: Stack, profile: Option<ProfileName>): Stack {
    if profile.Some? then st.(sent := st.sent + [profile.value]) else st
  }

  /** A new hold; the first one of a stack records the profile to return to. */
  function Held(st: Stack, profile: ProfileName, holder: string, current: ProfileName): Stack {
    var holds := st.holds + [Hold(st.nextCookie, profile, holder)];
    Send(Stack(holds, (st.nextCookie + 1) % U32_MODULUS, if st.holds == [] then Some(current) else st.preHold, st.sent),
         Effective(holds))
  }

  function Kept(holds: seq<Hold>, remove: Hold -> bool): seq<Hold> {
    if holds == [] then []
    else (if remove(holds[0]) then [] else [holds[0]]) + Kept(holds[1..], remove)
  }

  function Cookies(holds: seq<Hold>, remove: Hold -> bool): seq<U32> {
    if holds == [] then []
    else (if remove(holds[0]) then [holds[0].cookie] else []) + Cookies(holds[1..], remove)
  }

  /** A voluntary release or a vanished holder: re-assert what remains, or restore what was there before. */
  function Released(st: Stack, remove: Hold -> bool): Stack {
    var holds := Kept(st.holds, remove);
    if Cookies(st.holds, remove) == [] then st
    else if Effective(holds).Some? then Send(st.(holds := holds), Effective(holds))
    else Send(st.(holds := holds, preHold := None), st.preHold)
  }

  /** The reconciler: a profile the stack does not explain cancels every hold and becomes the new truth. */
  function Reconciled(st: Stack, current: ProfileName): Stack {
    if Effective(st.holds).None? || Effective(st.holds) == Some(current) then st
    else st.(holds := [], preHold := None)
  }

  class Shared {
    var holds: seq<Hold>
    var nextCookie: U32
    var preHold: Option<ProfileName>
    var sent: seq<ProfileName>

    ghost function Model(): Stack
      reads this
    {
      Stack(holds, nextCookie, preHold, sent)
    }

    constructor ()
      ensures Model() == EMPTY
    {
      holds, nextCookie, preHold, sent := [], 1, None, [];
    }

    /** Only power-saver and performance can be held. */
    method HoldProfile(profile: ProfileName, holder: string, current: ProfileName) returns (r: Result<U32>)
      modifies this
      ensures r == if profile == PowerSaver || profile == Performance then Ok(old(nextCookie))
                   else Err(InvariantViolation)
      ensures Model() == if r.Ok? then Held(old(Model()), profile, holder, current) else old(Model())
    {
      if profile != PowerSaver && profile != Performance {
        return Err(InvariantViolation);
      }
      var cookie := nextCookie;
      nextCookie := (nextCookie + 1) % U32_MODULUS;
      if holds == [] {
        preHold := Some(current);
      }
      holds := holds + [Hold(cookie, profile, holder)];
      var target := EffectiveProfile();
      if target.Some? {
        sent := sent + [target.value];
      }
      r := Ok(cookie);
    }

    method EffectiveProfile() returns (target: Option<ProfileName>)
      ensures target == Effective(holds)
    {
      var saver, performance := false, false;
      for i := 0 to |holds|
        invariant saver <==> exists h :: h in holds[..i] && h.profile == PowerSaver
        invariant performance <==> exists h :: h in holds[..i] && h.profile == Performance
      {
        assert holds[..i + 1] == holds[..i] + [holds[i]];
        saver := saver || holds[i].profile == PowerSaver;
        performance := performance || holds[i].profile == Performance;
      }
      assert holds[..|holds|] == holds;
      target := if saver then Some(PowerSaver) else if performance then Some(Performance) else None;
    }

    /** Drop the matching holds; what to do about it is the caller's decision. */
    method RemoveHolds(remove: Hold -> bool) returns (removed: seq<U32>, target: Option<ProfileName>)
      modifies `holds
      ensures holds == Kept(old(holds), remove) && removed == Cookies(old(holds), remove)
      ensures target == Effective(holds)
    {
      var kept: seq<Hold> := [];
      removed := [];
      for i := 0 to |holds|
        invariant kept + Kept(holds[i..], remove) == Kept(holds, remove)
        invariant removed + Cookies(holds[i..], remove) == Cookies(holds, remove)
      {
        assert holds[i..][1..] == holds[i + 1..];
        if remove(holds[i]) {
          removed := removed + [holds[i].cookie];
        } else {
          kept := kept + [holds[i]];
        }
      }
      holds := kept;
      target := EffectiveProfile();
    }

    /** Shared by an explicit release and a disconnected holder; removing nothing is a no-op. */
    method ReleaseWhere(remove: Hold -> bool)
      modifies this
      ensures Model() == Released(old(Model()), remove)
    {
      NothingRemoved(holds, remove);
      var removed, target := RemoveHolds(remove);
      if removed == [] {
        return;
      }
      match target
      case Some(profile) => sent := sent + [profile];
      case None =>
        if preHold.Some? {
          sent := sent + [preHold.value];
          preHold := None;
        }
    }

    /** Runs whenever the daemon publishes a state. */
    method Reconcile(current: ProfileName) returns (released: seq<U32>)
      modifies `holds, `preHold
      ensures Model() == Reconciled(old(Model()), current)
      ensures released == if holds == old(holds) then [] else Cookies(old(holds), _ => true)
    {
      var expected := EffectiveProfile();
      if expected.None? || expected.value == current {
        return [];
      }
      AllRemoved(holds);
      var target;
      released, target := RemoveHolds(_ => true);
      preHold := None;
    }
  }

  lemma {:induction false} NothingRemoved(holds: seq<Hold>, remove: Hold -> bool)
    ensures Cookies(holds, remove) == [] <==> Kept(holds, remove) == holds
    ensures |Kept(holds, remove)| + |Cookies(holds, remove)| == |holds|
  {
    if holds != [] {
      NothingRemoved(holds[1..], remove);
      assert holds == [holds[0]] + holds[1..];
    }
  }

  lemma {:induction false} AllRemoved(holds: seq<Hold>)
    ensures Kept(holds, _ => true) == []
  {
    if holds != [] {
      AllRemoved(holds[1..]);
    }
  }

  // ---- The shim next to the executor -----------------------------------------------

  /** What can happen, each step run to completion: a hold, a release, a holder leaving, or the executor publishing
      some profile for reasons of its own (another client, the command line, an AC edge). */
  datatype Op =
    | Take(profile: ProfileName, holder: string)
    | Release(cookie: U32)
    | Leave(holder: string)
    | Announce(profile: ProfileName, locked: bool)

  function HasCookie(cookie: U32): Hold -> bool {
    (h: Hold) => h.cookie == cookie
  }

  function HeldBy(holder: string): Hold -> bool {
    (h: Hold) => h.holder == holder
  }

  datatype System = System(stack: Stack, active: ProfileName, locked: bool)

  /** The executor processes the profile just sent, if any, and publishes; every publication wakes the reconciler. */
  function Settle(sys: System, st: Stack): System {
    if |st.sent| <= |sys.stack.sent| then sys.(stack := st)
    else
      var active := if sys.locked then sys.active else st.sent[|st.sent| - 1];
      System(Reconciled(st, active), active, sys.locked)
  }

  /** The shim's own part of a step, before anything is published. */
  function Answer(st: Stack, op: Op, current: ProfileName): Stack {
    match op
    case Take(profile, holder) =>
      if profile != PowerSaver && profile != Performance then st else Held(st, profile, holder, current)
    case Release(cookie) => Released(st, HasCookie(cookie))
    case Leave(holder) => Released(st, HeldBy(holder))
    case Announce(_, _) => st
  }

  function Step(sys: System, op: Op): System {
    match op
    case Announce(profile, locked) => System(Reconciled(sys.stack, profile), profile, locked)
    case _ => Settle(sys, Answer(sys.stack, op, sys.active))
  }

  function Run(sys: System, ops: seq<Op>): System
    decreases |ops|
  {
    if ops == [] then sys else Run(Step(sys, ops[0]), ops[1..])
  }

  /** What every step keeps: a profile to return to exactly while something is held, and an active profile the
      stack explains. */
  predicate Inv(sys: System) {
    && (sys.stack.preHold.Some? <==> sys.stack.holds != [])
    && (forall h :: h in sys.stack.holds ==> h.profile == PowerSaver || h.profile == Performance)
    && (sys.stack.holds != [] ==> Effective(sys.stack.holds) == Some(sys.active))
  }

  lemma SomethingHeld(holds: seq<Hold>)
    requires forall h :: h in holds ==> h.profile == PowerSaver || h.profile == Performance
    ensures Effective(holds).Some? <==> holds != []
  {
    if holds != [] {
      assert holds[0] in holds;
    }
  }

  /** The effective profile depends on which holds remain, not on their order. */
  lemma EffectiveOfSet(a: seq<Hold>, b: seq<Hold>)
    requires forall h :: h in a <==> h in b
    ensures Effective(a) == Effective(b)
    ensures Effective(a) == Some(PowerSaver) <==> exists h :: h in a && h.profile == PowerSaver
  {
  }

  /** What is asked for is what somebody holds: power-saver if anyone does, else performance if anyone does. */
  lemma EffectiveIsHeld(holds: seq<Hold>)
    ensures Effective(holds).Some? ==> exists h :: h in holds && h.profile == Effective(holds).value
    ensures forall h :: h in holds && h.profile == PowerSaver ==> Effective(holds) == Some(PowerSaver)
    ensures forall h :: h in holds && h.profile == Performance ==>
              Effective(holds) == Some(Performance) || exists g :: g in holds && g.profile == PowerSaver
    ensures (forall h :: h in holds ==> h.profile != PowerSaver && h.profile != Performance) ==> Effective(holds).None?
  {
  }

  /** Over every run, locked or not: while anything is held, the machine is in power-saver exactly if someone holds
      that, and otherwise in performance. */
  lemma HeldProfileRun(sys: System, ops: seq<Op>)
    requires Inv(sys)
    ensures var r := Run(sys, ops);
            r.stack.holds != [] ==>
              && (r.active == PowerSaver <==> exists h :: h in r.stack.holds && h.profile == PowerSaver)
              && (r.active != PowerSaver ==> r.active == Performance)
              && (exists h :: h in r.stack.holds && h.profile == r.active)
  {
    InvRun(sys, ops);
    var r := Run(sys, ops);
    EffectiveIsHeld(r.stack.holds);
    if r.stack.holds != [] {
      assert r.stack.holds[0] in r.stack.holds;
    }
  }

  /** The first hold gets what it asks for, unless the lock is in force; the shim sends exactly that. */
  lemma FirstHoldObeyed(sys: System, profile: ProfileName, holder: string)
    requires Inv(sys) && sys.stack.holds == [] && (profile == PowerSaver || profile == Performance)
    ensures var r := Step(sys, Take(profile, holder));
            && (!sys.locked ==> r.active == profile && |r.stack.holds| == 1 && r.stack.preHold == Some(sys.active))
            && r.stack.sent == sys.stack.sent + [profile]
  {
    var hold := Hold(sys.stack.nextCookie, profile, holder);
    assert sys.stack.holds + [hold] == [hold] && hold in [hold];
  }

  /** Removal takes away exactly the matching holds; where there is none, nothing happens and nothing is sent. */
  lemma RemovalIsExact(st: Stack, remove: Hold -> bool)
    ensures forall h :: h in Released(st, remove).holds <==> h in st.holds && !remove(h)
    ensures (forall h :: h in st.holds ==> !remove(h)) ==> Released(st, remove) == st
  {
    NoneRemoved(st.holds, remove);
    NothingRemoved(st.holds, remove);
    KeptIsSubset(st.holds, remove);
    hide Effective, Kept, Cookies;
  }

  /** A release takes away exactly the holds with that cookie, a departure exactly those of that holder. */
  lemma ReleaseIsExact(st: Stack, cookie: U32, holder: string, current: ProfileName)
    ensures forall h :: h in Answer(st, Release(cookie), current).holds <==> h in st.holds && h.cookie != cookie
    ensures forall h :: h in Answer(st, Leave(holder), current).holds <==> h in st.holds && h.holder != holder
    ensures (forall h :: h in st.holds ==> h.cookie != cookie) ==> Answer(st, Release(cookie), current) == st
    ensures (forall h :: h in st.holds ==> h.holder != holder) ==> Answer(st, Leave(holder), current) == st
  {
    RemovalIsExact(st, HasCookie(cookie));
    RemovalIsExact(st, HeldBy(holder));
    hide Released;
  }

  lemma {:induction false} NoneRemoved(holds: seq<Hold>, remove: Hold -> bool)
    ensures (forall h :: h in holds ==> !remove(h)) ==> Cookies(holds, remove) == []
  {
    if holds != [] {
      NoneRemoved(holds[1..], remove);
      assert holds == [holds[0]] + holds[1..];
    }
  }

  lemma {:induction false} KeptIsSubset(holds: seq<Hold>, remove: Hold -> bool)
    ensures forall h :: h in Kept(holds, remove) <==> h in holds && !remove(h)
  {
    if holds != [] {
      KeptIsSubset(holds[1..], remove);
      assert holds == [holds[0]] + holds[1..];
    }
  }

  /** A release or departure: the matching holds go; what is active is what the rest asks for or, when nothing is left,
      what was active before the first hold. */
  lemma ReleasedStep(sys: System, remove: Hold -> bool)
    requires Inv(sys) && !sys.locked
    ensures var r := Settle(sys, Released(sys.stack, remove));
            && Inv(r) && !r.locked
            && r.stack.holds == Kept(sys.stack.holds, remove)
            && r.stack.nextCookie == sys.stack.nextCookie
            && (if r.stack.holds != [] then r.stack.preHold == sys.stack.preHold
                else r.active == if sys.stack.holds == [] then sys.active else sys.stack.preHold.value)
  {
    KeptIsSubset(sys.stack.holds, remove);
    NothingRemoved(sys.stack.holds, remove);
    SomethingHeld(Kept(sys.stack.holds, remove));
  }

  lemma TakenStep(sys: System, profile: ProfileName, holder: string)
    requires Inv(sys) && (profile == PowerSaver || profile == Performance)
    ensures var r, holds := Settle(sys, Held(sys.stack, profile, holder, sys.active)),
                            sys.stack.holds + [Hold(sys.stack.nextCookie, profile, holder)];
            && Inv(r) && r.locked == sys.locked
            && r.stack.holds == (if sys.locked && Effective(holds) != Some(sys.active) then [] else holds)
            && (r.stack.holds != [] ==>
                  r.stack.preHold == Some(if sys.stack.holds == [] then sys.active else sys.stack.preHold.value))
            && (sys.locked ==> r.active == sys.active)
  {
  }

  lemma StepKeepsInv(sys: System, op: Op)
    requires Inv(sys)
    ensures Inv(Step(sys, op))
  {
    match op
    case Take(profile, holder) =>
      if profile == PowerSaver || profile == Performance {
        TakenStep(sys, profile, holder);
      }
    case Release(cookie) => LockedRelease(sys, HasCookie(cookie));
    case Leave(holder) => LockedRelease(sys, HeldBy(holder));
    case Announce(profile, locked) => SomethingHeld(sys.stack.holds);
  }

  lemma LockedRelease(sys: System, remove: Hold -> bool)
    requires Inv(sys)
    ensures Inv(Settle(sys, Released(sys.stack, remove)))
  {
    KeptIsSubset(sys.stack.holds, remove);
    NothingRemoved(sys.stack.holds, remove);
    SomethingHeld(Kept(sys.stack.holds, remove));
  }

  /** Over every run, locked or not, with any announcements in between. */
  lemma {:induction false} InvRun(sys: System, ops: seq<Op>)
    requires Inv(sys)
    ensures Inv(Run(sys, ops))
    decreases |ops|
  {
    if ops != [] {
      StepKeepsInv(sys, ops[0]);
      InvRun(Step(sys, ops[0]), ops[1..]);
    }
  }

  // ---- Draining restores, and the reconciler stays quiet ------------------------------

  function IssuedBy(op: Op): nat {
    if op.Take? && (op.profile == PowerSaver || op.profile == Performance) then 1 else 0
  }

  /** The holds after one step if nothing ever cancelled them. */
  function WantedOne(holds: seq<Hold>, nextCookie: U32, op: Op): seq<Hold> {
    match op
    case Take(profile, holder) =>
      if profile != PowerSaver && profile != Performance then holds else holds + [Hold(nextCookie, profile, holder)]
    case Release(cookie) => Kept(holds, HasCookie(cookie))
    case Leave(holder) => Kept(holds, HeldBy(holder))
    case Announce(_, _) => holds
  }

  function Wanted(holds: seq<Hold>, nextCookie: U32, ops: seq<Op>): seq<Hold>
    decreases |ops|
  {
    if ops == [] then holds
    else Wanted(WantedOne(holds, nextCookie, ops[0]), (nextCookie + IssuedBy(ops[0])) % U32_MODULUS, ops[1..])
  }

  /** What stands under the holds: the profile active before the first of them. */
  function Baseline(sys: System): ProfileName
    requires Inv(sys)
  {
    if sys.stack.holds == [] then sys.active else sys.stack.preHold.value
  }

  /** Off the lock and without outside announcements no hold is ever cancelled, and the baseline never moves: as soon
      as the stack drains, in whatever order, the profile active before the first hold is active again. */
  lemma {:induction false} DrainRestores(sys: System, ops: seq<Op>)
    requires Inv(sys) && !sys.locked
    requires forall op :: op in ops ==> !op.Announce?
    ensures var r := Run(sys, ops);
            && Inv(r) && !r.locked
            && r.stack.holds == Wanted(sys.stack.holds, sys.stack.nextCookie, ops)
            && Baseline(r) == Baseline(sys)
            && (r.stack.holds == [] ==> r.active == Baseline(sys))
    decreases |ops|
  {
    hide Step, WantedOne, IssuedBy;
    if ops != [] {
      assert ops[0] in ops;
      DrainStep(sys, ops[0]);
      DrainRestores(Step(sys, ops[0]), ops[1..]);
    }
  }

  lemma DrainStep(sys: System, op: Op)
    requires Inv(sys) && !sys.locked && !op.Announce?
    ensures var r := Step(sys, op);
            && Inv(r) && !r.locked
            && r.stack.holds == WantedOne(sys.stack.holds, sys.stack.nextCookie, op)
            && r.stack.nextCookie == (sys.stack.nextCookie + IssuedBy(op)) % U32_MODULUS
            && Baseline(r) == Baseline(sys)
  {
    match op
    case Take(profile, holder) =>
      if profile == PowerSaver || profile == Performance {
        TakenStep(sys, profile, holder);
      }
    case Release(cookie) => ReleasedStep(sys, HasCookie(cookie));
    case Leave(holder) => ReleasedStep(sys, HeldBy(holder));
  }

  /** An outside announcement cancels every hold exactly when it names another profile than the stack's; naming the
      same one leaves stack and baseline as they were. */
  lemma AnnouncementCancelsIff(sys: System, profile: ProfileName, locked: bool)
    requires Inv(sys) && sys.stack.holds != []
    ensures var r := Step(sys, Announce(profile, locked));
            if profile == sys.active then r.stack == sys.stack
            else r.stack.holds == [] && r.stack.preHold.None? && r.active == profile
  {
  }

  /** Under the AC lock the executor ignores the profile a hold asks for, so the publication that follows cancels the
      whole stack unless the holds ask for what is already pinned. */
  lemma LockedHoldSurvivesIff(sys: System, profile: ProfileName, holder: string)
    requires Inv(sys) && sys.locked && (profile == PowerSaver || profile == Performance)
    ensures var r := Step(sys, Take(profile, holder));
            var holds := sys.stack.holds + [Hold(sys.stack.nextCookie, profile, holder)];
            && r.active == sys.active
            && (r.stack.holds == holds <==> Effective(holds) == Some(sys.active))
            && (r.stack.holds == [] <==> Effective(holds) != Some(sys.active))
  {
  }

  lemma {:induction false} KeptCommutes(holds: seq<Hold>, a: Hold -> bool, b: Hold -> bool)
    ensures Kept(Kept(holds, a), b) == Kept(Kept(holds, b), a)
  {
    if holds != [] {
      KeptCommutes(holds[1..], a, b);
      KeptConcat(if a(holds[0]) then [] else [holds[0]], Kept(holds[1..], a), b);
      KeptConcat(if b(holds[0]) then [] else [holds[0]], Kept(holds[1..], b), a);
    }
  }

  lemma {:induction false} KeptConcat(x: seq<Hold>, y: seq<Hold>, remove: Hold -> bool)
    ensures Kept(x + y, remove) == Kept(x, remove) + Kept(y, remove)
  {
    if x == [] {
      assert x + y == y;
    } else {
      assert (x + y)[0] == x[0] && (x + y)[1..] == x[1..] + y;
      KeptConcat(x[1..], y, remove);
    }
  }

  /** The order of two releases does not matter to what remains, what is active, or what will be restored. */
  lemma ReleasesCommute(sys: System, c: U32, d: U32)
    requires Inv(sys) && !sys.locked
    ensures var x, y := Step(Step(sys, Release(c)), Release(d)), Step(Step(sys, Release(d)), Release(c));
            x.active == y.active && x.stack.(sent := []) == y.stack.(sent := [])
  {
    var isC, isD := HasCookie(c), HasCookie(d);
    KeptCommutes(sys.stack.holds, isC, isD);
    ReleasedStep(sys, isC);
    ReleasedStep(sys, isD);
    ReleasedStep(Settle(sys, Released(sys.stack, isC)), isD);
    ReleasedStep(Settle(sys, Released(sys.stack, isD)), isC);
  }

  // ---- Cookies ------------------------------------------------------------------------

  /** How many cookies a run hands out. */
  function Issued(ops: seq<Op>): nat {
    if ops == [] then 0 else IssuedBy(ops[0]) + Issued(ops[1..])
  }

  predicate Distinct(holds: seq<Hold>) {
    forall i, j :: 0 <= i < j < |holds| ==> holds[i].cookie != holds[j].cookie
  }

  /** Every live cookie is one of the first `issued`, each at most once. */
  predicate Numbered(st: Stack, issued: nat) {
    && st.nextCookie == (issued + 1) % U32_MODULUS
    && Distinct(st.holds)
    && forall h :: h in st.holds ==> 1 <= h.cookie <= issued
  }

  lemma {:induction false} KeptKeepsDistinct(holds: seq<Hold>, remove: Hold -> bool)
    requires Distinct(holds)
    ensures Distinct(Kept(holds, remove))
  {
    if holds != [] {
      var rest := Kept(holds[1..], remove);
      KeptKeepsDistinct(holds[1..], remove);
      KeptIsSubset(holds[1..], remove);
      forall j | 0 <= j < |rest|
        ensures rest[j].cookie != holds[0].cookie
      {
        assert rest[j] in holds[1..];
      }
    }
  }

  /** With fewer than 2^32 holds ever taken, no two live holds share a cookie, through any mixture of steps. */
  lemma {:induction false} CookiesStayDistinct(sys: System, issued: nat, ops: seq<Op>)
    requires Numbered(sys.stack, issued) && issued + Issued(ops) < U32_MODULUS
    ensures Numbered(Run(sys, ops).stack, issued + Issued(ops))
    decreases |ops|
  {
    if ops != [] {
      StepKeepsNumbered(sys, issued, ops[0]);
      CookiesStayDistinct(Step(sys, ops[0]), issued + IssuedBy(ops[0]), ops[1..]);
    }
  }

  lemma StepKeepsNumbered(sys: System, issued: nat, op: Op)
    requires Numbered(sys.stack, issued) && issued + IssuedBy(op) < U32_MODULUS
    ensures Numbered(Step(sys, op).stack, issued + IssuedBy(op))
  {
    match op
    case Take(profile, holder) =>
      if profile == PowerSaver || profile == Performance {
        TakeKeepsNumbered(sys.stack, profile, holder, sys.active, issued);
      }
    case Release(cookie) => ReleaseKeepsNumbered(sys.stack, HasCookie(cookie), issued);
    case Leave(holder) => ReleaseKeepsNumbered(sys.stack, HeldBy(holder), issued);
    case Announce(_, _) =>
  }

  lemma TakeKeepsNumbered(st: Stack, profile: ProfileName, holder: string, current: ProfileName, issued: nat)
    requires Numbered(st, issued) && issued + 1 < U32_MODULUS
    ensures Numbered(Held(st, profile, holder, current), issued + 1)
  {
    assert st.nextCookie == issued + 1;
  }

  lemma ReleaseKeepsNumbered(st: Stack, remove: Hold -> bool, issued: nat)
    requires Numbered(st, issued)
    ensures Numbered(Released(st, remove), issued)
  {
    KeptKeepsDistinct(st.holds, remove);
    KeptIsSubset(st.holds, remove);
  }
}
