/** Sysfs as the backends see it: files that must exist, operations that may fail, and a kernel that may store
    something other than what it was given. */
module Sysfs {
  import opened Units
  import opened Text

  type Store = map<string, string>

  datatype Entry = Entry(path: string, value: string)

  function Replay(store: Store, writes: seq<Entry>): Store
    decreases |writes|
  {
    if writes == [] then store else Replay(store[writes[0].path := writes[0].value], writes[1..])
  }

  lemma {:induction false} ReplayLast(store: Store, writes: seq<Entry>, e: Entry)
    ensures Replay(store, writes + [e]) == Replay(store, writes)[e.path := e.value]
    decreases |writes|
  {
    if writes == [] {
      assert writes + [e] == [e] && [e][1..] == [];
    } else {
      assert (writes + [e])[0] == writes[0] && (writes + [e])[1..] == writes[1..] + [e];
      ReplayLast(store[writes[0].path := writes[0].value], writes[1..], e);
    }
  }

  lemma {:induction false} ReplayAppend(store: Store, a: seq<Entry>, b: seq<Entry>)
    ensures Replay(store, a + b) == Replay(Replay(store, a), b)
    decreases |a|
  {
    if a == [] {
      assert a + b == b;
    } else {
      assert (a + b)[0] == a[0] && (a + b)[1..] == a[1..] + b;
      ReplayAppend(store[a[0].path := a[0].value], a[1..], b);
    }
  }

  /** The store and log have moved by carrying out a plan in order, up to its end or up to the first failure. */
  ghost predicate Wrote(before: Store, logBefore: seq<Entry>, after: Store, log: seq<Entry>, plan: seq<Entry>,
                        all: bool, faithful: bool) {
    && logBefore <= log
    && var done := log[|logBefore|..];
       && done <= plan
       && (all <==> done == plan)
       && after.Keys == before.Keys
       && (faithful ==> after == Replay(before, done))
  }

  lemma NothingWritten(store: Store, log: seq<Entry>, faithful: bool)
    ensures Wrote(store, log, store, log, [], true, faithful)
  {
  }

  /** A completed plan, then another one. */
  lemma WroteThen(s0: Store, l0: seq<Entry>, s1: Store, l1: seq<Entry>, s2: Store, l2: seq<Entry>, a: seq<Entry>,
                  b: seq<Entry>, all: bool, faithful: bool)
    requires Wrote(s0, l0, s1, l1, a, true, faithful) && Wrote(s1, l1, s2, l2, b, all, faithful)
    ensures Wrote(s0, l0, s2, l2, a + b, all, faithful)
  {
    assert l2[|l0|..] == a + l2[|l1|..];
    ReplayAppend(s0, a, l2[|l1|..]);
  }

  /** A plan cut short is the longer plan cut short. */
  lemma WroteLess(s0: Store, l0: seq<Entry>, s1: Store, l1: seq<Entry>, a: seq<Entry>, b: seq<Entry>, faithful: bool)
    requires Wrote(s0, l0, s1, l1, a, false, faithful)
    ensures Wrote(s0, l0, s1, l1, a + b, false, faithful)
  {
  }

  class Files {
    /** Whether the k-th operation fails. */
    const fails: nat -> bool

    /** What the k-th operation, if it is a write that succeeds, really leaves in the file. */
    const keeps: (nat, string) -> string

    var clock: nat
    var contents: Store

    /** The successful writes, oldest first. */
    var log: seq<Entry>

    constructor (fails: nat -> bool, keeps: (nat, string) -> string, contents: Store)
      ensures this.fails == fails && this.keeps == keeps && this.contents == contents && clock == 0 && log == []
    {
      this.fails, this.keeps, this.contents := fails, keeps, contents;
      clock, log := 0, [];
    }

    /** No operation fails from the k-th on. */
    ghost predicate NeverFails(k: nat) {
      forall i: nat :: k <= i ==> !fails(i)
    }

    /** The k-th operation works, and after it no two operations in a row fail. */
    ghost predicate Settles(k: nat) {
      !fails(k) && forall i: nat :: k < i ==> !(fails(i) && fails(i + 1))
    }

    /** Every successful write stores what it was given. */
    ghost predicate Faithful() {
      forall i: nat, value: string :: keeps(i, value) == value
    }

    /** Reads are trimmed; a missing file is an error. */
    method Read(path: string) returns (r: Result<string>)
      modifies `clock
      ensures clock == old(clock) + 1
      ensures r == if fails(old(clock)) || path !in contents then Err(BackendFailure) else Ok(Trim(contents[path]))
    {
      r := if fails(clock) || path !in contents then Err(BackendFailure) else Ok(Trim(contents[path]));
      clock := clock + 1;
    }

    /** Sysfs never creates a file. */
    method Write(path: string, value: string) returns (r: Result<()>)
      modifies this
      ensures clock == old(clock) + 1
      ensures if fails(old(clock)) || path !in old(contents)
              then r == Err(BackendFailure) && contents == old(contents) && log == old(log)
              else r.Ok? && contents == old(contents)[path := keeps(old(clock), value)]
                   && log == old(log) + [Entry(path, value)]
      ensures Wrote(old(contents), old(log), contents, log, [Entry(path, value)], r.Ok?, Faithful())
    {
      if fails(clock) || path !in contents {
        r := Err(BackendFailure);
      } else {
        contents := contents[path := keeps(clock, value)];
        log, r := log + [Entry(path, value)], Ok(());
      }
      clock := clock + 1;
      assert [Entry(path, value)][1..] == [];
      assert log[|old(log)|..] == if r.Ok? then [Entry(path, value)] else [];
    }
  }
}
