/** Finding a hwmon node by name: the scan over indices, and the cache that stands in for it. */
module Hwmon {
  import opened Units
  import opened Sysfs
  import opened Text

  const MAX_HWMON_INDEX: nat := 24

  function Base(index: nat): string {
    "/sys/class/hwmon/hwmon" + Dec(index)
  }

  function NamePath(base: string): string {
    base + "/name"
  }

  /** The node at `base` currently answers to `name`. */
  predicate Live(store: Store, base: string, name: string) {
    NamePath(base) in store && Trim(store[NamePath(base)]) == name
  }

  /** The first live node at or after an index. */
  function Scan(store: Store, name: string, index: nat): Option<string>
    decreases MAX_HWMON_INDEX - index
  {
    if index >= MAX_HWMON_INDEX then None
    else if Live(store, Base(index), name) then Some(Base(index))
    else Scan(store, name, index + 1)
  }

  predicate IsNode(base: string) {
    exists i: nat :: i < MAX_HWMON_INDEX && base == Base(i)
  }

  /** At most one node carries the name. */
  ghost predicate Unique(store: Store, name: string) {
    forall a, b :: IsNode(a) && IsNode(b) && Live(store, a, name) && Live(store, b, name) ==> a == b
  }

  /** The scan finds a live node exactly when there is one in range. */
  lemma {:induction false} ScanFinds(store: Store, name: string, index: nat)
    ensures Scan(store, name, index).Some? <==>
            exists i: nat :: index <= i < MAX_HWMON_INDEX && Live(store, Base(i), name)
    ensures Scan(store, name, index).Some? ==>
              IsNode(Scan(store, name, index).value) && Live(store, Scan(store, name, index).value, name)
    decreases MAX_HWMON_INDEX - index
  {
    if index < MAX_HWMON_INDEX && !Live(store, Base(index), name) {
      ScanFinds(store, name, index + 1);
      if i: nat :| index <= i < MAX_HWMON_INDEX && Live(store, Base(i), name) {
        assert i != index;
      }
    }
  }

  method FindByName(store: Store, name: string) returns (found: Option<string>)
    ensures found == Scan(store, name, 0)
  {
    for i: nat := 0 to MAX_HWMON_INDEX
      invariant Scan(store, name, 0) == Scan(store, name, i)
    {
      var base := Base(i);
      if NamePath(base) in store {
        if Trim(store[NamePath(base)]) == name {
          return Some(base);
        }
      }
    }
    found := None;
  }

  /** What the cache owes its caller: a node exactly when the scan has one, live, and the scan's own when names are
      unique. */
  ghost predicate StandsIn(found: Option<string>, store: Store, name: string) {
    && (found.Some? <==> Scan(store, name, 0).Some?)
    && (found.Some? ==> IsNode(found.value) && Live(store, found.value, name))
    && (Unique(store, name) ==> found == Scan(store, name, 0))
  }

  class Cache {
    var resolved: map<string, string>

    ghost predicate Valid()
      reads this
    {
      forall name :: name in resolved ==> IsNode(resolved[name])
    }

    constructor ()
      ensures Valid() && resolved == map[]
    {
      resolved := map[];
    }

    /** A confirmed cache hit, else a fresh scan whose result is remembered. */
    method Resolve(store: Store, name: string) returns (found: Option<string>)
      requires Valid()
      modifies this
      ensures Valid()
      ensures StandsIn(found, store, name)
      ensures found == if name in old(resolved) && Live(store, old(resolved)[name], name)
                       then Some(old(resolved)[name]) else Scan(store, name, 0)
      ensures resolved == if found.Some? then old(resolved)[name := found.value] else old(resolved) - {name}
    {
      ScanFinds(store, name, 0);
      if name in resolved {
        var base := resolved[name];
        if NamePath(base) in store && Trim(store[NamePath(base)]) == name {
          assert resolved == resolved[name := base];
          return Some(base);
        }
        resolved := resolved - {name};
      }
      found := FindByName(store, name);
      if found.Some? {
        resolved := resolved[name := found.value];
      }
    }
  }

  /** Any number of lookups of any names, the tree changing arbitrarily in between: every answer stands in for a
      scan. */
  method Lookups(trees: seq<Store>, names: seq<string>) returns (answers: seq<Option<string>>)
    requires |trees| == |names|
    ensures |answers| == |names|
    ensures forall k :: 0 <= k < |names| ==> StandsIn(answers[k], trees[k], names[k])
  {
    hide StandsIn;
    var cache := new Cache();
    answers := [];
    for i := 0 to |names|
      invariant cache.Valid() && |answers| == i
      invariant forall k :: 0 <= k < i ==> StandsIn(answers[k], trees[k], names[k])
    {
      var found := cache.Resolve(trees[i], names[i]);
      answers := answers + [found];
    }
  }

  /** With two live nodes of one name the cache may keep the other one, so uniqueness is needed for equality: here a
      second node appears below the one that was looked up first. */
  method DuplicatesDiffer() returns (tree: Store, answer: Option<string>)
    ensures answer.Some? && answer != Scan(tree, "asus", 0)
    ensures StandsIn(answer, tree, "asus")
  {
    BasesDiffer(0, 1);
    var cache := new Cache();
    var before: Store := map[NamePath(Base(1)) := "asus"];
    assert Live(before, Base(1), "asus") && Scan(before, "asus", 1) == Some(Base(1));
    var first := cache.Resolve(before, "asus");
    tree := before[NamePath(Base(0)) := "asus"];
    assert Live(tree, Base(0), "asus") && Live(tree, Base(1), "asus");
    answer := cache.Resolve(tree, "asus");
  }

  /** Node paths are injective in the index, whatever follows them. */
  lemma BasesDiffer(i: nat, j: nat)
    ensures Base(i) == Base(j) ==> i == j
    ensures NamePath(Base(i)) == NamePath(Base(j)) ==> i == j
  {
    var root := "/sys/class/hwmon/hwmon";
    assert Base(i)[|root|..] == Dec(i) && Base(j)[|root|..] == Dec(j);
    if NamePath(Base(i)) == NamePath(Base(j)) {
      assert NamePath(Base(i))[..|NamePath(Base(i))| - 5] == Base(i);
      assert NamePath(Base(j))[..|NamePath(Base(j))| - 5] == Base(j);
    }
    if Base(i) == Base(j) {
      DecIsInjective(i, j);
    }
  }
}
