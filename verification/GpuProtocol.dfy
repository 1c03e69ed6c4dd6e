/** The OverDrive write protocol against a driver that may refuse any operation and answer any write in its own way. */
module GpuProtocol {
  import opened Units
  import opened Domain
  import opened Inference
  import opened Text
  import opened GpuTable

  const MANUAL := "manual"
  const AUTO := "auto"

  /** The driver: the range staged so far and the text its clock table reads back as. */
  datatype Driver = Driver(staged: GpuRange, table: string) {
    /** What reading the table yields: sysfs reads are trimmed. */
    function Seen(): string {
      Trim(table)
    }
  }

  datatype Write = Level(value: string) | Command(value: string)

  /** How the clean-up after a failure went. */
  datatype Cleanup = NotNeeded | Cleaned | CleanupFailed

  function StageFloor(n: U32): string {
    "s 0 " + Dec(n)
  }

  function StageCeiling(n: U32): string {
    "s 1 " + Dec(n)
  }

  const COMMIT := "c"
  const RESET := "r"

  /** The commands of one range, in order. */
  function CommitPlan(range: GpuRange): seq<Write> {
    [Command(StageFloor(range.minMhz)), Command(StageCeiling(range.maxMhz)), Command(COMMIT)]
  }

  /** The table is one the driver prints for these bounds. */
  ghost predicate Prints(table: string, bounds: GpuConstraints, p: Padding) {
    exists committed :: table == Table(committed, bounds, p)
  }

  /** A driver that does what the interface documents: stages each end, then commits what was staged. */
  ghost predicate Honest(respond: (Driver, string) -> Driver, bounds: GpuConstraints, p: Padding) {
    && (forall d: Driver, n: U32 :: Prints(d.table, bounds, p) ==>
          respond(d, "s 0 " + Dec(n)) == d.(staged := d.staged.(minMhz := n)))
    && (forall d: Driver, n: U32 :: Prints(d.table, bounds, p) ==>
          respond(d, "s 1 " + Dec(n)) == d.(staged := d.staged.(maxMhz := n)))
    && (forall d: Driver :: Prints(d.table, bounds, p) ==>
          respond(d, "c") == Driver(d.staged, Table(d.staged, bounds, p)))
  }

  class OverDrive {
    /** Whether the k-th sysfs operation fails. */
    const fails: nat -> bool

    /** What the driver becomes after accepting a command. */
    const respond: (Driver, string) -> Driver

    var clock: nat
    var level: string
    var driver: Driver
    var log: seq<Write>

    constructor (fails: nat -> bool, respond: (Driver, string) -> Driver, level: string, driver: Driver)
      ensures this.fails == fails && this.respond == respond
      ensures this.level == level && this.driver == driver && clock == 0 && log == []
    {
      this.fails, this.respond := fails, respond;
      this.level, this.driver, clock, log := level, driver, 0, [];
    }

    // ---- Single sysfs operations -------------------------------------------

    /** Locate the device again; the node may have gone. */
    method Resolve() returns (r: Result<()>)
      modifies `clock
      ensures clock == old(clock) + 1
      ensures r == if fails(old(clock)) then Err(FeatureUnsupported) else Ok(())
    {
      r := if fails(clock) then Err(FeatureUnsupported) else Ok(());
      clock := clock + 1;
    }

    method ReadLevel() returns (r: Result<string>)
      modifies `clock
      ensures clock == old(clock) + 1
      ensures r == if fails(old(clock)) then Err(BackendFailure) else Ok(Trim(level))
    {
      r := if fails(clock) then Err(BackendFailure) else Ok(Trim(level));
      clock := clock + 1;
    }

    method ReadTable() returns (r: Result<string>)
      modifies `clock
      ensures clock == old(clock) + 1
      ensures r == if fails(old(clock)) then Err(BackendFailure) else Ok(driver.Seen())
    {
      r := if fails(clock) then Err(BackendFailure) else Ok(driver.Seen());
      clock := clock + 1;
    }

    method WriteLevel(value: string) returns (r: Result<()>)
      modifies `clock, `level, `log
      ensures clock == old(clock) + 1
      ensures if fails(old(clock)) then r.Err? && level == old(level) && log == old(log)
              else r.Ok? && level == value && log == old(log) + [Level(value)]
    {
      if fails(clock) {
        r := Err(BackendFailure);
      } else {
        level, log, r := value, log + [Level(value)], Ok(());
      }
      clock := clock + 1;
    }

    method WriteCommand(value: string) returns (r: Result<()>)
      modifies `clock, `driver, `log
      ensures clock == old(clock) + 1
      ensures if fails(old(clock)) then r.Err? && driver == old(driver) && log == old(log)
              else r.Ok? && driver == respond(old(driver), value) && log == old(log) + [Command(value)]
    {
      if fails(clock) {
        r := Err(BackendFailure);
      } else {
        driver, log, r := respond(driver, value), log + [Command(value)], Ok(());
      }
      clock := clock + 1;
    }

    // ---- The protocol --------------------------------------------------------

    method Constraints() returns (r: Result<GpuConstraints>)
      modifies `clock
      ensures clock > old(clock)
      ensures r.Ok? ==> r == Bounds(driver.Seen())
      ensures NeverFails(old(clock)) ==> r == Bounds(driver.Seen())
    {
      var raw :- ReadTable();
      r := ReadBounds(raw);
    }

    method CommittedRange() returns (r: Result<GpuRange>)
      modifies `clock
      ensures clock > old(clock)
      ensures r.Ok? ==> r == Committed(driver.Seen())
      ensures NeverFails(old(clock)) ==> r == Committed(driver.Seen())
    {
      var raw :- ReadTable();
      r := ReadCommitted(raw);
    }

    /** No operation fails from the k-th on. */
    ghost predicate NeverFails(k: nat) {
      forall i: nat :: k <= i ==> !fails(i)
    }

    /** Back to firmware control: reset the table first, then hand the level back. */
    method ResetToAuto() returns (r: Result<()>)
      modifies this
      ensures clock > old(clock)
      ensures r.Ok? ==> level == "auto" && log == old(log) + [Command("r"), Level("auto")]
      ensures r.Err? ==> fails(clock - 1)
      ensures r.Err? ==> level == old(level)
      ensures NeverFails(old(clock)) ==> r.Ok?
    {
      var _ :- Resolve();
      var _ :- WriteCommand(RESET);
      var _ :- WriteLevel(AUTO);
      r := Ok(());
    }

    /** Stage both ends, then commit, stopping at the first failure. */
    method Commit(range: GpuRange) returns (r: Result<()>)
      modifies `clock, `driver, `log
      ensures clock > old(clock)
      ensures r.Ok? ==>
                driver == respond(respond(respond(old(driver), StageFloor(range.minMhz)), StageCeiling(range.maxMhz)),
                                  COMMIT)
      ensures old(log) <= log && log[|old(log)|..] <= CommitPlan(range)
      ensures r.Ok? <==> log == old(log) + CommitPlan(range)
      ensures r.Err? ==> fails(clock - 1)
      ensures NeverFails(old(clock)) ==> r.Ok?
    {
      hide StageFloor, StageCeiling;
      ghost var start := |log|;
      assert log[start..] == [];
      var _ :- WriteCommand(StageFloor(range.minMhz));
      assert log[start..] == [CommitPlan(range)[0]];
      var _ :- WriteCommand(StageCeiling(range.maxMhz));
      assert log[start..] == [CommitPlan(range)[0], CommitPlan(range)[1]];
      var _ :- WriteCommand(COMMIT);
      r := Ok(());
    }

    /** Everything between validation and read-back. */
    method WriteRange(range: GpuRange) returns (r: Result<()>)
      modifies this
      ensures clock > old(clock)
      ensures r.Ok? ==> Trim(level) == "manual" && Committed(driver.Seen()) == Ok(range)
      ensures r.Ok? ==>
                log == old(log) + (if Trim(old(level)) == MANUAL then [] else [Level(MANUAL)])
                     + CommitPlan(range)
      ensures NeverFails(old(clock)) ==> forall bounds, p :: Behaves(respond, old(driver), bounds, p) ==>
                r.Ok? && driver == Driver(range, Table(range, bounds, p))
    {
      hide Behaves, Table, Committed, StageFloor, StageCeiling, Trim;
      ghost var before := driver;
      ManualIsTrimmed();
      var now :- ReadLevel();
      if now != MANUAL {
        var _ :- WriteLevel(MANUAL);
      }
      var _ :- Commit(range);
      forall bounds, p | Behaves(respond, before, bounds, p)
        ensures driver == Driver(range, Table(range, bounds, p)) && Committed(driver.Seen()) == Ok(range)
      {
        HonestCommit(respond, before, range, bounds, p);
      }
      var committed :- CommittedRange();
      if committed != range {
        return Err(BackendFailure);
      }
      r := Ok(());
    }

    /** Validate against the live bounds, write, and on any later failure hand the device back to the firmware. */
    method SetRange(range: GpuRange) returns (r: Result<()>, ghost cleanup: Cleanup)
      modifies this
      ensures clock > old(clock)
      ensures r.Ok? ==> cleanup.NotNeeded? && Trim(level) == "manual" && Committed(driver.Seen()) == Ok(range)
      ensures r.Ok? ==>
                log == old(log) + (if Trim(old(level)) == MANUAL then [] else [Level(MANUAL)])
                     + CommitPlan(range)
      ensures r.Ok? ==> Bounds(old(driver).Seen()).Ok? && ValidGpuRange(range, Bounds(old(driver).Seen()).value)
      ensures r.Err? && cleanup.NotNeeded? ==> log == old(log) && level == old(level) && driver == old(driver)
      ensures Bounds(old(driver).Seen()).Err? || !ValidGpuRange(range, Bounds(old(driver).Seen()).value) ==>
                r.Err? && cleanup.NotNeeded?
      ensures cleanup.Cleaned? ==> r.Err? && level == "auto"
      ensures cleanup.CleanupFailed? ==> r.Err? && fails(clock - 1)
      ensures NeverFails(old(clock)) ==> !cleanup.CleanupFailed?
      ensures NeverFails(old(clock)) ==> forall bounds, p :: Behaves(respond, old(driver), bounds, p) ==>
                if ValidGpuRange(range, bounds) then r.Ok? && driver == Driver(range, Table(range, bounds, p))
                else r == Err(InvariantViolation)
    {
      hide Table, Committed, Bounds;
      ghost var before := driver;
      cleanup := NotNeeded;
      forall bounds, p | Behaves(respond, before, bounds, p)
        ensures Bounds(before.Seen()) == Ok(bounds)
      {
        PrintedBounds(before, bounds, p);
      }
      hide Behaves;
      var base := Resolve();
      if base.Err? {
        return base, NotNeeded;
      }
      var bounds := Constraints();
      if bounds.Err? {
        return Err(bounds.error), NotNeeded;
      }
      if !ValidGpuRange(range, bounds.value) {
        return Err(InvariantViolation), NotNeeded;
      }
      r := WriteRange(range);
      if r.Err? {
        var cleaned := ResetToAuto();
        cleanup := if cleaned.Ok? then Cleaned else CleanupFailed;
      }
    }

    /** What the daemon reports: nothing under firmware control, else the committed range. */
    method ActiveRange() returns (r: Result<Option<GpuRange>>)
      modifies `clock
      ensures r.Ok? ==> (r.value.None? <==> Trim(level) == "auto")
      ensures r.Ok? && r.value.Some? ==> Committed(driver.Seen()) == Ok(r.value.value)
      ensures NeverFails(old(clock)) && Trim(level) != AUTO && Committed(driver.Seen()).Ok? ==> r.Ok?
    {
      var _ :- Resolve();
      var now :- ReadLevel();
      if now == AUTO {
        return Ok(None);
      }
      var committed :- CommittedRange();
      r := Ok(Some(committed));
    }

    /** Round trip on a healthy device: a valid range that is set is the range that is reported. */
    method SetThenReport(range: GpuRange, ghost bounds: GpuConstraints, ghost p: Padding)
      returns (r: Result<()>, reported: Result<Option<GpuRange>>)
      requires NeverFails(clock) && Behaves(respond, driver, bounds, p)
      modifies this
      ensures r.Ok? <==> ValidGpuRange(range, bounds)
      ensures r.Ok? ==> reported == Ok(Some(range))
    {
      hide Behaves, Committed, Table;
      ghost var cleanup;
      r, cleanup := SetRange(range);
      reported := ActiveRange();
    }
  }

  ghost predicate Behaves(respond: (Driver, string) -> Driver, d: Driver, bounds: GpuConstraints, p: Padding) {
    Honest(respond, bounds, p) && Prints(d.table, bounds, p)
  }

  lemma ManualIsTrimmed()
    ensures Trim(MANUAL) == MANUAL
  {
  }

  lemma PrintedBounds(d: Driver, bounds: GpuConstraints, p: Padding)
    requires Prints(d.table, bounds, p)
    ensures Bounds(d.Seen()) == Ok(bounds)
  {
    hide Bounds, Table, Trim;
    var committed :| d.table == Table(committed, bounds, p);
    TableRoundTrip(committed, bounds, p);
  }

  /** Staging both ends and committing leaves an honest driver with exactly the requested range. */
  lemma HonestCommit(respond: (Driver, string) -> Driver, d: Driver, range: GpuRange, bounds: GpuConstraints,
                     p: Padding)
    requires Behaves(respond, d, bounds, p)
    ensures var r := respond(respond(respond(d, StageFloor(range.minMhz)), StageCeiling(range.maxMhz)), COMMIT);
            r == Driver(range, Table(range, bounds, p)) && Committed(r.Seen()) == Ok(range)
  {
    assert StageFloor(range.minMhz) == "s 0 " + Dec(range.minMhz);
    assert StageCeiling(range.maxMhz) == "s 1 " + Dec(range.maxMhz);
    hide Table, Committed, Prints, StageFloor, StageCeiling, Trim;
    var d1 := respond(d, StageFloor(range.minMhz));
    var d2 := respond(d1, StageCeiling(range.maxMhz));
    assert d1.table == d.table && d2.table == d.table && d2.staged == range;
    TableRoundTrip(range, bounds, p);
  }
}
