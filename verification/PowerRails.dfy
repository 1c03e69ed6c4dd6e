/** The power rails on the kernel's side: whole watts in text files, one settle retry on the boost rails. */
module PowerRails {
  import opened Units
  import opened Domain
  import opened Envelope
  import opened Text
  import opened Sysfs
  import Config
  import Hardware
  import Presets
  import Reducer

  const SPL := "ppt_pl1_spl"
  const SPPT := "ppt_pl2_sppt"
  const FPPT := "ppt_pl3_fppt"

  const CURRENT := "current_value"
  const MINIMUM := "min_value"
  const MAXIMUM := "max_value"

  const DEFAULT_SPPT_MIN: Milliwatts := 13_000
  const DEFAULT_SPPT_MAX: Milliwatts := 43_000
  const DEFAULT_FPPT_MIN: Milliwatts := 19_000
  const DEFAULT_FPPT_MAX: Milliwatts := 53_000

  function Path(attribute: string, suffix: string): string {
    "/sys/class/firmware-attributes/asus-armoury/attributes/" + attribute + "/" + suffix
  }

  // ---- Truncation to whole watts -------------------------------------------

  function Floored(mw: Milliwatts): Milliwatts {
    AsWatts(mw) * MILLIWATTS_PER_WATT
  }

  /** What a fully written target reads back as; a target without an FPPT leaves that register at `fppt`. */
  function ReadBack(t: PowerTarget, fppt: Milliwatts): PowerTarget {
    PowerTarget(Floored(t.spl), Floored(t.sppt), Some(if t.fppt.Some? then Floored(t.fppt.value) else fppt))
  }

  predicate Whole(mw: Milliwatts) {
    mw % MILLIWATTS_PER_WATT == 0
  }

  predicate WholeWatts(l: PowerLimits) {
    && Whole(l.splMin) && Whole(l.splMax) && Whole(l.spptMin) && Whole(l.spptMax) && Whole(l.fpptMin)
    && Whole(l.fpptMax)
  }

  /** The minima that truncation cannot undercut: each is a whole watt, or some rail below it already reaches it. */
  predicate SafeMinima(l: PowerLimits) {
    && Whole(l.splMin)
    && (l.spptMin <= l.splMin || Whole(l.spptMin))
    && (l.fpptMin <= MaxOf(l.splMin, l.spptMin) || Whole(l.fpptMin))
  }

  lemma FloorLoses(mw: Milliwatts)
    ensures 0 <= mw - Floored(mw) < MILLIWATTS_PER_WATT
    ensures forall low: Milliwatts :: low <= mw && Whole(low) ==> low <= Floored(mw)
  {
  }

  lemma FloorKeepsOrder(a: Milliwatts, b: Milliwatts)
    requires a <= b
    ensures Floored(a) <= Floored(b)
  {
  }

  /** With such minima any accepted envelope reads back as an accepted one, each written rail less than a watt lower.
      An FPPT that was not written must still fit above the new SPPT. */
  lemma TruncationIsSafe(t: PowerTarget, fppt: Milliwatts, l: PowerLimits)
    requires SafeMinima(l) && Validate(t, l).Ok?
    ensures Validate(ReadBack(t, fppt), l).Ok? <==>
            (t.fppt.None? ==> Floored(t.sppt) <= fppt && l.fpptMin <= fppt <= l.fpptMax)
    ensures var r := ReadBack(t, fppt);
            && 0 <= t.spl - r.spl < MILLIWATTS_PER_WATT
            && 0 <= t.sppt - r.sppt < MILLIWATTS_PER_WATT
            && (t.fppt.Some? ==> 0 <= t.fppt.value - r.fppt.value < MILLIWATTS_PER_WATT)
  {
    hide Floored;
    FloorLoses(t.spl);
    FloorLoses(t.sppt);
    FloorKeepsOrder(t.spl, t.sppt);
    if t.fppt.Some? {
      FloorLoses(t.fppt.value);
      FloorKeepsOrder(t.sppt, t.fppt.value);
    }
  }

  /** The lowest envelope the limits accept. */
  function LeastEnvelope(l: PowerLimits): PowerTarget {
    var sppt := MaxOf(l.splMin, l.spptMin);
    PowerTarget(l.splMin, sppt, Some(MaxOf(sppt, l.fpptMin)))
  }

  /** With any other minima the lowest accepted envelope already reads back below one of them. */
  lemma FractionalFloorBreaks(fppt: Milliwatts, l: PowerLimits)
    requires Presets.OrderedRails(l) && Presets.NestedMaxima(l) && !SafeMinima(l)
    ensures Validate(LeastEnvelope(l), l).Ok? && Validate(ReadBack(LeastEnvelope(l), fppt), l).Err?
  {
  }

  /** Exactly when truncation is safe: every accepted three-rail envelope reads back accepted if and only if the minima
      cannot be undercut. */
  lemma TruncationSafeIff(fppt: Milliwatts, l: PowerLimits)
    requires Presets.OrderedRails(l) && Presets.NestedMaxima(l)
    ensures (forall t: PowerTarget :: t.fppt.Some? && Validate(t, l).Ok? ==> Validate(ReadBack(t, fppt), l).Ok?) <==>
              SafeMinima(l)
  {
    if SafeMinima(l) {
      forall t: PowerTarget | t.fppt.Some? && Validate(t, l).Ok?
        ensures Validate(ReadBack(t, fppt), l).Ok?
      {
        TruncationIsSafe(t, fppt, l);
      }
    } else {
      FractionalFloorBreaks(fppt, l);
    }
  }

  // ---- Reading -----------------------------------------------------------

  /** The rail a file holds. */
  function Rail(raw: string): Result<Milliwatts> {
    var watts := ParseUnsigned(raw, U32_MAX);
    if watts.None? then Err(BackendFailure) else FromWatts(watts.value)
  }

  function RailAt(store: Store, attribute: string, suffix: string): Result<Milliwatts> {
    if Path(attribute, suffix) in store then Rail(Trim(store[Path(attribute, suffix)])) else Err(BackendFailure)
  }

  function OrElse(r: Result<Milliwatts>, fallback: Milliwatts): Milliwatts {
    if r.Ok? then r.value else fallback
  }

  function LimitsAt(store: Store): Result<PowerLimits> {
    var splMin :- RailAt(store, SPL, MINIMUM);
    var splMax :- RailAt(store, SPL, MAXIMUM);
    Ok(PowerLimits(splMin, splMax,
                   OrElse(RailAt(store, SPPT, MINIMUM), DEFAULT_SPPT_MIN),
                   OrElse(RailAt(store, SPPT, MAXIMUM), DEFAULT_SPPT_MAX),
                   OrElse(RailAt(store, FPPT, MINIMUM), DEFAULT_FPPT_MIN),
                   OrElse(RailAt(store, FPPT, MAXIMUM), DEFAULT_FPPT_MAX)))
  }

  function TargetAt(store: Store): Result<PowerTarget> {
    var spl :- RailAt(store, SPL, CURRENT);
    var sppt :- RailAt(store, SPPT, CURRENT);
    var fppt :- RailAt(store, FPPT, CURRENT);
    Ok(PowerTarget(spl, sppt, Some(fppt)))
  }

  /** Every limit a healthy kernel advertises, fallbacks included, is a whole number of watts. */
  lemma AdvertisedLimitsAreWhole(store: Store)
    requires LimitsAt(store).Ok?
    ensures WholeWatts(LimitsAt(store).value)
  {
    RailIsWhole(store, SPL, MINIMUM);
    RailIsWhole(store, SPL, MAXIMUM);
    RailIsWhole(store, SPPT, MINIMUM);
    RailIsWhole(store, SPPT, MAXIMUM);
    RailIsWhole(store, FPPT, MINIMUM);
    RailIsWhole(store, FPPT, MAXIMUM);
  }

  lemma RailIsWhole(store: Store, attribute: string, suffix: string)
    ensures RailAt(store, attribute, suffix).Ok? ==> Whole(RailAt(store, attribute, suffix).value)
  {
  }

  /** So on this hardware no preset is ever rejected, as long as the advertised rails are ordered and nested. */
  lemma AdvertisedPresetsAccepted(store: Store, s: ProfileState, preset: TdpPreset, config: RuntimeConfig)
    requires LimitsAt(store).Ok? && Config.Sane(config)
    requires Presets.OrderedRails(LimitsAt(store).value) && Presets.NestedMaxima(LimitsAt(store).value)
    ensures Reducer.ReduceSetPreset(s, preset, LimitsAt(store).value, config).Ok?
  {
    AdvertisedLimitsAreWhole(store);
    Presets.PresetsAccepted(s, preset, LimitsAt(store).value, config);
  }

  method ReadWatts(files: Files, attribute: string, suffix: string) returns (r: Result<Milliwatts>)
    modifies files`clock
    ensures files.clock == old(files.clock) + 1
    ensures r == if files.fails(old(files.clock)) then Err(BackendFailure)
              else RailAt(files.contents, attribute, suffix)
  {
    var raw :- files.Read(Path(attribute, suffix));
    r := Rail(raw);
  }

  method GetTarget(files: Files) returns (r: Result<PowerTarget>)
    modifies files`clock
    ensures r.Ok? ==> r == TargetAt(files.contents)
    ensures files.NeverFails(old(files.clock)) ==> r == TargetAt(files.contents)
  {
    var spl :- ReadWatts(files, SPL, CURRENT);
    var sppt :- ReadWatts(files, SPPT, CURRENT);
    var fppt :- ReadWatts(files, FPPT, CURRENT);
    r := Ok(PowerTarget(spl, sppt, Some(fppt)));
  }

  /** The value is the file's or the default. */
  predicate ReadOrDefault(store: Store, attribute: string, suffix: string, default: Milliwatts, found: Milliwatts) {
    RailAt(store, attribute, suffix) == Ok(found) || found == default
  }

  /** A readable file decides its limit; only an unreadable one leaves it to the default. */
  lemma ReadableDecides(store: Store)
    requires LimitsAt(store).Ok?
    ensures var l := LimitsAt(store).value;
            && (forall v :: RailAt(store, SPPT, MINIMUM) == Ok(v) ==> l.spptMin == v)
            && (forall v :: RailAt(store, SPPT, MAXIMUM) == Ok(v) ==> l.spptMax == v)
            && (forall v :: RailAt(store, FPPT, MINIMUM) == Ok(v) ==> l.fpptMin == v)
            && (forall v :: RailAt(store, FPPT, MAXIMUM) == Ok(v) ==> l.fpptMax == v)
            && (RailAt(store, SPPT, MINIMUM).Err? ==> l.spptMin == 13_000)
            && (RailAt(store, SPPT, MAXIMUM).Err? ==> l.spptMax == 43_000)
            && (RailAt(store, FPPT, MINIMUM).Err? ==> l.fpptMin == 19_000)
            && (RailAt(store, FPPT, MAXIMUM).Err? ==> l.fpptMax == 53_000)
  {
    hide RailAt;
  }

  /** A boost limit, or its documented default when it cannot be read. */
  method ReadBoost(files: Files, attribute: string, suffix: string, default: Milliwatts) returns (mw: Milliwatts)
    modifies files`clock
    ensures files.clock == old(files.clock) + 1
    ensures ReadOrDefault(files.contents, attribute, suffix, default, mw)
    ensures files.NeverFails(old(files.clock)) ==> mw == OrElse(RailAt(files.contents, attribute, suffix), default)
    ensures default % MILLIWATTS_PER_WATT == 0 ==> Whole(mw)
  {
    RailIsWhole(files.contents, attribute, suffix);
    var found := ReadWatts(files, attribute, suffix);
    mw := OrElse(found, default);
  }

  method GetLimits(files: Files) returns (r: Result<PowerLimits>)
    modifies files`clock
    ensures files.NeverFails(old(files.clock)) ==> r == LimitsAt(files.contents)
    ensures r.Ok? ==>
              && RailAt(files.contents, SPL, MINIMUM) == Ok(r.value.splMin)
              && RailAt(files.contents, SPL, MAXIMUM) == Ok(r.value.splMax)
              && ReadOrDefault(files.contents, SPPT, MINIMUM, DEFAULT_SPPT_MIN, r.value.spptMin)
              && ReadOrDefault(files.contents, SPPT, MAXIMUM, DEFAULT_SPPT_MAX, r.value.spptMax)
              && ReadOrDefault(files.contents, FPPT, MINIMUM, DEFAULT_FPPT_MIN, r.value.fpptMin)
              && ReadOrDefault(files.contents, FPPT, MAXIMUM, DEFAULT_FPPT_MAX, r.value.fpptMax)
    ensures r.Ok? ==> WholeWatts(r.value)
  {
    hide RailAt, ReadOrDefault, Whole;
    RailIsWhole(files.contents, SPL, MINIMUM);
    RailIsWhole(files.contents, SPL, MAXIMUM);
    var splMin :- ReadWatts(files, SPL, MINIMUM);
    var splMax :- ReadWatts(files, SPL, MAXIMUM);
    var spptMin := ReadBoost(files, SPPT, MINIMUM, DEFAULT_SPPT_MIN);
    var spptMax := ReadBoost(files, SPPT, MAXIMUM, DEFAULT_SPPT_MAX);
    var fpptMin := ReadBoost(files, FPPT, MINIMUM, DEFAULT_FPPT_MIN);
    var fpptMax := ReadBoost(files, FPPT, MAXIMUM, DEFAULT_FPPT_MAX);
    r := Ok(PowerLimits(splMin, splMax, spptMin, spptMax, fpptMin, fpptMax));
  }

  // ---- Writing -------------------------------------------------------------

  function RailWrite(attribute: string, mw: Milliwatts): Entry {
    Entry(Path(attribute, CURRENT), Dec(AsWatts(mw)))
  }

  /** The writes a target asks for, in order. */
  function Plan(t: PowerTarget): seq<Entry> {
    [RailWrite(SPL, t.spl), RailWrite(SPPT, t.sppt)] + (if t.fppt.Some? then [RailWrite(FPPT, t.fppt.value)] else [])
  }

  predicate Complete(store: Store) {
    Path(SPL, CURRENT) in store && Path(SPPT, CURRENT) in store && Path(FPPT, CURRENT) in store
  }

  method WriteWatts(files: Files, attribute: string, mw: Milliwatts) returns (r: Result<()>)
    modifies files
    ensures files.clock == old(files.clock) + 1
    ensures r.Ok? <==> !files.fails(old(files.clock)) && Path(attribute, CURRENT) in old(files.contents)
    ensures files.log == old(files.log) + (if r.Ok? then [RailWrite(attribute, mw)] else [])
    ensures files.contents.Keys == old(files.contents).Keys
    ensures r.Err? ==> files.contents == old(files.contents)
    ensures r.Ok? && files.Faithful() ==>
              files.contents == old(files.contents)[Path(attribute, CURRENT) := Dec(AsWatts(mw))]
  {
    r := files.Write(Path(attribute, CURRENT), Dec(AsWatts(mw)));
  }

  /** One retry: the write fails only if two attempts in a row do. */
  method WriteWithRetry(files: Files, attribute: string, mw: Milliwatts) returns (r: Result<()>)
    modifies files
    ensures old(files.clock) < files.clock <= old(files.clock) + 2
    ensures r.Ok? <==> !(files.fails(old(files.clock)) && files.fails(old(files.clock) + 1))
                       && Path(attribute, CURRENT) in old(files.contents)
    ensures r.Err? ==> files.clock == old(files.clock) + 2
    ensures files.log == old(files.log) + (if r.Ok? then [RailWrite(attribute, mw)] else [])
    ensures files.contents.Keys == old(files.contents).Keys
    ensures r.Err? ==> files.contents == old(files.contents)
    ensures r.Ok? && files.Faithful() ==>
              files.contents == old(files.contents)[Path(attribute, CURRENT) := Dec(AsWatts(mw))]
  {
    r := WriteWatts(files, attribute, mw);
    if r.Err? {
      r := WriteWatts(files, attribute, mw);
    }
  }

  /** The rails in order, stopping at the first error: what landed is a prefix of the plan, the whole plan exactly
      on success. Isolated failures after the first write are ridden out. */
  method SetTarget(files: Files, t: PowerTarget) returns (r: Result<()>)
    modifies files
    ensures old(files.log) <= files.log && files.log[|old(files.log)|..] <= Plan(t)
    ensures r.Ok? <==> files.log == old(files.log) + Plan(t)
    ensures Complete(old(files.contents)) && files.Settles(old(files.clock)) ==> r.Ok?
    ensures r.Ok? && files.Faithful() ==> files.contents == Replay(old(files.contents), Plan(t))
  {
    hide Path, Dec, AsWatts;
    ghost var before, log := files.contents, files.log;
    r := WriteWatts(files, SPL, t.spl);
    if r.Err? {
      assert files.log[|log|..] == [];
      return;
    }
    assert files.log[|log|..] == [Plan(t)[0]];
    r := WriteWithRetry(files, SPPT, t.sppt);
    if r.Err? {
      return;
    }
    assert files.log[|log|..] == [Plan(t)[0], Plan(t)[1]];
    if t.fppt.Some? {
      r := WriteWithRetry(files, FPPT, t.fppt.value);
    }
    PlanReplays(before, t);
  }

  lemma PlanReplays(store: Store, t: PowerTarget)
    ensures var two := store[Path(SPL, CURRENT) := Dec(AsWatts(t.spl))][Path(SPPT, CURRENT) := Dec(AsWatts(t.sppt))];
            Replay(store, Plan(t))
            == if t.fppt.Some? then two[Path(FPPT, CURRENT) := Dec(AsWatts(t.fppt.value))] else two
  {
    var pair := [RailWrite(SPL, t.spl), RailWrite(SPPT, t.sppt)];
    ReplayLast(store, [], pair[0]);
    ReplayLast(store, [pair[0]], pair[1]);
    assert [] + [pair[0]] == [pair[0]] && [pair[0]] + [pair[1]] == pair;
    if t.fppt.Some? {
      ReplayLast(store, pair, RailWrite(FPPT, t.fppt.value));
    } else {
      assert Plan(t) == pair;
    }
  }

  lemma PathsDiffer()
    ensures Path(SPL, CURRENT) != Path(SPPT, CURRENT)
    ensures Path(SPL, CURRENT) != Path(FPPT, CURRENT)
    ensures Path(SPPT, CURRENT) != Path(FPPT, CURRENT)
  {
    var root := "/sys/class/firmware-attributes/asus-armoury/attributes/";
    assert Path(SPL, CURRENT)[|root| + 6] == '1';
    assert Path(SPPT, CURRENT)[|root| + 6] == '2';
    assert Path(FPPT, CURRENT)[|root| + 6] == '3';
  }

  lemma WrittenRailReads(store: Store, attribute: string, mw: Milliwatts)
    requires Path(attribute, CURRENT) in store && store[Path(attribute, CURRENT)] == Dec(AsWatts(mw))
    ensures RailAt(store, attribute, CURRENT) == Ok(Floored(mw))
  {
    DecIsTrimmed(AsWatts(mw));
    ParseDec(AsWatts(mw), U32_MAX);
  }

  /** Round trip through the files: after a faithful, complete write the kernel reports the target's whole watts. */
  lemma SetThenGet(store: Store, t: PowerTarget)
    requires Complete(store)
    ensures var after := Replay(store, Plan(t));
            if t.fppt.Some? then TargetAt(after) == Ok(ReadBack(t, 0))
            else RailAt(store, FPPT, CURRENT).Ok? ==>
                   TargetAt(after) == Ok(ReadBack(t, RailAt(store, FPPT, CURRENT).value))
  {
    hide Path, Dec, Rail, Floored, AsWatts;
    PlanReplays(store, t);
    PathsDiffer();
    var after := Replay(store, Plan(t));
    WrittenRailReads(after, SPL, t.spl);
    WrittenRailReads(after, SPPT, t.sppt);
    if t.fppt.Some? {
      WrittenRailReads(after, FPPT, t.fppt.value);
    }
  }

  // ---- The backend behind the executor -----------------------------------------

  /** The three current values are those of the registers. */
  predicate Shows(store: Store, regs: Hardware.Registers) {
    && Complete(store)
    && store[Path(SPL, CURRENT)] == Dec(regs.spl) && store[Path(SPPT, CURRENT)] == Dec(regs.sppt)
    && store[Path(FPPT, CURRENT)] == Dec(regs.fppt)
  }

  /** Files and registers move together: what a faithful, complete write leaves in the files is what the executor's
      model of the hardware has in its registers, and what it reads back is what the files say. */
  lemma FilesAreRegisters(store: Store, regs: Hardware.Registers, t: PowerTarget)
    requires Shows(store, regs)
    ensures Shows(Replay(store, Plan(t)), Hardware.Write(regs, t))
    ensures Hardware.ReadTarget(regs).Ok? <==> TargetAt(store).Ok?
    ensures TargetAt(store).Ok? ==> TargetAt(store) == Hardware.ReadTarget(regs)
  {
    PlanReplays(store, t);
    PathsDiffer();
    DecReadsBack(regs.spl);
    DecReadsBack(regs.sppt);
    DecReadsBack(regs.fppt);
    hide Path, Dec, Trim, ParseUnsigned, AsWatts, FromWatts;
  }

  lemma DecReadsBack(watts: U32)
    ensures Rail(Trim(Dec(watts))) == FromWatts(watts)
  {
    DecIsTrimmed(watts);
    ParseDec(watts, U32_MAX);
  }
}
