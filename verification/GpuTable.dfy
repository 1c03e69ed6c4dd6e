/** The OverDrive clock table as text: what the driver prints, and the two scans that read it. */
module GpuTable {
  import opened Units
  import opened Domain
  import opened Text

  const SCLK := "SCLK:"
  const OD_RANGE := "OD_RANGE"
  const FLOOR_ENTRY := "0:"
  const CEILING_ENTRY := "1:"

  /** The number in front of a token such as `600Mhz`. */
  function MhzValue(token: string): Option<U32> {
    var digits := LeadingDigits(token);
    if digits == "" then None
    else
      var n := ParseUnsigned(digits, U32_MAX);
      if n.Some? then Some(n.value) else None
  }

  function MhzValues(tokens: seq<string>): seq<U32> {
    if tokens == [] then []
    else
      var v := MhzValue(tokens[0]);
      (if v.Some? then [v.value] else []) + MhzValues(tokens[1..])
  }

  function Rest(line: string, prefix: string): string
    requires StartsWith(line, prefix)
  {
    line[|prefix|..]
  }

  // ---- The two scans -------------------------------------------------------

  /** The bounds on one line: an `SCLK:` line with exactly two clocks. */
  function BoundsOn(line: string): Option<GpuConstraints> {
    if !StartsWith(line, SCLK) then None
    else
      var clocks := MhzValues(Tokens(Rest(line, SCLK)));
      if |clocks| == 2 then Some(GpuConstraints(clocks[0], clocks[1])) else None
  }

  function FirstBounds(lines: seq<string>): Option<GpuConstraints> {
    if lines == [] then None
    else if BoundsOn(Trim(lines[0])).Some? then BoundsOn(Trim(lines[0]))
    else FirstBounds(lines[1..])
  }

  function FirstClock(rest: string): Option<U32> {
    var tokens := Tokens(rest);
    if tokens == [] then None else MhzValue(tokens[0])
  }

  /** The committed floor and ceiling: the last `0:` and `1:` entries before `OD_RANGE`. */
  function CommittedPair(lines: seq<string>, floor: Option<U32>, ceiling: Option<U32>): (Option<U32>, Option<U32>)
    decreases |lines|
  {
    if lines == [] || StartsWith(Trim(lines[0]), OD_RANGE) then (floor, ceiling)
    else
      var line := Trim(lines[0]);
      if StartsWith(line, FLOOR_ENTRY) then CommittedPair(lines[1..], FirstClock(Rest(line, FLOOR_ENTRY)), ceiling)
      else if StartsWith(line, CEILING_ENTRY) then
        CommittedPair(lines[1..], floor, FirstClock(Rest(line, CEILING_ENTRY)))
      else CommittedPair(lines[1..], floor, ceiling)
  }

  function Bounds(raw: string): Result<GpuConstraints> {
    var found := FirstBounds(Lines(raw));
    if found.Some? then Ok(found.value) else Err(BackendFailure)
  }

  function Committed(raw: string): Result<GpuRange> {
    var (floor, ceiling) := CommittedPair(Lines(raw), None, None);
    if floor.Some? && ceiling.Some? then Ok(GpuRange(floor.value, ceiling.value)) else Err(BackendFailure)
  }

  /** The bounds scan as it runs: line by line, returning at the first match. */
  method ReadBounds(raw: string) returns (r: Result<GpuConstraints>)
    ensures r == Bounds(raw)
  {
    var lines := Lines(raw);
    for i := 0 to |lines|
      invariant FirstBounds(lines) == FirstBounds(lines[i..])
    {
      assert lines[i..][0] == lines[i] && lines[i..][1..] == lines[i + 1..];
      var line := Trim(lines[i]);
      if StartsWith(line, SCLK) {
        var clocks := MhzValues(Tokens(Rest(line, SCLK)));
        if |clocks| == 2 {
          return Ok(GpuConstraints(clocks[0], clocks[1]));
        }
      }
    }
    r := Err(BackendFailure);
  }

  /** The committed-range scan as it runs: two running values, stopping at `OD_RANGE`. */
  method ReadCommitted(raw: string) returns (r: Result<GpuRange>)
    ensures r == Committed(raw)
  {
    var lines := Lines(raw);
    var floor: Option<U32>, ceiling: Option<U32> := None, None;
    var i := 0;
    while i < |lines| && !StartsWith(Trim(lines[i]), OD_RANGE)
      invariant 0 <= i <= |lines|
      invariant CommittedPair(lines, None, None) == CommittedPair(lines[i..], floor, ceiling)
    {
      assert lines[i..][0] == lines[i] && lines[i..][1..] == lines[i + 1..];
      var line := Trim(lines[i]);
      if StartsWith(line, FLOOR_ENTRY) {
        floor := FirstClock(Rest(line, FLOOR_ENTRY));
      } else if StartsWith(line, CEILING_ENTRY) {
        ceiling := FirstClock(Rest(line, CEILING_ENTRY));
      }
      i := i + 1;
    }
    r := if floor.Some? && ceiling.Some? then Ok(GpuRange(floor.value, ceiling.value)) else Err(BackendFailure);
  }

  // ---- What the driver prints ----------------------------------------------

  function Mhz(n: U32): string {
    Dec(n) + "Mhz"
  }

  /** A column: padded on the left, at least one space. */
  function Column(pad: nat, n: U32): string {
    Spaces(pad + 1) + Mhz(n)
  }

  /** How the driver aligns its columns; the scans do not depend on it. */
  datatype Padding = Padding(floor: nat, ceiling: nat, low: nat, high: nat)

  function Visible(committed: GpuRange, bounds: GpuConstraints, p: Padding): string {
    "OD_SCLK:" + "\n"
    + ("0:" + Column(p.floor, committed.minMhz) + "\n"
    + ("1:" + Column(p.ceiling, committed.maxMhz) + "\n"
    + ("OD_RANGE:" + "\n"
    + ("SCLK:" + Column(p.low, bounds.rangeMin) + Column(p.high, bounds.rangeMax)))))
  }

  function Table(committed: GpuRange, bounds: GpuConstraints, p: Padding): string {
    Visible(committed, bounds, p) + "\n"
  }

  lemma MhzToken(n: U32)
    ensures MhzValue(Mhz(n)) == Some(n)
    ensures NoSpace(Mhz(n)) && Mhz(n) != "" && '\n' !in Mhz(n)
  {
    hide Dec, ParseUnsigned, LeadingDigits;
    MhzParses(n);
    forall c | c in Mhz(n)
      ensures !IsSpace(c) && c != '\n'
    {
      assert c in Dec(n) || c == 'M' || c == 'h' || c == 'z';
    }
  }

  lemma MhzParses(n: U32)
    ensures MhzValue(Mhz(n)) == Some(n)
  {
    hide Dec, ParseUnsigned, LeadingDigits;
    LeadingDigitsOf(Dec(n), "Mhz");
    ParseDec(n, U32_MAX);
  }

  lemma ColumnTokens(pad: nat, n: U32, rest: string)
    requires rest == "" || IsSpace(rest[0])
    ensures Tokens(Column(pad, n) + rest) == [Mhz(n)] + Tokens(rest)
  {
    hide Tokens, Mhz, Spaces;
    MhzToken(n);
    assert Column(pad, n) + rest == Spaces(pad + 1) + (Mhz(n) + rest);
    SpacesSkip(pad + 1, Mhz(n) + rest);
    TokenFirst(Mhz(n), rest);
  }

  /** A line that starts and ends with something visible is its own trimmed form. */
  lemma EntryLine(prefix: string, middle: string, n: U32)
    requires prefix != "" && !IsSpace(prefix[0]) && '\n' !in prefix && '\n' !in middle
    ensures var line := prefix + middle + Mhz(n); Trim(line) == line && '\n' !in line
  {
  }

  lemma FiveLines(a: string, b: string, c: string, d: string, e: string)
    requires '\n' !in a && '\n' !in b && '\n' !in c && '\n' !in d && '\n' !in e && e != ""
    ensures Lines(a + "\n" + (b + "\n" + (c + "\n" + (d + "\n" + e)))) == [a, b, c, d, e]
  {
    hide Lines;
    LastLine(e);
    LineFirst(d, e);
    LineFirst(c, d + "\n" + e);
    LineFirst(b, c + "\n" + (d + "\n" + e));
    LineFirst(a, b + "\n" + (c + "\n" + (d + "\n" + e)));
  }

  lemma TableLines(committed: GpuRange, bounds: GpuConstraints, p: Padding)
    ensures Lines(Visible(committed, bounds, p))
         == ["OD_SCLK:", "0:" + Column(p.floor, committed.minMhz), "1:" + Column(p.ceiling, committed.maxMhz),
             "OD_RANGE:", "SCLK:" + Column(p.low, bounds.rangeMin) + Column(p.high, bounds.rangeMax)]
  {
    MhzToken(committed.minMhz);
    MhzToken(committed.maxMhz);
    MhzToken(bounds.rangeMin);
    MhzToken(bounds.rangeMax);
    hide Lines, Mhz, MhzValue;
    FiveLines("OD_SCLK:", "0:" + Column(p.floor, committed.minMhz), "1:" + Column(p.ceiling, committed.maxMhz),
              "OD_RANGE:", "SCLK:" + Column(p.low, bounds.rangeMin) + Column(p.high, bounds.rangeMax));
  }

  lemma TableTrims(committed: GpuRange, bounds: GpuConstraints, p: Padding)
    ensures Trim(Table(committed, bounds, p)) == Visible(committed, bounds, p)
  {
    var s := Visible(committed, bounds, p);
    assert s[|s| - 1] == Mhz(bounds.rangeMax)[|Mhz(bounds.rangeMax)| - 1] == 'z' && s[0] == 'O';
    hide Trim, Visible;
    TrimLine(s);
  }

  lemma EntryClock(prefix: string, pad: nat, n: U32)
    requires prefix != "" && !IsSpace(prefix[0]) && '\n' !in prefix
    ensures var line := prefix + Column(pad, n);
            Trim(line) == line && StartsWith(line, prefix) && FirstClock(Rest(line, prefix)) == Some(n)
  {
    var line := prefix + Column(pad, n);
    EntryLine(prefix, Spaces(pad + 1), n);
    assert prefix + Spaces(pad + 1) + Mhz(n) == line;
    assert Rest(line, prefix) == Column(pad, n) + "";
    ColumnTokens(pad, n, "");
    MhzToken(n);
  }

  lemma Regroup(prefix: string, first: string, spaces: string, clock: string)
    ensures prefix + (first + spaces) + clock == prefix + first + (spaces + clock)
    ensures (prefix + first + (spaces + clock))[|prefix|..] == first + ((spaces + clock) + "")
  {
  }

  lemma BoundsTokens(low: nat, high: nat, bounds: GpuConstraints)
    ensures Tokens(Column(low, bounds.rangeMin) + (Column(high, bounds.rangeMax) + ""))
         == [Mhz(bounds.rangeMin), Mhz(bounds.rangeMax)]
  {
    hide Mhz, Spaces;
    ColumnTokens(high, bounds.rangeMax, "");
    assert Column(high, bounds.rangeMax)[0] == Spaces(high + 1)[0] && Spaces(high + 1)[0] in Spaces(high + 1);
    ColumnTokens(low, bounds.rangeMin, Column(high, bounds.rangeMax) + "");
  }

  lemma BoundsLine(low: nat, high: nat, bounds: GpuConstraints)
    ensures var line := "SCLK:" + Column(low, bounds.rangeMin) + Column(high, bounds.rangeMax);
            Trim(line) == line && BoundsOn(line) == Some(bounds)
  {
    var first := Column(low, bounds.rangeMin);
    ColumnIsOneLine(low, bounds.rangeMin);
    EntryLine("SCLK:", first + Spaces(high + 1), bounds.rangeMax);
    Regroup("SCLK:", first, Spaces(high + 1), Mhz(bounds.rangeMax));
    BoundsTokens(low, high, bounds);
    TwoClocks(bounds.rangeMin, bounds.rangeMax);
    hide Tokens, Mhz, Spaces, MhzValues, Trim;
  }

  lemma ColumnIsOneLine(pad: nat, n: U32)
    ensures '\n' !in Column(pad, n)
  {
  }

  lemma TwoClocks(a: U32, b: U32)
    ensures MhzValues([Mhz(a), Mhz(b)]) == [a, b]
  {
    MhzToken(a);
    MhzToken(b);
    assert [Mhz(a), Mhz(b)][1..] == [Mhz(b)] && [Mhz(b)][1..] == [];
    assert MhzValues([Mhz(b)]) == [b] + MhzValues([]) == [b];
  }

  /** Reading recovers what was printed, for every pair of 32-bit clocks, every pair of bounds and any alignment. */
  lemma TableRoundTrip(committed: GpuRange, bounds: GpuConstraints, p: Padding)
    ensures Bounds(Trim(Table(committed, bounds, p))) == Ok(bounds)
    ensures Committed(Trim(Table(committed, bounds, p))) == Ok(committed)
  {
    hide Table, Visible, BoundsOn, Column, FirstClock, FirstBounds, CommittedPair;
    TableTrims(committed, bounds, p);
    var lines := Lines(Visible(committed, bounds, p));
    TableLines(committed, bounds, p);
    EntryClock("0:", p.floor, committed.minMhz);
    EntryClock("1:", p.ceiling, committed.maxMhz);
    BoundsLine(p.low, p.high, bounds);
    BoundsFound(lines, bounds);
    CommittedFound(lines, committed);
  }

  lemma BoundsFound(lines: seq<string>, bounds: GpuConstraints)
    requires |lines| == 5 && lines[0] == "OD_SCLK:" && lines[3] == "OD_RANGE:"
    requires StartsWith(Trim(lines[1]), "0:") && StartsWith(Trim(lines[2]), "1:")
    requires BoundsOn(Trim(lines[4])) == Some(bounds)
    ensures FirstBounds(lines) == Some(bounds)
  {
    assert Trim("OD_SCLK:")[0] == 'O' && Trim("OD_RANGE:")[0] == 'O' && SCLK[0] == 'S';
    assert lines[1..][0] == lines[1] && lines[1..][1..] == lines[2..];
    assert lines[2..][0] == lines[2] && lines[2..][1..] == lines[3..];
    assert lines[3..][0] == lines[3] && lines[3..][1..] == lines[4..] && lines[4..][0] == lines[4];
    assert FirstBounds(lines[4..]) == Some(bounds);
    assert FirstBounds(lines[3..]) == FirstBounds(lines[4..]);
    assert FirstBounds(lines[2..]) == FirstBounds(lines[3..]);
    assert FirstBounds(lines[1..]) == FirstBounds(lines[2..]);
  }

  lemma CommittedFound(lines: seq<string>, committed: GpuRange)
    requires |lines| == 5 && lines[0] == "OD_SCLK:" && lines[3] == "OD_RANGE:"
    requires StartsWith(Trim(lines[1]), "0:") && FirstClock(Rest(Trim(lines[1]), "0:")) == Some(committed.minMhz)
    requires StartsWith(Trim(lines[2]), "1:") && FirstClock(Rest(Trim(lines[2]), "1:")) == Some(committed.maxMhz)
    ensures CommittedPair(lines, None, None) == (Some(committed.minMhz), Some(committed.maxMhz))
  {
    assert Trim("OD_SCLK:") == "OD_SCLK:" && Trim("OD_RANGE:") == "OD_RANGE:";
    assert OD_RANGE[0] == 'O' && OD_RANGE[3] == 'R' && "OD_SCLK:"[3] == 'S';
    assert lines[1..][0] == lines[1] && lines[1..][1..] == lines[2..];
    assert lines[2..][0] == lines[2] && lines[2..][1..] == lines[3..] && lines[3..][0] == lines[3];
    assert StartsWith("OD_RANGE:", OD_RANGE);
    var f, c := Some(committed.minMhz), Some(committed.maxMhz);
    assert CommittedPair(lines[3..], f, c) == (f, c);
    assert Trim(lines[1])[0] == '0' && Trim(lines[2])[0] == '1';
    assert !StartsWith(Trim(lines[2]), FLOOR_ENTRY) && !StartsWith(Trim(lines[2]), OD_RANGE);
    assert CommittedPair(lines[2..], f, None) == (f, c);
    assert CommittedPair(lines[1..], None, None) == (f, c);
  }
}
