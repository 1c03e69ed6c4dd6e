/** Custom fan curves through the hwmon node: validation at the boundary, the ordered writes, the read-back. */
module FanCurves {
  import opened Units
  import opened Domain
  import opened FanTables
  import opened Text
  import opened Sysfs
  import Hwmon

  const NODE := "asus_custom_fan_curve"
  const ENABLE_CUSTOM := "1"
  const ENABLE_AUTO := "2"
  const CPU_FAN: nat := 1
  const GPU_FAN: nat := 2
  const TEMP := "temp"
  const PWM := "pwm"

  // ---- Validation of user curves -------------------------------------------

  datatype Floor = Floor(tempC: U8, minPwm: U8)

  datatype Constraints = Constraints(tempMin: U8, tempMax: U8, pwmMin: U8, pwmMax: U8, floors: seq<Floor>)

  const RC73XA := Constraints(30, 95, 0, 255, [Floor(85, 150), Floor(90, 200)])

  /** The duty meets every floor whose temperature has been reached. */
  predicate MeetsFloors(tempC: U8, pwm: U8, floors: seq<Floor>) {
    forall f :: f in floors && f.tempC <= tempC ==> f.minPwm <= pwm
  }

  /** A point inside the device's range that meets every safety floor its temperature has reached. */
  predicate SafePoint(p: FanPoint, c: Constraints) {
    && c.tempMin <= p.tempC <= c.tempMax
    && c.pwmMin <= p.pwm <= c.pwmMax
    && MeetsFloors(p.tempC, p.pwm, c.floors)
  }

  /** What a client is promised about an accepted curve. */
  predicate Accepted(curve: FanCurve, c: Constraints) {
    && (forall i, j :: 0 <= i < j < |curve| ==> curve[i].tempC < curve[j].tempC && curve[i].pwm <= curve[j].pwm)
    && (forall i :: 0 <= i < |curve| ==> SafePoint(curve[i], c))
  }

  /** The strictest floor among those reached; none reached is zero. */
  method RequiredPwm(tempC: U8, floors: seq<Floor>) returns (required: Option<U8>)
    ensures required.None? <==> forall f :: f in floors ==> tempC < f.tempC
    ensures forall pwm: U8 :: MeetsFloors(tempC, pwm, floors) <==> required.None? || required.value <= pwm
  {
    required := None;
    for i := 0 to |floors|
      invariant required.None? <==> forall k :: 0 <= k < i ==> tempC < floors[k].tempC
      invariant required.Some? ==>
                  exists k :: 0 <= k < i && floors[k].tempC <= tempC && floors[k].minPwm == required.value
      invariant forall k :: 0 <= k < i && floors[k].tempC <= tempC ==>
                  required.Some? && floors[k].minPwm <= required.value
    {
      var f := floors[i];
      if f.tempC <= tempC && (required.None? || required.value < f.minPwm) {
        required := Some(f.minPwm);
      }
    }
  }

  /** Adjacent pairs first, then each point: enough for the ordering of any two points. */
  method ValidateAgainst(curve: FanCurve, c: Constraints) returns (r: Result<()>)
    ensures r == if Accepted(curve, c) then Ok(()) else Err(InvariantViolation)
  {
    for i := 1 to |curve|
      invariant forall a, b :: 0 <= a < b < i ==> curve[a].tempC < curve[b].tempC && curve[a].pwm <= curve[b].pwm
    {
      if curve[i].tempC <= curve[i - 1].tempC || curve[i].pwm < curve[i - 1].pwm {
        return Err(InvariantViolation);
      }
    }
    for i := 0 to |curve|
      invariant forall k :: 0 <= k < i ==> SafePoint(curve[k], c)
    {
      var p := curve[i];
      if p.tempC < c.tempMin || p.tempC > c.tempMax || p.pwm < c.pwmMin || p.pwm > c.pwmMax {
        return Err(InvariantViolation);
      }
      var required := RequiredPwm(p.tempC, c.floors);
      if required.Some? && p.pwm < required.value {
        return Err(InvariantViolation);
      }
    }
    r := Ok(());
  }

  /** The calibrated tables would pass the check they are allowed to skip. */
  lemma PresetsAccepted(tier: Tier)
    ensures Accepted(PresetTable(tier), RC73XA)
  {
    var curve := PresetTable(tier);
    forall i, j | 0 <= i < j < |curve|
      ensures curve[i].tempC < curve[j].tempC && curve[i].pwm <= curve[j].pwm
    {
      Ordered(curve, i, j);
    }
  }

  predicate Rises(curve: FanCurve, i: nat)
    requires i + 1 < |curve|
  {
    curve[i].tempC < curve[i + 1].tempC && curve[i].pwm <= curve[i + 1].pwm
  }

  lemma {:induction false} Ordered(curve: FanCurve, i: nat, j: nat)
    requires i < j < |curve|
    requires forall k :: 0 <= k < |curve| - 1 ==> Rises(curve, k)
    ensures curve[i].tempC < curve[j].tempC && curve[i].pwm <= curve[j].pwm
  {
    assert Rises(curve, j - 1);
    if i + 1 < j {
      Ordered(curve, i, j - 1);
    }
  }

  predicate Applicable(s: FanSelection) {
    s.CustomCurve? ==> Accepted(s.cpu, RC73XA) && Accepted(s.gpu, RC73XA)
  }

  method Resolve(s: FanSelection) returns (r: Result<CurvePair>)
    ensures r == if Applicable(s) then Ok(Curves(s)) else Err(InvariantViolation)
  {
    match s
    case PresetCurve(tier) => r := Ok(CurvePair(PresetTable(tier), PresetTable(tier)));
    case CustomCurve(cpu, gpu) =>
      var _ :- ValidateAgainst(cpu, RC73XA);
      var _ :- ValidateAgainst(gpu, RC73XA);
      r := Ok(CurvePair(cpu, gpu));
  }

  // ---- The safety floor at run time ------------------------------------------------

  /** A rising curve asks for no less at a higher temperature. */
  lemma {:induction false} DutyRises(curve: FanCurve, n: nat, low: int, high: int)
    requires n <= FAN_CURVE_POINTS && low <= high
    requires forall i, j :: 0 <= i < j < FAN_CURVE_POINTS ==> curve[i].pwm <= curve[j].pwm
    ensures Duty(curve, n, low) <= Duty(curve, n, high)
    ensures n < FAN_CURVE_POINTS ==> Duty(curve, n, low) <= curve[n].pwm
  {
    if n > 0 {
      DutyRises(curve, n - 1, low, high);
    }
  }

  /** The curve keeps the model's floor at every temperature: from 85 degrees on a duty of 150, from 90 on 200. */
  ghost predicate KeepsFloor(curve: FanCurve) {
    && (forall t: int :: 85 <= t ==> 150 <= Duty(curve, FAN_CURVE_POINTS, t))
    && (forall t: int :: 90 <= t ==> 200 <= Duty(curve, FAN_CURVE_POINTS, t))
  }

  /** The check looks at points, the controller at temperatures: an accepted curve keeps the floor if and only if it has
      reached each floor's duty by that floor's temperature. */
  lemma FloorKeptIff(curve: FanCurve)
    requires Accepted(curve, RC73XA)
    ensures KeepsFloor(curve) <==>
              150 <= Duty(curve, FAN_CURVE_POINTS, 85) && 200 <= Duty(curve, FAN_CURVE_POINTS, 90)
  {
    forall t: int | 85 <= t
      ensures Duty(curve, FAN_CURVE_POINTS, 85) <= Duty(curve, FAN_CURVE_POINTS, t)
    {
      DutyRises(curve, FAN_CURVE_POINTS, 85, t);
    }
    forall t: int | 90 <= t
      ensures Duty(curve, FAN_CURVE_POINTS, 90) <= Duty(curve, FAN_CURVE_POINTS, t)
    {
      DutyRises(curve, FAN_CURVE_POINTS, 90, t);
    }
    hide Duty, Accepted;
  }

  /** A point at 85 or at 90 degrees is enough for its floor; without one the check has nothing to say. */
  lemma FloorPoint(curve: FanCurve, k: nat, f: Floor)
    requires Accepted(curve, RC73XA) && k < FAN_CURVE_POINTS && f in [Floor(85, 150), Floor(90, 200)]
    requires curve[k].tempC == f.tempC
    ensures f.minPwm <= Duty(curve, FAN_CURVE_POINTS, f.tempC)
  {
    assert f in RC73XA.floors;
    HotterPoints(curve, k + 1, FAN_CURVE_POINTS, f.tempC);
  }

  /** Such a curve exists: one that ends below 85 degrees is accepted with the fan off at any temperature. */
  lemma AcceptedWithFanOff() returns (curve: FanCurve)
    ensures Accepted(curve, RC73XA) && Duty(curve, FAN_CURVE_POINTS, 95) == 0 && !KeepsFloor(curve)
  {
    curve := seq(FAN_CURVE_POINTS, k requires 0 <= k < FAN_CURVE_POINTS => FanPoint(30 + k, 0));
    assert Duty(curve, FAN_CURVE_POINTS, 95) == 0;
  }

  // ---- Paths -----------------------------------------------------------------

  function PointPath(base: string, fan: nat, point: nat, kind: string): string {
    base + "/pwm" + (Dec(fan) + ("_auto_point" + (Dec(point) + ("_" + kind))))
  }

  function EnablePath(base: string, fan: nat): string {
    base + "/pwm" + (Dec(fan) + "_enable")
  }

  /** The names the kernel driver gives these files. */
  lemma KernelNames(base: string)
    ensures PointPath(base, CPU_FAN, 1, TEMP) == base + "/pwm1_auto_point1_temp"
    ensures PointPath(base, GPU_FAN, 8, PWM) == base + "/pwm2_auto_point8_pwm"
    ensures EnablePath(base, GPU_FAN) == base + "/pwm2_enable"
    ensures ENABLE_CUSTOM == "1" && ENABLE_AUTO == "2"
  {
    assert Dec(1) == "1" && Dec(2) == "2" && Dec(8) == "8";
    assert base + "/pwm" + ("1" + ("_auto_point" + ("1" + ("_" + TEMP)))) == base + "/pwm1_auto_point1_temp";
    assert base + "/pwm" + ("2" + ("_auto_point" + ("8" + ("_" + PWM)))) == base + "/pwm2_auto_point8_pwm";
    assert base + "/pwm" + ("2" + "_enable") == base + "/pwm2_enable";
  }

  /** A number followed by something that is not a digit can be read off the front. */
  lemma LeadingNumber(m: nat, n: nat, a: string, b: string)
    requires a != "" && !IsDigit(a[0]) && b != "" && !IsDigit(b[0])
    ensures Dec(m) + a == Dec(n) + b <==> m == n && a == b
  {
    LeadingDigitsOf(Dec(m), a);
    LeadingDigitsOf(Dec(n), b);
    if Dec(m) + a == Dec(n) + b {
      DecIsInjective(m, n);
      Suffix(Dec(m), a, b);
    }
  }

  lemma Suffix(prefix: string, a: string, b: string)
    ensures prefix + a == prefix + b <==> a == b
  {
    assert (prefix + a)[|prefix|..] == a && (prefix + b)[|prefix|..] == b;
  }

  /** Every point of every fan has its own file. */
  lemma PointPathInjective(base: string, f: nat, k: nat, kind: string, g: nat, l: nat, other: string)
    ensures PointPath(base, f, k, kind) == PointPath(base, g, l, other) <==> f == g && k == l && kind == other
  {
    var x, y := Dec(k) + ("_" + kind), Dec(l) + ("_" + other);
    Suffix(base + "/pwm", Dec(f) + ("_auto_point" + x), Dec(g) + ("_auto_point" + y));
    LeadingNumber(f, g, "_auto_point" + x, "_auto_point" + y);
    Suffix("_auto_point", x, y);
    LeadingNumber(k, l, "_" + kind, "_" + other);
    Suffix("_", kind, other);
  }

  /** Enable files are distinct from each other and from every point file. */
  lemma EnablePathDiffers(base: string, f: nat, g: nat, k: nat, kind: string)
    ensures EnablePath(base, f) == EnablePath(base, g) <==> f == g
    ensures EnablePath(base, f) != PointPath(base, g, k, kind)
  {
    var tail := "_auto_point" + (Dec(k) + ("_" + kind));
    Suffix(base + "/pwm", Dec(f) + "_enable", Dec(g) + "_enable");
    LeadingNumber(f, g, "_enable", "_enable");
    Suffix(base + "/pwm", Dec(f) + "_enable", Dec(g) + tail);
    LeadingNumber(f, g, "_enable", tail);
    assert "_enable"[1] == 'e' && tail[1] == 'a';
  }

  /** No curve file is the name file of any node, so writing a curve never moves the node. */
  lemma NamePathDiffers(i: nat, j: nat, rest: string)
    ensures Hwmon.NamePath(Hwmon.Base(i)) != Hwmon.Base(j) + "/pwm" + rest
  {
    var root, tail := "/sys/class/hwmon/hwmon", "/pwm" + rest;
    assert Hwmon.NamePath(Hwmon.Base(i)) == root + (Dec(i) + "/name");
    assert Hwmon.Base(j) + "/pwm" + rest == root + (Dec(j) + tail);
    Suffix(root, Dec(i) + "/name", Dec(j) + tail);
    LeadingNumber(i, j, "/name", tail);
    assert "/name"[1] == 'n' && tail[1] == 'p';
  }

  // ---- The plan of writes ------------------------------------------------------

  function TempEntry(base: string, fan: nat, k: nat, p: FanPoint): Entry {
    Entry(PointPath(base, fan, k + 1, TEMP), Dec(p.tempC))
  }

  function PwmEntry(base: string, fan: nat, k: nat, p: FanPoint): Entry {
    Entry(PointPath(base, fan, k + 1, PWM), Dec(p.pwm))
  }

  /** The first `n` points of one fan, temperature then duty, in point order. */
  function PointPlan(base: string, fan: nat, curve: FanCurve, n: nat): seq<Entry>
    requires n <= |curve|
  {
    if n == 0 then []
    else PointPlan(base, fan, curve, n - 1)
         + [TempEntry(base, fan, n - 1, curve[n - 1]), PwmEntry(base, fan, n - 1, curve[n - 1])]
  }

  /** Both fans' points, then both enables. */
  function Plan(base: string, pair: CurvePair): seq<Entry> {
    PointPlan(base, CPU_FAN, pair.cpu, FAN_CURVE_POINTS)
    + PointPlan(base, GPU_FAN, pair.gpu, FAN_CURVE_POINTS)
    + [Entry(EnablePath(base, CPU_FAN), ENABLE_CUSTOM)]
    + [Entry(EnablePath(base, GPU_FAN), ENABLE_CUSTOM)]
  }

  predicate FanComplete(store: Store, base: string, fan: nat) {
    && EnablePath(base, fan) in store
    && forall k :: 1 <= k <= FAN_CURVE_POINTS ==>
                     PointPath(base, fan, k, TEMP) in store && PointPath(base, fan, k, PWM) in store
  }

  lemma {:induction false} PlanPrefix(base: string, fan: nat, curve: FanCurve, i: nat, n: nat)
    requires i <= n <= |curve|
    ensures PointPlan(base, fan, curve, i) <= PointPlan(base, fan, curve, n)
  {
    if i < n {
      PlanPrefix(base, fan, curve, i, n - 1);
    }
  }

  // ---- Reading -------------------------------------------------------------------

  function ByteAt(store: Store, path: string): Result<U8> {
    if path !in store then Err(BackendFailure)
    else
      var n := ParseUnsigned(Trim(store[path]), 255);
      if n.Some? then Ok(n.value) else Err(BackendFailure)
  }

  function PointAt(store: Store, base: string, fan: nat, k: nat): Result<FanPoint> {
    var temp :- ByteAt(store, PointPath(base, fan, k + 1, TEMP));
    var pwm :- ByteAt(store, PointPath(base, fan, k + 1, PWM));
    Ok(FanPoint(temp, pwm))
  }

  function PointsAt(store: Store, base: string, fan: nat, n: nat): (r: Result<seq<FanPoint>>)
    ensures r.Ok? ==> |r.value| == n
  {
    if n == 0 then Ok([])
    else
      var points :- PointsAt(store, base, fan, n - 1);
      var p :- PointAt(store, base, fan, n - 1);
      Ok(points + [p])
  }

  function FanAt(store: Store, base: string, fan: nat): Result<FanCurve> {
    var points :- PointsAt(store, base, fan, FAN_CURVE_POINTS);
    Ok(points)
  }

  function CurvesAt(store: Store): Result<CurvePair> {
    var base := Hwmon.Scan(store, NODE, 0);
    if base.None? then Err(FeatureUnsupported)
    else
      var cpu :- FanAt(store, base.value, CPU_FAN);
      var gpu :- FanAt(store, base.value, GPU_FAN);
      Ok(CurvePair(cpu, gpu))
  }

  function SelectionAt(store: Store): Result<Option<FanSelection>> {
    var base := Hwmon.Scan(store, NODE, 0);
    if base.None? then Err(FeatureUnsupported)
    else if EnablePath(base.value, CPU_FAN) !in store then Err(BackendFailure)
    else if Trim(store[EnablePath(base.value, CPU_FAN)]) == ENABLE_AUTO then Ok(None)
    else
      var pair :- CurvesAt(store);
      Ok(Some(NameOf(pair)))
  }

  lemma {:induction false} PointsPrefix(store: Store, base: string, fan: nat, i: nat, n: nat)
    requires i <= n && PointsAt(store, base, fan, i).Err?
    ensures PointsAt(store, base, fan, n) == PointsAt(store, base, fan, i)
  {
    if i < n {
      PointsPrefix(store, base, fan, i, n - 1);
    }
  }

  method ReadByte(files: Files, path: string) returns (r: Result<U8>)
    modifies files`clock
    ensures files.clock > old(files.clock)
    ensures r.Ok? ==> r == ByteAt(files.contents, path)
    ensures files.NeverFails(old(files.clock)) ==> r == ByteAt(files.contents, path)
  {
    var raw :- files.Read(path);
    var n := ParseUnsigned(raw, 255);
    r := if n.Some? then Ok(n.value) else Err(BackendFailure);
  }

  method ReadFanPoints(files: Files, base: string, fan: nat) returns (r: Result<FanCurve>)
    modifies files`clock
    ensures files.clock >= old(files.clock)
    ensures r.Ok? ==> r == FanAt(files.contents, base, fan)
    ensures files.NeverFails(old(files.clock)) ==> r == FanAt(files.contents, base, fan)
  {
    hide ByteAt, PointPath;
    var points := new FanPoint[FAN_CURVE_POINTS](_ => FanPoint(0, 0));
    for i := 0 to FAN_CURVE_POINTS
      invariant files.clock >= old(files.clock)
      invariant PointsAt(files.contents, base, fan, i) == Ok(points[..i])
    {
      if PointsAt(files.contents, base, fan, i + 1).Err? {
        PointsPrefix(files.contents, base, fan, i + 1, FAN_CURVE_POINTS);
      }
      var temp :- ReadByte(files, PointPath(base, fan, i + 1, TEMP));
      var pwm :- ReadByte(files, PointPath(base, fan, i + 1, PWM));
      points[i] := FanPoint(temp, pwm);
      assert points[..i + 1] == points[..i] + [FanPoint(temp, pwm)];
    }
    assert points[..] == points[..FAN_CURVE_POINTS];
    r := Ok(points[..]);
  }

  method GetCurves(files: Files) returns (r: Result<CurvePair>)
    modifies files`clock
    ensures files.clock >= old(files.clock)
    ensures r.Ok? ==> r == CurvesAt(files.contents)
    ensures files.NeverFails(old(files.clock)) ==> r == CurvesAt(files.contents)
  {
    hide FanAt;
    var base := Hwmon.FindByName(files.contents, NODE);
    if base.None? {
      return Err(FeatureUnsupported);
    }
    var cpu :- ReadFanPoints(files, base.value, CPU_FAN);
    var gpu :- ReadFanPoints(files, base.value, GPU_FAN);
    r := Ok(CurvePair(cpu, gpu));
  }

  method ActiveSelection(files: Files) returns (r: Result<Option<FanSelection>>)
    modifies files`clock
    ensures r.Ok? ==> r == SelectionAt(files.contents)
    ensures files.NeverFails(old(files.clock)) ==> r == SelectionAt(files.contents)
  {
    hide CurvesAt, PresetTable;
    var base := Hwmon.FindByName(files.contents, NODE);
    if base.None? {
      return Err(FeatureUnsupported);
    }
    var mode :- files.Read(EnablePath(base.value, CPU_FAN));
    if mode == ENABLE_AUTO {
      return Ok(None);
    }
    var pair :- GetCurves(files);
    var tiers := [Silent, Tier.Balanced, Aggressive];
    for i := 0 to |tiers|
      invariant forall k :: 0 <= k < i ==> pair != Curves(PresetCurve(tiers[k]))
    {
      if pair == Curves(PresetCurve(tiers[i])) {
        assert i > 0 ==> pair != Curves(PresetCurve(tiers[0]));
        assert i > 1 ==> pair != Curves(PresetCurve(tiers[1]));
        assert NameOf(pair) == PresetCurve(tiers[i]);
        return Ok(Some(PresetCurve(tiers[i])));
      }
    }
    assert pair != Curves(PresetCurve(tiers[0])) && pair != Curves(PresetCurve(tiers[1]))
           && pair != Curves(PresetCurve(tiers[2]));
    r := Ok(Some(CustomCurve(pair.cpu, pair.gpu)));
  }

  // ---- Writing -------------------------------------------------------------------

  method WritePoint(files: Files, base: string, fan: nat, k: nat, p: FanPoint) returns (r: Result<()>)
    modifies files
    ensures files.clock > old(files.clock)
    ensures Wrote(old(files.contents), old(files.log), files.contents, files.log,
                  [TempEntry(base, fan, k, p), PwmEntry(base, fan, k, p)], r.Ok?, files.Faithful())
    ensures files.NeverFails(old(files.clock)) && k < FAN_CURVE_POINTS && FanComplete(old(files.contents), base, fan)
            ==> r.Ok?
  {
    hide Wrote, PointPath, Dec;
    ghost var temp, pwm := TempEntry(base, fan, k, p), PwmEntry(base, fan, k, p);
    ghost var s0, l0 := files.contents, files.log;
    assert [temp] + [pwm] == [temp, pwm];
    r := files.Write(PointPath(base, fan, k + 1, TEMP), Dec(p.tempC));
    if r.Err? {
      WroteLess(s0, l0, files.contents, files.log, [temp], [pwm], files.Faithful());
      return;
    }
    ghost var s1, l1 := files.contents, files.log;
    r := files.Write(PointPath(base, fan, k + 1, PWM), Dec(p.pwm));
    WroteThen(s0, l0, s1, l1, files.contents, files.log, [temp], [pwm], r.Ok?, files.Faithful());
  }

  lemma StillComplete(s0: Store, l0: seq<Entry>, s1: Store, l1: seq<Entry>, plan: seq<Entry>, faithful: bool,
                      base: string, fan: nat)
    requires Wrote(s0, l0, s1, l1, plan, true, faithful)
    ensures FanComplete(s0, base, fan) ==> FanComplete(s1, base, fan)
  {
  }

  /** Write the eight points of one fan, in point order. */
  method WriteFanPoints(files: Files, base: string, fan: nat, curve: FanCurve) returns (r: Result<()>)
    modifies files
    ensures files.clock >= old(files.clock)
    ensures Wrote(old(files.contents), old(files.log), files.contents, files.log,
                  PointPlan(base, fan, curve, FAN_CURVE_POINTS), r.Ok?, files.Faithful())
    ensures files.NeverFails(old(files.clock)) && FanComplete(old(files.contents), base, fan) ==> r.Ok?
  {
    hide PointPath, Dec, Replay, TempEntry, PwmEntry, Wrote, FanComplete;
    ghost var s0, l0 := files.contents, files.log;
    NothingWritten(s0, l0, files.Faithful());
    for i := 0 to FAN_CURVE_POINTS
      invariant files.clock >= old(files.clock)
      invariant Wrote(s0, l0, files.contents, files.log, PointPlan(base, fan, curve, i), true, files.Faithful())
    {
      ghost var s1, l1 := files.contents, files.log;
      r := WritePoint(files, base, fan, i, curve[i]);
      WroteThen(s0, l0, s1, l1, files.contents, files.log, PointPlan(base, fan, curve, i),
                [TempEntry(base, fan, i, curve[i]), PwmEntry(base, fan, i, curve[i])], r.Ok?, files.Faithful());
      StillComplete(s0, l0, s1, l1, PointPlan(base, fan, curve, i), files.Faithful(), base, fan);
      if r.Err? {
        PlanPrefix(base, fan, curve, i + 1, FAN_CURVE_POINTS);
        ghost var whole, part := PointPlan(base, fan, curve, FAN_CURVE_POINTS), PointPlan(base, fan, curve, i + 1);
        assert whole == part + whole[|part|..];
        WroteLess(s0, l0, files.contents, files.log, part, whole[|part|..], files.Faithful());
        return;
      }
    }
    r := Ok(());
  }

  method Enable(files: Files, base: string, fan: nat) returns (r: Result<()>)
    modifies files
    ensures files.clock > old(files.clock)
    ensures Wrote(old(files.contents), old(files.log), files.contents, files.log,
                  [Entry(EnablePath(base, fan), ENABLE_CUSTOM)], r.Ok?, files.Faithful())
    ensures files.NeverFails(old(files.clock)) && FanComplete(old(files.contents), base, fan) ==> r.Ok?
  {
    r := files.Write(EnablePath(base, fan), ENABLE_CUSTOM);
  }

  predicate NodeComplete(store: Store, base: string) {
    FanComplete(store, base, CPU_FAN) && FanComplete(store, base, GPU_FAN)
  }

  /** All the points of both fans before either enable; stops at the first failure. */
  method WriteCurves(files: Files, base: string, pair: CurvePair) returns (r: Result<()>)
    modifies files
    ensures files.clock >= old(files.clock)
    ensures Wrote(old(files.contents), old(files.log), files.contents, files.log, Plan(base, pair), r.Ok?,
                  files.Faithful())
    ensures files.NeverFails(old(files.clock)) && NodeComplete(old(files.contents), base) ==> r.Ok?
  {
    hide PointPath, EnablePath, Replay, PointPlan;
    ghost var s0, l0, f := files.contents, files.log, files.Faithful();
    ghost var c := PointPlan(base, CPU_FAN, pair.cpu, FAN_CURVE_POINTS);
    ghost var g := PointPlan(base, GPU_FAN, pair.gpu, FAN_CURVE_POINTS);
    ghost var e1, e2 := [Entry(EnablePath(base, CPU_FAN), ENABLE_CUSTOM)],
        [Entry(EnablePath(base, GPU_FAN), ENABLE_CUSTOM)];
    r := WriteFanPoints(files, base, CPU_FAN, pair.cpu);
    ghost var s1, l1 := files.contents, files.log;
    if r.Err? {
      WroteLess(s0, l0, s1, l1, c, g, f);
      WroteLess(s0, l0, s1, l1, c + g, e1, f);
      WroteLess(s0, l0, s1, l1, c + g + e1, e2, f);
      return;
    }
    r := WriteFanPoints(files, base, GPU_FAN, pair.gpu);
    ghost var s2, l2 := files.contents, files.log;
    WroteThen(s0, l0, s1, l1, s2, l2, c, g, r.Ok?, f);
    if r.Err? {
      WroteLess(s0, l0, s2, l2, c + g, e1, f);
      WroteLess(s0, l0, s2, l2, c + g + e1, e2, f);
      return;
    }
    r := Enable(files, base, CPU_FAN);
    ghost var s3, l3 := files.contents, files.log;
    WroteThen(s0, l0, s2, l2, s3, l3, c + g, e1, r.Ok?, f);
    if r.Err? {
      WroteLess(s0, l0, s3, l3, c + g + e1, e2, f);
      return;
    }
    r := Enable(files, base, GPU_FAN);
    WroteThen(s0, l0, s3, l3, files.contents, files.log, c + g + e1, e2, r.Ok?, f);
  }

  /** Apply a selection: validate, write both curves, enable, then read back and fail closed on any difference. */
  method Apply(files: Files, s: FanSelection) returns (r: Result<()>, ghost all: bool)
    modifies files
    ensures files.clock >= old(files.clock)
    ensures !Applicable(s) ==>
              r == Err(InvariantViolation) && files.contents == old(files.contents) && files.log == old(files.log)
    ensures Applicable(s) && Hwmon.Scan(old(files.contents), NODE, 0).None? ==>
              r == Err(FeatureUnsupported) && files.contents == old(files.contents) && files.log == old(files.log)
    ensures Applicable(s) && Hwmon.Scan(old(files.contents), NODE, 0).Some? ==>
              Wrote(old(files.contents), old(files.log), files.contents, files.log,
                    Plan(Hwmon.Scan(old(files.contents), NODE, 0).value, Curves(s)), all, files.Faithful())
    ensures r.Ok? ==> all && CurvesAt(files.contents) == Ok(Curves(s))
    ensures Applicable(s) && Healthy(old(files.contents)) && files.NeverFails(old(files.clock)) && files.Faithful() ==>
              r.Ok?
  {
    hide Curves, Accepted, CurvesAt, Plan, NodeComplete, Hwmon.Scan;
    all := false;
    var pair :- Resolve(s);
    var base := Hwmon.FindByName(files.contents, NODE);
    if base.None? {
      return Err(FeatureUnsupported), false;
    }
    ghost var s0, l0 := files.contents, files.log;
    r := WriteCurves(files, base.value, pair);
    all := r.Ok?;
    if r.Err? {
      return;
    }
    if files.Faithful() {
      AllWrote(s0, l0, files.contents, files.log, Plan(base.value, pair));
      PlanReadsBack(s0, base.value, pair);
    }
    var applied :- GetCurves(files);
    if applied != pair {
      return Err(BackendFailure), true;
    }
  }

  predicate Healthy(store: Store) {
    Hwmon.Scan(store, NODE, 0).Some? && NodeComplete(store, Hwmon.Scan(store, NODE, 0).value)
  }

  lemma AllWrote(s0: Store, l0: seq<Entry>, s1: Store, l1: seq<Entry>, plan: seq<Entry>)
    requires Wrote(s0, l0, s1, l1, plan, true, true)
    ensures s1 == Replay(s0, plan)
  {
  }

  // ---- What the store holds after the plan ------------------------------------------

  predicate FileIs(store: Store, path: string, value: string) {
    path in store && store[path] == value
  }

  predicate SameFile(a: Store, b: Store, path: string) {
    (path in a <==> path in b) && (path in a ==> a[path] == b[path])
  }

  /** The first `n` points of the curve are in their files. */
  predicate PointsIn(store: Store, base: string, fan: nat, curve: FanCurve, n: nat)
    requires n <= |curve|
  {
    forall k :: 0 <= k < n ==>
                  && FileIs(store, PointPath(base, fan, k + 1, TEMP), Dec(curve[k].tempC))
                  && FileIs(store, PointPath(base, fan, k + 1, PWM), Dec(curve[k].pwm))
  }

  /** Not one of this fan's point files. */
  ghost predicate Elsewhere(base: string, fan: nat, path: string) {
    forall k: nat, kind: string :: path != PointPath(base, fan, k, kind)
  }

  lemma TwoEntries(store: Store, plan: seq<Entry>, a: Entry, b: Entry)
    ensures Replay(store, plan + [a, b]) == Replay(store, plan)[a.path := a.value][b.path := b.value]
  {
    assert plan + [a, b] == plan + [a] + [b];
    ReplayLast(store, plan + [a], b);
    ReplayLast(store, plan, a);
  }

  lemma {:induction false} PointsLand(store: Store, base: string, fan: nat, curve: FanCurve, n: nat)
    requires n <= |curve|
    ensures PointsIn(Replay(store, PointPlan(base, fan, curve, n)), base, fan, curve, n)
    ensures forall path :: Elsewhere(base, fan, path) ==>
              SameFile(store, Replay(store, PointPlan(base, fan, curve, n)), path)
  {
    hide PointPath, Dec;
    if n > 0 {
      PointsLand(store, base, fan, curve, n - 1);
      var mid := Replay(store, PointPlan(base, fan, curve, n - 1));
      var t, p := TempEntry(base, fan, n - 1, curve[n - 1]), PwmEntry(base, fan, n - 1, curve[n - 1]);
      TwoEntries(store, PointPlan(base, fan, curve, n - 1), t, p);
      forall k | 0 <= k < n
        ensures FileIs(mid[t.path := t.value][p.path := p.value], PointPath(base, fan, k + 1, TEMP),
                       Dec(curve[k].tempC))
        ensures FileIs(mid[t.path := t.value][p.path := p.value], PointPath(base, fan, k + 1, PWM), Dec(curve[k].pwm))
      {
        PointPathInjective(base, fan, k + 1, TEMP, fan, n, TEMP);
        PointPathInjective(base, fan, k + 1, TEMP, fan, n, PWM);
        PointPathInjective(base, fan, k + 1, PWM, fan, n, TEMP);
        PointPathInjective(base, fan, k + 1, PWM, fan, n, PWM);
      }
    }
  }

  lemma WrittenByteReads(store: Store, path: string, n: U8)
    requires FileIs(store, path, Dec(n))
    ensures ByteAt(store, path) == Ok(n)
  {
    DecIsTrimmed(n);
    ParseDec(n, 255);
  }

  lemma {:induction false} PointsRead(store: Store, base: string, fan: nat, curve: FanCurve, n: nat)
    requires n <= |curve| && PointsIn(store, base, fan, curve, n)
    ensures PointsAt(store, base, fan, n) == Ok(curve[..n])
  {
    hide ByteAt, PointPath, Dec;
    if n > 0 {
      PointsRead(store, base, fan, curve, n - 1);
      WrittenByteReads(store, PointPath(base, fan, n, TEMP), curve[n - 1].tempC);
      WrittenByteReads(store, PointPath(base, fan, n, PWM), curve[n - 1].pwm);
      assert curve[..n] == curve[..n - 1] + [curve[n - 1]];
    }
  }

  lemma FanReads(store: Store, base: string, fan: nat, curve: FanCurve)
    requires PointsIn(store, base, fan, curve, FAN_CURVE_POINTS)
    ensures FanAt(store, base, fan) == Ok(curve)
  {
    PointsRead(store, base, fan, curve, FAN_CURVE_POINTS);
    assert curve[..FAN_CURVE_POINTS] == curve;
  }

  /** One fan's files do not contain another fan's, nor any enable. */
  lemma FansAreSeparate(base: string, fan: nat, other: nat)
    requires fan != other
    ensures forall k: nat, kind: string :: Elsewhere(base, fan, PointPath(base, other, k, kind))
    ensures forall g: nat :: Elsewhere(base, fan, EnablePath(base, g))
  {
    forall k: nat, kind: string, l: nat, like: string
      ensures PointPath(base, other, k, kind) != PointPath(base, fan, l, like)
    {
      PointPathInjective(base, other, k, kind, fan, l, like);
    }
    forall g: nat, l: nat, like: string
      ensures EnablePath(base, g) != PointPath(base, fan, l, like)
    {
      EnablePathDiffers(base, g, fan, l, like);
    }
  }

  lemma PointsKept(a: Store, b: Store, base: string, fan: nat, curve: FanCurve)
    requires PointsIn(a, base, fan, curve, FAN_CURVE_POINTS)
    requires forall k: nat, kind: string :: SameFile(a, b, PointPath(base, fan, k, kind))
    ensures PointsIn(b, base, fan, curve, FAN_CURVE_POINTS)
  {
  }

  function PointPlans(base: string, pair: CurvePair): seq<Entry> {
    PointPlan(base, CPU_FAN, pair.cpu, FAN_CURVE_POINTS) + PointPlan(base, GPU_FAN, pair.gpu, FAN_CURVE_POINTS)
  }

  lemma BothFansLand(store: Store, base: string, pair: CurvePair)
    ensures var after := Replay(store, PointPlans(base, pair));
            && PointsIn(after, base, CPU_FAN, pair.cpu, FAN_CURVE_POINTS)
            && PointsIn(after, base, GPU_FAN, pair.gpu, FAN_CURVE_POINTS)
            && forall path :: Elsewhere(base, CPU_FAN, path) && Elsewhere(base, GPU_FAN, path) ==>
                 SameFile(store, after, path)
  {
    hide PointPlan, PointPath, EnablePath, PointsIn, Elsewhere, FileIs;
    var c := PointPlan(base, CPU_FAN, pair.cpu, FAN_CURVE_POINTS);
    var g := PointPlan(base, GPU_FAN, pair.gpu, FAN_CURVE_POINTS);
    ReplayAppend(store, c, g);
    PointsLand(store, base, CPU_FAN, pair.cpu, FAN_CURVE_POINTS);
    PointsLand(Replay(store, c), base, GPU_FAN, pair.gpu, FAN_CURVE_POINTS);
    FansAreSeparate(base, GPU_FAN, CPU_FAN);
    PointsKept(Replay(store, c), Replay(Replay(store, c), g), base, CPU_FAN, pair.cpu);
  }

  /** One enable on top of complete points leaves the points, and everything else, alone. */
  lemma EnableKeeps(store: Store, base: string, fan: nat, pair: CurvePair)
    requires PointsIn(store, base, CPU_FAN, pair.cpu, FAN_CURVE_POINTS)
    requires PointsIn(store, base, GPU_FAN, pair.gpu, FAN_CURVE_POINTS)
    ensures var after := store[EnablePath(base, fan) := ENABLE_CUSTOM];
            && PointsIn(after, base, CPU_FAN, pair.cpu, FAN_CURVE_POINTS)
            && PointsIn(after, base, GPU_FAN, pair.gpu, FAN_CURVE_POINTS)
            && forall g: nat :: g != fan ==> SameFile(store, after, EnablePath(base, g))
  {
    hide PointPath, EnablePath, PointsIn, FileIs;
    var after := store[EnablePath(base, fan) := ENABLE_CUSTOM];
    forall f: nat, k: nat, kind: string
      ensures SameFile(store, after, PointPath(base, f, k, kind))
    {
      EnablePathDiffers(base, fan, f, k, kind);
    }
    forall g: nat | g != fan
      ensures SameFile(store, after, EnablePath(base, g))
    {
      EnablePathDiffers(base, fan, g, 0, TEMP);
    }
    PointsKept(store, after, base, CPU_FAN, pair.cpu);
    PointsKept(store, after, base, GPU_FAN, pair.gpu);
  }

  lemma PlanSteps(store: Store, base: string, pair: CurvePair)
    ensures var points := Replay(store, PointPlans(base, pair));
            var one := points[EnablePath(base, CPU_FAN) := ENABLE_CUSTOM];
            && Replay(store, PointPlans(base, pair) + [Entry(EnablePath(base, CPU_FAN), ENABLE_CUSTOM)]) == one
            && Replay(store, Plan(base, pair)) == one[EnablePath(base, GPU_FAN) := ENABLE_CUSTOM]
  {
    hide PointPlan, EnablePath, Replay;
    var e1, e2 := Entry(EnablePath(base, CPU_FAN), ENABLE_CUSTOM), Entry(EnablePath(base, GPU_FAN), ENABLE_CUSTOM);
    ReplayLast(store, PointPlans(base, pair), e1);
    ReplayLast(store, PointPlans(base, pair) + [e1], e2);
  }

  /** After the whole plan: both curves in place, both fans enabled. */
  lemma PlanLands(store: Store, base: string, pair: CurvePair)
    ensures var after := Replay(store, Plan(base, pair));
            && PointsIn(after, base, CPU_FAN, pair.cpu, FAN_CURVE_POINTS)
            && PointsIn(after, base, GPU_FAN, pair.gpu, FAN_CURVE_POINTS)
            && FileIs(after, EnablePath(base, CPU_FAN), ENABLE_CUSTOM)
            && FileIs(after, EnablePath(base, GPU_FAN), ENABLE_CUSTOM)
  {
    hide PointPlans, Plan, PointPath, EnablePath, PointsIn, Elsewhere, Replay;
    var points := Replay(store, PointPlans(base, pair));
    BothFansLand(store, base, pair);
    PlanSteps(store, base, pair);
    EnableKeeps(points, base, CPU_FAN, pair);
    var one := points[EnablePath(base, CPU_FAN) := ENABLE_CUSTOM];
    EnableKeeps(one, base, GPU_FAN, pair);
    assert SameFile(one, one[EnablePath(base, GPU_FAN) := ENABLE_CUSTOM], EnablePath(base, CPU_FAN));
  }

  // ---- The node does not move -----------------------------------------------------------

  lemma NamePathsKept(store: Store, j: nat, pair: CurvePair, i: nat)
    ensures SameFile(store, Replay(store, Plan(Hwmon.Base(j), pair)), Hwmon.NamePath(Hwmon.Base(i)))
  {
    var base, path := Hwmon.Base(j), Hwmon.NamePath(Hwmon.Base(i));
    forall f: nat, k: nat, kind: string
      ensures path != PointPath(base, f, k, kind)
    {
      NamePathDiffers(i, j, Dec(f) + ("_auto_point" + (Dec(k) + ("_" + kind))));
    }
    NamePathDiffers(i, j, Dec(CPU_FAN) + "_enable");
    NamePathDiffers(i, j, Dec(GPU_FAN) + "_enable");
    hide PointPlans, Plan, PointPath, PointsIn, Replay, Hwmon.Base, Hwmon.NamePath, Dec;
    BothFansLand(store, base, pair);
    PlanSteps(store, base, pair);
    assert SameFile(store, Replay(store, PointPlans(base, pair)), path);
  }

  lemma {:induction false} ScanKept(a: Store, b: Store, index: nat)
    requires forall i: nat :: SameFile(a, b, Hwmon.NamePath(Hwmon.Base(i)))
    ensures Hwmon.Scan(a, NODE, index) == Hwmon.Scan(b, NODE, index)
    decreases Hwmon.MAX_HWMON_INDEX - index
  {
    if index < Hwmon.MAX_HWMON_INDEX {
      assert SameFile(a, b, Hwmon.NamePath(Hwmon.Base(index)));
      ScanKept(a, b, index + 1);
    }
  }

  /** Round trip: what was applied is what reads back, and it is reported under its own name. */
  lemma PlanReadsBack(store: Store, base: string, pair: CurvePair)
    requires Hwmon.Scan(store, NODE, 0) == Some(base)
    ensures CurvesAt(Replay(store, Plan(base, pair))) == Ok(pair)
    ensures SelectionAt(Replay(store, Plan(base, pair))) == Ok(Some(NameOf(pair)))
  {
    hide Replay, Plan, NameOf, PointPath, EnablePath, FanAt, PointsIn, Hwmon.Scan;
    var after := Replay(store, Plan(base, pair));
    Hwmon.ScanFinds(store, NODE, 0);
    var j: nat :| j < Hwmon.MAX_HWMON_INDEX && base == Hwmon.Base(j);
    forall i: nat
      ensures SameFile(store, after, Hwmon.NamePath(Hwmon.Base(i)))
    {
      NamePathsKept(store, j, pair, i);
    }
    ScanKept(store, after, 0);
    PlanLands(store, base, pair);
    FanReads(after, base, CPU_FAN, pair.cpu);
    FanReads(after, base, GPU_FAN, pair.gpu);
    CustomIsNotAuto();
  }

  lemma CustomIsNotAuto()
    ensures Trim(ENABLE_CUSTOM) != ENABLE_AUTO && Trim(ENABLE_CUSTOM) == ENABLE_CUSTOM
  {
  }

  /** On a healthy node every accepted selection is reported back as itself, except that a custom curve drawn exactly
      like a preset is reported as that preset. */
  lemma SelectionRoundTrip(store: Store, s: FanSelection)
    requires Healthy(store) && Applicable(s)
    ensures var after := Replay(store, Plan(Hwmon.Scan(store, NODE, 0).value, Curves(s)));
            && SelectionAt(after).Ok? && SelectionAt(after).value.Some?
            && Curves(SelectionAt(after).value.value) == Curves(s)
            && (SelectionAt(after) == Ok(Some(s)) <==>
                  (s.CustomCurve? ==> forall tier :: Curves(s) != Curves(PresetCurve(tier))))
  {
    hide Replay, Plan, NameOf, Hwmon.Scan, SelectionAt;
    PlanReadsBack(store, Hwmon.Scan(store, NODE, 0).value, Curves(s));
    NamingInvertsCurves(s);
  }

  // ---- No half-written curve ever runs ----------------------------------------------------

  predicate Enabled(store: Store, base: string, fan: nat) {
    EnablePath(base, fan) in store && Trim(store[EnablePath(base, fan)]) == ENABLE_CUSTOM
  }

  /** The files of one fan in write order: temperature and duty of each point. */
  const FAN_ENTRIES: nat := 16

  function EntryPath(base: string, fan: nat, i: nat): string {
    PointPath(base, fan, i / 2 + 1, if i % 2 == 0 then TEMP else PWM)
  }

  function EntryValue(curve: FanCurve, i: nat): U8
    requires i < FAN_ENTRIES
  {
    if i % 2 == 0 then curve[i / 2].tempC else curve[i / 2].pwm
  }

  /** What the controller reads from one of those files. */
  function EntryAt(store: Store, base: string, fan: nat, i: nat): Result<U8> {
    ByteAt(store, EntryPath(base, fan, i))
  }

  function CurveOf(pair: CurvePair, fan: nat): FanCurve {
    if fan == CPU_FAN then pair.cpu else pair.gpu
  }

  /** The fan still runs what it ran before. */
  predicate AsBefore(store: Store, after: Store, base: string, fan: nat) {
    forall i :: 0 <= i < FAN_ENTRIES ==> EntryAt(after, base, fan, i) == EntryAt(store, base, fan, i)
  }

  /** The fan runs the wanted curve. */
  predicate AsWanted(store: Store, base: string, fan: nat, curve: FanCurve) {
    forall i :: 0 <= i < FAN_ENTRIES ==> EntryAt(store, base, fan, i) == Ok(EntryValue(curve, i))
  }

  predicate Differs(store: Store, base: string, fan: nat, curve: FanCurve, i: nat)
    requires i < FAN_ENTRIES
  {
    EntryAt(store, base, fan, i) != Ok(EntryValue(curve, i))
  }

  predicate AtMostOneDiffers(store: Store, base: string, fan: nat, curve: FanCurve) {
    forall i, j :: 0 <= i < j < FAN_ENTRIES ==>
        !Differs(store, base, fan, curve, i) || !Differs(store, base, fan, curve, j)
  }

  /** An enabled fan runs either what it ran before or the wanted curve, never a mixture. */
  predicate WholeCurve(store: Store, after: Store, base: string, fan: nat, curve: FanCurve) {
    Enabled(after, base, fan) ==> AsBefore(store, after, base, fan) || AsWanted(after, base, fan, curve)
  }

  /** How many of a fan's files the first `n` writes of a plan have reached. */
  function Reached(n: nat, fan: nat): nat {
    if fan == CPU_FAN then MinOf(n, FAN_ENTRIES) else MinOf(MaxOf(n - FAN_ENTRIES, 0), FAN_ENTRIES)
  }

  lemma {:induction false} PointPlanAt(base: string, fan: nat, curve: FanCurve, n: nat)
    requires n <= |curve|
    ensures |PointPlan(base, fan, curve, n)| == 2 * n
    ensures forall i :: 0 <= i < 2 * n ==>
              PointPlan(base, fan, curve, n)[i] == Entry(EntryPath(base, fan, i), Dec(EntryValue(curve, i)))
  {
    hide PointPath, Dec;
    if n > 0 {
      PointPlanAt(base, fan, curve, n - 1);
    }
  }

  lemma PlanAt(base: string, pair: CurvePair)
    ensures |Plan(base, pair)| == 2 * FAN_ENTRIES + 2
    ensures forall i :: 0 <= i < FAN_ENTRIES ==>
              && Plan(base, pair)[i] == Entry(EntryPath(base, CPU_FAN, i), Dec(EntryValue(pair.cpu, i)))
              && Plan(base, pair)[i + FAN_ENTRIES] == Entry(EntryPath(base, GPU_FAN, i), Dec(EntryValue(pair.gpu, i)))
    ensures Plan(base, pair)[2 * FAN_ENTRIES] == Entry(EnablePath(base, CPU_FAN), ENABLE_CUSTOM)
    ensures Plan(base, pair)[2 * FAN_ENTRIES + 1] == Entry(EnablePath(base, GPU_FAN), ENABLE_CUSTOM)
  {
    hide PointPlan, EntryPath, EntryValue, Dec;
    PointPlanAt(base, CPU_FAN, pair.cpu, FAN_CURVE_POINTS);
    PointPlanAt(base, GPU_FAN, pair.gpu, FAN_CURVE_POINTS);
  }

  lemma EntryPathInjective(base: string, f: nat, i: nat, g: nat, j: nat)
    ensures EntryPath(base, f, i) == EntryPath(base, g, j) <==> f == g && i == j
    ensures EntryPath(base, f, i) != EnablePath(base, g)
  {
    var a, b := if i % 2 == 0 then TEMP else PWM, if j % 2 == 0 then TEMP else PWM;
    PointPathInjective(base, f, i / 2 + 1, a, g, j / 2 + 1, b);
    EnablePathDiffers(base, g, f, i / 2 + 1, a);
    assert TEMP[0] != PWM[0];
  }

  /** After `n` writes: the files reached read as wanted, all others as before. */
  lemma {:induction false} EntryAfter(store: Store, base: string, pair: CurvePair, n: nat, fan: nat, i: nat)
    requires n <= |Plan(base, pair)| && (fan == CPU_FAN || fan == GPU_FAN) && i < FAN_ENTRIES
    ensures EntryAt(Replay(store, Plan(base, pair)[..n]), base, fan, i)
         == if i < Reached(n, fan) then Ok(EntryValue(CurveOf(pair, fan), i)) else EntryAt(store, base, fan, i)
  {
    hide Plan, EntryPath, EnablePath, Dec, ByteAt, EntryValue, Replay;
    var plan := Plan(base, pair);
    if n == 0 {
      NothingReplayed(store);
      assert plan[..0] == [];
    } else {
      EntryAfter(store, base, pair, n - 1, fan, i);
      PlanAt(base, pair);
      var e, before := plan[n - 1], Replay(store, plan[..n - 1]);
      assert plan[..n] == plan[..n - 1] + [e];
      ReplayLast(store, plan[..n - 1], e);
      EntryPathInjective(base, CPU_FAN, n - 1, fan, i);
      EntryPathInjective(base, GPU_FAN, if n > FAN_ENTRIES then n - 1 - FAN_ENTRIES else 0, fan, i);
      EntryPathInjective(base, fan, i, CPU_FAN, i);
      EntryPathInjective(base, fan, i, GPU_FAN, i);
      UpdatedByte(before, e, EntryPath(base, fan, i), EntryValue(CurveOf(pair, fan), i));
    }
  }

  lemma NothingReplayed(store: Store)
    ensures Replay(store, []) == store
  {
  }

  lemma UpdatedByte(store: Store, e: Entry, path: string, n: U8)
    ensures e.path != path ==> ByteAt(store[e.path := e.value], path) == ByteAt(store, path)
    ensures e == Entry(path, Dec(n)) ==> ByteAt(store[e.path := e.value], path) == Ok(n)
  {
    if e == Entry(path, Dec(n)) {
      WrittenByteReads(store[e.path := e.value], path, n);
    }
  }

  /** A fan is enabled from its own enable write on; before that it is as it was. */
  lemma {:induction false} EnabledAfter(store: Store, base: string, pair: CurvePair, n: nat, fan: nat)
    requires n <= |Plan(base, pair)| && (fan == CPU_FAN || fan == GPU_FAN)
    ensures Enabled(Replay(store, Plan(base, pair)[..n]), base, fan) <==>
            Enabled(store, base, fan) || n >= 2 * FAN_ENTRIES + fan
    ensures n < 2 * FAN_ENTRIES + fan ==> SameFile(store, Replay(store, Plan(base, pair)[..n]), EnablePath(base, fan))
  {
    hide Plan, EntryPath, EnablePath, Dec, Replay, Trim;
    var plan := Plan(base, pair);
    if n == 0 {
      NothingReplayed(store);
      assert plan[..0] == [];
    } else {
      EnabledAfter(store, base, pair, n - 1, fan);
      PlanAt(base, pair);
      var e := plan[n - 1];
      assert plan[..n] == plan[..n - 1] + [e];
      ReplayLast(store, plan[..n - 1], e);
      EntryPathInjective(base, CPU_FAN, n - 1, fan, 0);
      EntryPathInjective(base, GPU_FAN, if n > FAN_ENTRIES then n - 1 - FAN_ENTRIES else 0, fan, 0);
      EnablePathDiffers(base, CPU_FAN, GPU_FAN, 0, TEMP);
      CustomIsNotAuto();
    }
  }

  /** An enabled fan always runs the wanted curve, through every prefix of the writes, if and only if it started under
      firmware control or was running that curve already. */
  lemma NeverHalfEnabledIff(store: Store, base: string, pair: CurvePair, fan: nat)
    requires fan == CPU_FAN || fan == GPU_FAN
    ensures (forall n :: 0 <= n <= |Plan(base, pair)| ==>
               (Enabled(Replay(store, Plan(base, pair)[..n]), base, fan) ==>
                  AsWanted(Replay(store, Plan(base, pair)[..n]), base, fan, CurveOf(pair, fan))))
       <==> !Enabled(store, base, fan) || AsWanted(store, base, fan, CurveOf(pair, fan))
  {
    hide Plan, Enabled, EntryAt, EntryValue, Replay;
    PlanAt(base, pair);
    NothingReplayed(store);
    assert Plan(base, pair)[..0] == [];
    forall n | 0 <= n <= |Plan(base, pair)|
      ensures Enabled(Replay(store, Plan(base, pair)[..n]), base, fan)
         <==> Enabled(store, base, fan) || n >= 2 * FAN_ENTRIES + fan
    {
      EnabledAfter(store, base, pair, n, fan);
    }
    forall n, i | 0 <= n <= |Plan(base, pair)| && 0 <= i < FAN_ENTRIES
      ensures EntryAt(Replay(store, Plan(base, pair)[..n]), base, fan, i)
           == if i < Reached(n, fan) then Ok(EntryValue(CurveOf(pair, fan), i)) else EntryAt(store, base, fan, i)
    {
      EntryAfter(store, base, pair, n, fan, i);
    }
  }

  /** Exactly when no half-written curve ever runs: after every prefix of the writes an enabled fan runs a whole curve
      if and only if it was not enabled to begin with, or at most one of its sixteen files has to change. */
  lemma WholeCurveIff(store: Store, base: string, pair: CurvePair, fan: nat)
    requires fan == CPU_FAN || fan == GPU_FAN
    ensures (forall n :: 0 <= n <= |Plan(base, pair)| ==>
               WholeCurve(store, Replay(store, Plan(base, pair)[..n]), base, fan, CurveOf(pair, fan)))
       <==> !Enabled(store, base, fan) || AtMostOneDiffers(store, base, fan, CurveOf(pair, fan))
  {
    hide Plan, Enabled, EntryAt, EntryValue;
    var curve := CurveOf(pair, fan);
    PlanAt(base, pair);
    if !Enabled(store, base, fan) || AtMostOneDiffers(store, base, fan, curve) {
      forall n | 0 <= n <= |Plan(base, pair)|
        ensures WholeCurve(store, Replay(store, Plan(base, pair)[..n]), base, fan, curve)
      {
        PrefixIsWhole(store, base, pair, n, fan);
      }
    } else {
      var i, j :| 0 <= i < j < FAN_ENTRIES && Differs(store, base, fan, curve, i)
        && Differs(store, base, fan, curve, j);
      var n := MixedCurveRuns(store, base, pair, fan, i, j);
    }
  }

  lemma PrefixIsWhole(store: Store, base: string, pair: CurvePair, n: nat, fan: nat)
    requires n <= |Plan(base, pair)| && (fan == CPU_FAN || fan == GPU_FAN)
    requires !Enabled(store, base, fan) || AtMostOneDiffers(store, base, fan, CurveOf(pair, fan))
    ensures WholeCurve(store, Replay(store, Plan(base, pair)[..n]), base, fan, CurveOf(pair, fan))
  {
    hide Plan, Enabled, EntryAt, EntryValue, Replay;
    var after, curve := Replay(store, Plan(base, pair)[..n]), CurveOf(pair, fan);
    PlanAt(base, pair);
    EnabledAfter(store, base, pair, n, fan);
    forall i | 0 <= i < FAN_ENTRIES
      ensures EntryAt(after, base, fan, i)
           == if i < Reached(n, fan) then Ok(EntryValue(curve, i)) else EntryAt(store, base, fan, i)
    {
      EntryAfter(store, base, pair, n, fan, i);
    }
    if Enabled(store, base, fan) && !AsBefore(store, after, base, fan) {
      var i :| 0 <= i < FAN_ENTRIES && EntryAt(after, base, fan, i) != EntryAt(store, base, fan, i);
      assert Differs(store, base, fan, curve, i);
      forall j | Reached(n, fan) <= j < FAN_ENTRIES
        ensures EntryAt(after, base, fan, j) == Ok(EntryValue(curve, j))
      {
        assert !Differs(store, base, fan, curve, j);
      }
    }
  }

  /** Two files that have to change: right after the first of them the enabled fan runs neither curve. */
  lemma MixedCurveRuns(store: Store, base: string, pair: CurvePair, fan: nat, i: nat, j: nat) returns (n: nat)
    requires (fan == CPU_FAN || fan == GPU_FAN) && Enabled(store, base, fan) && i < j < FAN_ENTRIES
    requires Differs(store, base, fan, CurveOf(pair, fan), i) && Differs(store, base, fan, CurveOf(pair, fan), j)
    ensures n <= |Plan(base, pair)|
    ensures var after := Replay(store, Plan(base, pair)[..n]);
            && Enabled(after, base, fan) && !AsBefore(store, after, base, fan)
            && !AsWanted(after, base, fan, CurveOf(pair, fan))
  {
    hide Plan, Enabled, EntryAt, EntryValue, Replay;
    PlanAt(base, pair);
    n := if fan == CPU_FAN then i + 1 else FAN_ENTRIES + i + 1;
    EnabledAfter(store, base, pair, n, fan);
    EntryAfter(store, base, pair, n, fan, i);
    EntryAfter(store, base, pair, n, fan, j);
  }

  /** Any change between two calibrated tiers on an enabled fan is such a case: the controller runs a curve that is
      neither, if only between two writes. */
  lemma TierChangeMixes(store: Store, base: string, from: Tier, to: Tier, fan: nat) returns (n: nat)
    requires (fan == CPU_FAN || fan == GPU_FAN) && Enabled(store, base, fan) && from != to
    requires AsWanted(store, base, fan, PresetTable(from))
    ensures n <= |Plan(base, Curves(PresetCurve(to)))|
    ensures var after := Replay(store, Plan(base, Curves(PresetCurve(to)))[..n]);
            && Enabled(after, base, fan)
            && !AsWanted(after, base, fan, PresetTable(from)) && !AsWanted(after, base, fan, PresetTable(to))
  {
    hide EntryAt, Enabled, Plan, Replay;
    assert EntryAt(store, base, fan, 0) == Ok(PresetTable(from)[0].tempC);
    assert EntryAt(store, base, fan, 1) == Ok(PresetTable(from)[0].pwm);
    n := MixedCurveRuns(store, base, Curves(PresetCurve(to)), fan, 0, 1);
    var after := Replay(store, Plan(base, Curves(PresetCurve(to)))[..n]);
    var i :| 0 <= i < FAN_ENTRIES && EntryAt(after, base, fan, i) != EntryAt(store, base, fan, i);
  }

  /** A fan that runs the wanted curve reads back as that curve. */
  lemma {:induction false} WantedReads(store: Store, base: string, fan: nat, curve: FanCurve, n: nat)
    requires n <= |curve| && AsWanted(store, base, fan, curve)
    ensures PointsAt(store, base, fan, n) == Ok(curve[..n])
    ensures n == |curve| ==> FanAt(store, base, fan) == Ok(curve)
  {
    hide ByteAt, PointPath;
    if n > 0 {
      WantedReads(store, base, fan, curve, n - 1);
      assert EntryAt(store, base, fan, 2 * n - 2) == Ok(curve[n - 1].tempC);
      assert EntryAt(store, base, fan, 2 * n - 1) == Ok(curve[n - 1].pwm);
      assert curve[..n] == curve[..n - 1] + [curve[n - 1]];
    }
    assert curve[..|curve|] == curve;
  }

  // ---- Back to the firmware -----------------------------------------------------------------

  /** Hand both fans back; the points stay where they are. */
  method ResetToAuto(files: Files) returns (r: Result<()>)
    modifies files
    ensures Hwmon.Scan(old(files.contents), NODE, 0).None? ==>
              r == Err(FeatureUnsupported) && files.contents == old(files.contents) && files.log == old(files.log)
    ensures r.Ok? ==> Hwmon.Scan(old(files.contents), NODE, 0).Some? &&
                      var base := Hwmon.Scan(old(files.contents), NODE, 0).value;
                      files.log == old(files.log) + [Entry(EnablePath(base, CPU_FAN), ENABLE_AUTO),
                                                     Entry(EnablePath(base, GPU_FAN), ENABLE_AUTO)]
    ensures r.Ok? && files.Faithful() ==> SelectionAt(files.contents) == Ok(None)
    ensures Healthy(old(files.contents)) && files.NeverFails(old(files.clock)) ==> r.Ok?
  {
    hide EnablePath, Hwmon.Scan, SelectionAt;
    var base := Hwmon.FindByName(files.contents, NODE);
    if base.None? {
      return Err(FeatureUnsupported);
    }
    ghost var s0 := files.contents;
    var _ :- files.Write(EnablePath(base.value, CPU_FAN), ENABLE_AUTO);
    var _ :- files.Write(EnablePath(base.value, GPU_FAN), ENABLE_AUTO);
    if files.Faithful() {
      AutoReadsBack(s0, base.value);
    }
    r := Ok(());
  }

  /** With both enables back at the firmware's value nothing is reported as active. */
  lemma AutoReadsBack(store: Store, base: string)
    requires Hwmon.Scan(store, NODE, 0) == Some(base)
    ensures SelectionAt(store[EnablePath(base, CPU_FAN) := ENABLE_AUTO][EnablePath(base, GPU_FAN) := ENABLE_AUTO])
              == Ok(None)
  {
    var after := store[EnablePath(base, CPU_FAN) := ENABLE_AUTO][EnablePath(base, GPU_FAN) := ENABLE_AUTO];
    Hwmon.ScanFinds(store, NODE, 0);
    var j: nat :| j < Hwmon.MAX_HWMON_INDEX && base == Hwmon.Base(j);
    forall i: nat
      ensures SameFile(store, after, Hwmon.NamePath(Hwmon.Base(i)))
    {
      NamePathDiffers(i, j, Dec(CPU_FAN) + "_enable");
      NamePathDiffers(i, j, Dec(GPU_FAN) + "_enable");
    }
    hide Hwmon.Scan, EnablePath, CurvesAt;
    ScanKept(store, after, 0);
    EnablePathDiffers(base, CPU_FAN, GPU_FAN, 0, TEMP);
  }
}
