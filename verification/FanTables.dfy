/** The calibrated fan curves behind each tier, and how stored points are named again. */
module FanTables {
  import opened Domain

  datatype CurvePair = CurvePair(cpu: FanCurve, gpu: FanCurve)

  const SILENT: FanCurve := [
    FanPoint(50, 15), FanPoint(58, 28), FanPoint(65, 55), FanPoint(72, 95),
    FanPoint(78, 150), FanPoint(83, 200), FanPoint(88, 235), FanPoint(93, 255)]

  const BALANCED: FanCurve := [
    FanPoint(45, 20), FanPoint(54, 50), FanPoint(62, 95), FanPoint(69, 145),
    FanPoint(75, 190), FanPoint(80, 225), FanPoint(85, 255), FanPoint(92, 255)]

  const AGGRESSIVE: FanCurve := [
    FanPoint(40, 45), FanPoint(48, 90), FanPoint(55, 135), FanPoint(62, 180),
    FanPoint(68, 220), FanPoint(74, 255), FanPoint(82, 255), FanPoint(90, 255)]

  function PresetTable(tier: Tier): FanCurve {
    match tier
    case Silent => SILENT
    case Balanced => BALANCED
    case Aggressive => AGGRESSIVE
  }

  /** The points a selection stands for, before any validation. */
  function Curves(s: FanSelection): CurvePair {
    match s
    case PresetCurve(tier) => CurvePair(PresetTable(tier), PresetTable(tier))
    case CustomCurve(cpu, gpu) => CurvePair(cpu, gpu)
  }

  /** The first preset whose table equals the stored points, else a custom curve. */
  function NameOf(p: CurvePair): FanSelection {
    if p == Curves(PresetCurve(Silent)) then PresetCurve(Silent)
    else if p == Curves(PresetCurve(Tier.Balanced)) then PresetCurve(Tier.Balanced)
    else if p == Curves(PresetCurve(Aggressive)) then PresetCurve(Aggressive)
    else CustomCurve(p.cpu, p.gpu)
  }

  /** Naming recovers the stored points, and recovers the very selection unless a custom curve copies a preset table. */
  lemma NamingInvertsCurves(s: FanSelection)
    ensures Curves(NameOf(Curves(s))) == Curves(s)
    ensures NameOf(Curves(s)) == s <==>
            (s.CustomCurve? ==> forall tier :: Curves(s) != Curves(PresetCurve(tier)))
  {
  }

  // ---- What a curve asks for -------------------------------------------------------

  /** The duty at a temperature: that of the hottest of the first `n` points already reached, none below all of them. */
  function Duty(curve: FanCurve, n: nat, tempC: int): int
    requires n <= FAN_CURVE_POINTS
  {
    if n == 0 then 0 else if curve[n - 1].tempC <= tempC then curve[n - 1].pwm else Duty(curve, n - 1, tempC)
  }

  /** Each point is reached no earlier and asks for no more; the second curve never slows down. */
  predicate Quieter(a: FanCurve, b: FanCurve) {
    && (forall k :: 0 <= k < FAN_CURVE_POINTS ==> b[k].tempC <= a[k].tempC && a[k].pwm <= b[k].pwm)
    && (forall k :: 0 < k < FAN_CURVE_POINTS ==> b[k - 1].pwm <= b[k].pwm)
  }

  lemma {:induction false} DutyOrder(a: FanCurve, b: FanCurve, n: nat, tempC: int)
    requires Quieter(a, b) && n <= FAN_CURVE_POINTS
    ensures Duty(a, n, tempC) <= Duty(b, n, tempC)
    ensures n < FAN_CURVE_POINTS ==> Duty(b, n, tempC) <= b[n].pwm
  {
    if n > 0 {
      DutyOrder(a, b, n - 1, tempC);
    }
  }

  lemma SilentIsQuieter()
    ensures Quieter(PresetTable(Silent), PresetTable(Tier.Balanced))
  {
  }

  lemma BalancedIsQuieter()
    ensures Quieter(PresetTable(Tier.Balanced), PresetTable(Aggressive))
  {
  }

  /** Points above a temperature play no part in it. */
  lemma {:induction false} HotterPoints(curve: FanCurve, m: nat, n: nat, tempC: int)
    requires m <= n <= FAN_CURVE_POINTS && forall k :: m <= k < n ==> tempC < curve[k].tempC
    ensures Duty(curve, n, tempC) == Duty(curve, m, tempC)
  {
    if m < n {
      HotterPoints(curve, m, n - 1, tempC);
    }
  }

  /** At every temperature a louder tier asks for at least as much duty, and at 60 degrees for more. */
  lemma LouderTier(tempC: int)
    ensures Duty(PresetTable(Silent), FAN_CURVE_POINTS, tempC)
         <= Duty(PresetTable(Tier.Balanced), FAN_CURVE_POINTS, tempC)
         <= Duty(PresetTable(Aggressive), FAN_CURVE_POINTS, tempC)
    ensures Duty(PresetTable(Silent), FAN_CURVE_POINTS, 60) < Duty(PresetTable(Tier.Balanced), FAN_CURVE_POINTS, 60)
         < Duty(PresetTable(Aggressive), FAN_CURVE_POINTS, 60)
  {
    var silent, balanced, aggressive := PresetTable(Silent), PresetTable(Tier.Balanced), PresetTable(Aggressive);
    SilentIsQuieter();
    BalancedIsQuieter();
    HotterPoints(silent, 2, FAN_CURVE_POINTS, 60);
    HotterPoints(balanced, 2, FAN_CURVE_POINTS, 60);
    HotterPoints(aggressive, 3, FAN_CURVE_POINTS, 60);
    assert silent[1] == FanPoint(58, 28) && balanced[1] == FanPoint(54, 50) && aggressive[2] == FanPoint(55, 135);
    hide PresetTable, Quieter;
    DutyOrder(silent, balanced, FAN_CURVE_POINTS, tempC);
    DutyOrder(balanced, aggressive, FAN_CURVE_POINTS, tempC);
  }
}
