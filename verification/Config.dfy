/** Repair of operator-supplied configuration. */
module Config {
  import opened Units
  import opened Domain

  const DEFAULT_THRESHOLDS := Thresholds(Finite(0.33), Finite(0.67))
  const DEFAULT_GPU_FRACTIONS := GpuFractions(Finite(0.55), Finite(0.80), Finite(1.0))
  const DEFAULT_SPPT_FACTOR := Finite(1.15)
  const DEFAULT_FPPT_FACTOR := Finite(1.25)
  const DEFAULT_EFFICIENCY := Finite(0.30)

  function ClampUnit(f: Float): Float
    requires f.Finite?
  {
    if f.r < 0.0 then Finite(0.0) else if f.r > 1.0 then Finite(1.0) else f
  }

  function SanitizeThresholds(t: Thresholds): Thresholds {
    if !t.lowFrac.IsFinite() || !t.highFrac.IsFinite() then DEFAULT_THRESHOLDS
    else
      var low, high := ClampUnit(t.lowFrac), ClampUnit(t.highFrac);
      if low.r > high.r then DEFAULT_THRESHOLDS else Thresholds(low, high)
  }

  function SanitizeFractions(g: GpuFractions): GpuFractions {
    if !g.silent.IsFinite() || !g.balanced.IsFinite() || !g.aggressive.IsFinite() then DEFAULT_GPU_FRACTIONS
    else
      var s, b, a := ClampUnit(g.silent), ClampUnit(g.balanced), ClampUnit(g.aggressive);
      if s.r > b.r || b.r > a.r then DEFAULT_GPU_FRACTIONS else GpuFractions(s, b, a)
  }

  function SanitizeFactor(f: Float, default: Float): Float {
    if f.IsFinite() && f.r >= 1.0 then f else default
  }

  function Sanitize(c: RuntimeConfig): RuntimeConfig {
    RuntimeConfig(
      SanitizeThresholds(c.thresholds),
      SanitizeFactor(c.spptFactor, DEFAULT_SPPT_FACTOR),
      SanitizeFactor(c.fpptFactor, DEFAULT_FPPT_FACTOR),
      SanitizeFractions(c.gpuFractions),
      if c.efficiencyFrac.IsFinite() then ClampUnit(c.efficiencyFrac) else DEFAULT_EFFICIENCY)
  }

  predicate InUnit(f: Float) {
    f.Finite? && 0.0 <= f.r <= 1.0
  }

  /** What the rest of the daemon relies on after repair. */
  predicate Sane(c: RuntimeConfig) {
    && InUnit(c.thresholds.lowFrac) && InUnit(c.thresholds.highFrac)
    && c.thresholds.lowFrac.r <= c.thresholds.highFrac.r
    && c.spptFactor.Finite? && c.spptFactor.r >= 1.0
    && c.fpptFactor.Finite? && c.fpptFactor.r >= 1.0
    && InUnit(c.gpuFractions.silent) && InUnit(c.gpuFractions.balanced) && InUnit(c.gpuFractions.aggressive)
    && c.gpuFractions.silent.r <= c.gpuFractions.balanced.r <= c.gpuFractions.aggressive.r
    && InUnit(c.efficiencyFrac)
  }

  /** Repair always yields a sane configuration, and touches exactly the configurations that are not. */
  lemma SanitizeRepairs(c: RuntimeConfig)
    ensures Sane(Sanitize(c))
    ensures Sanitize(c) == c <==> Sane(c)
  {
  }

  /** The unit value closest to a finite number. */
  predicate Closest(f: Float, r: Float) {
    f.Finite? && r.Finite? && r.r == (if f.r < 0.0 then 0.0 else if 1.0 < f.r then 1.0 else f.r)
  }

  /** Clamping does not put them in the wrong order: they are ordered, or beyond the same end. */
  predicate Orderable(f: Float, g: Float) {
    f.Finite? && g.Finite? && (f.r <= g.r || 1.0 <= g.r || f.r <= 0.0)
  }

  /** How far repair goes: each group of values is repaired by itself, to the closest unit values where these are
      ordered and to the defaults where they are not; a factor that is no number or below one falls back alone. */
  lemma SanitizeIsLocal(c: RuntimeConfig)
    ensures var r, t := Sanitize(c).thresholds, c.thresholds;
            if Orderable(t.lowFrac, t.highFrac) then Closest(t.lowFrac, r.lowFrac) && Closest(t.highFrac, r.highFrac)
            else r == DEFAULT_THRESHOLDS
    ensures var r, g := Sanitize(c).gpuFractions, c.gpuFractions;
            if Orderable(g.silent, g.balanced) && Orderable(g.balanced, g.aggressive)
            then Closest(g.silent, r.silent) && Closest(g.balanced, r.balanced) && Closest(g.aggressive, r.aggressive)
            else r == DEFAULT_GPU_FRACTIONS
    ensures var r, f := Sanitize(c).spptFactor, c.spptFactor;
            r == if f.Finite? && f.r >= 1.0 then f else DEFAULT_SPPT_FACTOR
    ensures var r, f := Sanitize(c).fpptFactor, c.fpptFactor;
            r == if f.Finite? && f.r >= 1.0 then f else DEFAULT_FPPT_FACTOR
    ensures var r, f := Sanitize(c).efficiencyFrac, c.efficiencyFrac;
            if f.Finite? then Closest(f, r) else r == DEFAULT_EFFICIENCY
  {
  }

  /** A unit fraction of a whole, rounded, never exceeds the whole. */
  lemma RoundedWithin(n: U32, f: Float)
    requires InUnit(f)
    ensures ScaleRounded(n, f) <= n
  {
    var x := n as real * f.r;
    assert x <= n as real;
    if x > 0.0 {
      assert (x + 0.5).Floor <= n;
    }
  }

  lemma UnitProduct(x: real, r: real)
    requires x >= 0.0 && 0.0 <= r <= 1.0
    ensures 0.0 <= x * r <= x
  {
  }

  lemma ProductWithin(n: U32, r: real)
    requires 0.0 <= r <= 1.0
    ensures 0.0 <= Product(n, r) <= n as real
  {
    UnitProduct(n as real, r);
  }

  lemma RoundNear(n: U32, r: real)
    requires 0.0 <= r <= n as real
    ensures r - 0.5 < RoundToU32(r) as real <= r + 0.5
  {
    if r > 0.0 {
      assert (r + 0.5).Floor <= n;
    }
  }

  /** And it is the nearest whole number. */
  lemma RoundedNear(n: U32, f: Float)
    requires InUnit(f)
    ensures Product(n, f.r) - 0.5 < ScaleRounded(n, f) as real <= Product(n, f.r) + 0.5
  {
    ProductWithin(n, f.r);
    hide RoundToU32, Product;
    RoundNear(n, Product(n, f.r));
  }
}
