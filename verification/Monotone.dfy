/** A higher power target never asks for less: less boost, a quieter tier or a lower GPU ceiling. */
module Monotone {
  import opened Units
  import opened Domain
  import opened Config
  import opened Inference
  import opened Envelope

  lemma ProductOrder(x: real, y: real, r: real)
    requires x <= y && r >= 0.0
    ensures x * r <= y * r
  {
  }

  lemma MultiplicandOrder(m: U32, n: U32, r: real)
    requires m <= n && r >= 0.0
    ensures Product(m, r) <= Product(n, r)
  {
    ProductOrder(m as real, n as real, r);
  }

  lemma FractionOrder(n: U32, r: real, s: real)
    requires r <= s
    ensures Product(n, r) <= Product(n, s)
  {
    ProductOrder(r, s, n as real);
  }

  lemma CastOrder(x: real, y: real)
    requires x <= y
    ensures CastToU32(x) <= CastToU32(y)
  {
  }

  lemma FloorOrder(x: real, y: real)
    requires x <= y
    ensures x.Floor <= y.Floor
  {
  }

  lemma RoundOrder(x: real, y: real)
    requires x <= y
    ensures RoundToU32(x) <= RoundToU32(y)
  {
    if x > 0.0 {
      FloorOrder(x + 0.5, y + 0.5);
      var p, q := (x + 0.5).Floor, (y + 0.5).Floor;
      assert RoundToU32(x) == CastToU32(p as real) && RoundToU32(y) == CastToU32(q as real);
      CastOrder(p as real, q as real);
    }
  }

  lemma TruncatedOrder(m: U32, n: U32, f: Float)
    requires m <= n && f.Finite? && f.r >= 0.0
    ensures ScaleTruncated(m, f) <= ScaleTruncated(n, f)
  {
    hide CastToU32;
    MultiplicandOrder(m, n, f.r);
    CastOrder(Product(m, f.r), Product(n, f.r));
  }

  lemma RoundedOrder(n: U32, f: Float, g: Float)
    requires f.Finite? && g.Finite? && f.r <= g.r
    ensures ScaleRounded(n, f) <= ScaleRounded(n, g)
  {
    hide Product, RoundToU32;
    FractionOrder(n, f.r, g.r);
    RoundOrder(Product(n, f.r), Product(n, g.r));
  }

  lemma BoostMonotone(a: Milliwatts, b: Milliwatts, l: PowerLimits, config: RuntimeConfig)
    requires a <= b && Sane(config)
    ensures var x, y := DeriveBoosted(a, l, config), DeriveBoosted(b, l, config);
            x.sppt <= y.sppt && x.fppt.value <= y.fppt.value
  {
    TruncatedOrder(a, b, config.spptFactor);
    TruncatedOrder(a, b, config.fpptFactor);
  }

  function Level(t: Tier): nat {
    match t
    case Silent => 0
    case Balanced => 1
    case Aggressive => 2
  }

  lemma TierMonotone(a: PowerTarget, b: PowerTarget, l: PowerLimits, thresholds: Thresholds)
    requires a.spl <= b.spl
    requires InUnit(thresholds.lowFrac) && InUnit(thresholds.highFrac) && thresholds.lowFrac.r <= thresholds.highFrac.r
    ensures Level(InferTier(a, l, thresholds)) <= Level(InferTier(b, l, thresholds))
  {
    var range := SaturatingSub(l.splMax, l.splMin);
    if range != 0 {
      DivisionOrder(SaturatingSub(a.spl, l.splMin) as real, SaturatingSub(b.spl, l.splMin) as real, range as real);
    }
  }

  /** The three bands, on the SPL above the floor and without division: quiet below the low threshold, aggressive from
      the high one on, balanced in between. An SPL at or below the floor counts as the floor. */
  lemma TierBands(t: PowerTarget, l: PowerLimits, thresholds: Thresholds)
    requires l.splMin < l.splMax
    requires InUnit(thresholds.lowFrac) && InUnit(thresholds.highFrac) && thresholds.lowFrac.r <= thresholds.highFrac.r
    ensures var above, range := MaxOf(t.spl - l.splMin, 0) as real, (l.splMax - l.splMin) as real;
            && (InferTier(t, l, thresholds) == Silent <==> above < thresholds.lowFrac.r * range)
            && (InferTier(t, l, thresholds) == Tier.Balanced <==>
                  thresholds.lowFrac.r * range <= above < thresholds.highFrac.r * range)
            && (InferTier(t, l, thresholds) == Aggressive <==> thresholds.highFrac.r * range <= above)
  {
    var above, range := MaxOf(t.spl - l.splMin, 0) as real, (l.splMax - l.splMin) as real;
    QuotientBelow(above, thresholds.lowFrac.r, range);
    QuotientBelow(above, thresholds.highFrac.r, range);
    ProductOrder(thresholds.lowFrac.r, thresholds.highFrac.r, range);
  }

  lemma PositiveProduct(x: real, y: real)
    requires x > 0.0 && y > 0.0
    ensures x * y > 0.0
  {
  }

  lemma QuotientBelow(x: real, f: real, d: real)
    requires d > 0.0
    ensures x / d < f <==> x < f * d
  {
    assert x == (x / d) * d;
  }

  lemma DivisionOrder(x: real, y: real, d: real)
    requires x <= y && d > 0.0
    ensures x / d <= y / d
  {
    ProductOrder(x, y, 1.0 / d);
    assert x / d == x * (1.0 / d) && y / d == y * (1.0 / d);
  }

  lemma ScaledRange(scaled: U32, more: U32, k: GpuConstraints)
    requires k.rangeMin < k.rangeMax
    requires scaled <= more <= k.rangeMax - k.rangeMin
    ensures ValidGpuRange(RangeFromScaled(scaled, k), k)
    ensures RangeFromScaled(scaled, k).maxMhz <= RangeFromScaled(more, k).maxMhz
  {
  }

  /** Whatever comes out of the multiplication, rounding and wrap-around included, the backend never rejects the
      range. */
  lemma RangeAlwaysValid(tier: Tier, k: GpuConstraints, fractions: GpuFractions)
    requires k.rangeMin < k.rangeMax
    ensures forall scaled: U32 :: ValidGpuRange(RangeFromScaled(scaled, k), k)
    ensures ValidGpuRange(RangeForTier(tier, k, fractions), k)
  {
  }

  /** With repaired fractions and exact products the addition cannot wrap. */
  lemma CeilingNeverWraps(tier: Tier, k: GpuConstraints, fractions: GpuFractions)
    requires k.rangeMin < k.rangeMax
    requires InUnit(TierFraction(tier, fractions))
    ensures k.rangeMin + ScaleRounded(SaturatingSub(k.rangeMax, k.rangeMin),
                                      TierFraction(tier, fractions)) <= k.rangeMax
  {
    RoundedWithin(k.rangeMax - k.rangeMin, TierFraction(tier, fractions));
  }

  /** Between the ends too: each tier gets its own fraction of the span above the device's floor, to the nearest MHz,
      but never less than one. */
  lemma CeilingIsFraction(k: GpuConstraints, fractions: GpuFractions)
    requires k.rangeMin < k.rangeMax
    ensures NearFraction(RangeForTier(Silent, k, fractions), k, fractions.silent)
    ensures NearFraction(RangeForTier(Tier.Balanced, k, fractions), k, fractions.balanced)
    ensures NearFraction(RangeForTier(Aggressive, k, fractions), k, fractions.aggressive)
    ensures forall tier :: ResolveTiers(k, fractions).Of(tier) == RangeForTier(tier, k, fractions)
  {
    CeilingNearFraction(Silent, k, fractions);
    CeilingNearFraction(Tier.Balanced, k, fractions);
    CeilingNearFraction(Aggressive, k, fractions);
  }

  predicate NearFraction(r: GpuRange, k: GpuConstraints, f: Float) {
    InUnit(f) ==>
      var above, wanted := (r.maxMhz - k.rangeMin) as real, Product(SaturatingSub(k.rangeMax, k.rangeMin), f.r);
      r.minMhz == k.rangeMin && (if wanted < 0.5 then above == 1.0 else wanted - 0.5 < above <= wanted + 0.5)
  }

  lemma CeilingNearFraction(tier: Tier, k: GpuConstraints, fractions: GpuFractions)
    requires k.rangeMin < k.rangeMax
    ensures NearFraction(RangeForTier(tier, k, fractions), k, TierFraction(tier, fractions))
  {
    var span, f := k.rangeMax - k.rangeMin, TierFraction(tier, fractions);
    if InUnit(f) {
      hide ScaleRounded, TierFraction, RangeFromScaled, Product;
      RoundedWithin(span, f);
      RoundedNear(span, f);
      NearFromScaled(ScaleRounded(span, f), Product(span, f.r), k);
    }
  }

  lemma NearFromScaled(scaled: U32, wanted: real, k: GpuConstraints)
    requires k.rangeMin < k.rangeMax && scaled <= k.rangeMax - k.rangeMin
    requires wanted - 0.5 < scaled as real <= wanted + 0.5
    ensures var r := RangeFromScaled(scaled, k);
            var above := (r.maxMhz - k.rangeMin) as real;
            r.minMhz == k.rangeMin && (if wanted < 0.5 then above == 1.0 else wanted - 0.5 < above <= wanted + 0.5)
  {
  }

  lemma CeilingMonotone(a: Tier, b: Tier, k: GpuConstraints, fractions: GpuFractions)
    requires k.rangeMin < k.rangeMax && Level(a) <= Level(b)
    requires InUnit(fractions.silent) && InUnit(fractions.balanced) && InUnit(fractions.aggressive)
    requires fractions.silent.r <= fractions.balanced.r <= fractions.aggressive.r
    ensures RangeForTier(a, k, fractions).maxMhz <= RangeForTier(b, k, fractions).maxMhz
  {
    var span := k.rangeMax - k.rangeMin;
    var f, g := TierFraction(a, fractions), TierFraction(b, fractions);
    RoundedOrder(span, f, g);
    RoundedWithin(span, g);
    ScaledRange(ScaleRounded(span, f), ScaleRounded(span, g), k);
  }

  /** The two ends of the range: the floor is the quiet tier unless the low threshold is zero, the ceiling is the
      aggressive one, and a device without a range is always balanced. */
  lemma TierAtTheEnds(floor: PowerTarget, top: PowerTarget, l: PowerLimits, thresholds: Thresholds)
    requires floor.spl == l.splMin && top.spl == l.splMax
    requires InUnit(thresholds.lowFrac) && InUnit(thresholds.highFrac)
    ensures l.splMin < l.splMax && thresholds.lowFrac.r > 0.0 ==> InferTier(floor, l, thresholds) == Silent
    ensures l.splMin < l.splMax && thresholds.lowFrac.r <= thresholds.highFrac.r ==>
              InferTier(top, l, thresholds) == Aggressive
    ensures l.splMin >= l.splMax ==> InferTier(top, l, thresholds) == Tier.Balanced
  {
    if l.splMin < l.splMax {
      var range := (l.splMax - l.splMin) as real;
      QuotientBelow(0.0, thresholds.lowFrac.r, range);
      QuotientBelow(range, thresholds.lowFrac.r, range);
      QuotientBelow(range, thresholds.highFrac.r, range);
      ProductOrder(0.0, thresholds.lowFrac.r, range);
      ProductOrder(thresholds.lowFrac.r, 1.0, range);
      ProductOrder(thresholds.highFrac.r, 1.0, range);
      if thresholds.lowFrac.r > 0.0 {
        PositiveProduct(thresholds.lowFrac.r, range);
      }
    }
  }

  /** A full fraction reaches the device's own ceiling; a zero fraction still leaves a usable range. */
  lemma CeilingAtTheEnds(tier: Tier, k: GpuConstraints, fractions: GpuFractions)
    requires k.rangeMin < k.rangeMax
    ensures TierFraction(tier, fractions) == Finite(1.0) ==>
              RangeForTier(tier, k, fractions) == GpuRange(k.rangeMin, k.rangeMax)
    ensures TierFraction(tier, fractions) == Finite(0.0) ==>
              RangeForTier(tier, k, fractions) == GpuRange(k.rangeMin, k.rangeMin + 1)
  {
    var span := k.rangeMax - k.rangeMin;
    WholeFraction(span);
    assert Product(span, 0.0) == 0.0;
    hide RoundToU32;
    ZeroRounds();
  }

  lemma ZeroRounds()
    ensures RoundToU32(0.0) == 0
  {
  }

  lemma WholeFraction(n: U32)
    ensures ScaleRounded(n, Finite(1.0)) == n
  {
    assert Product(n, 1.0) == n as real;
    if n > 0 {
      assert (n as real + 0.5).Floor == n;
    }
  }

  /** The whole chain from SPL to boost rails, cooling tier and GPU ceiling, for any repaired configuration. */
  lemma MorePowerNeverLess(a: Milliwatts, b: Milliwatts, l: PowerLimits, k: GpuConstraints, raw: RuntimeConfig)
    requires a <= b && k.rangeMin < k.rangeMax
    ensures var config := Sanitize(raw);
            var x, y := DeriveBoosted(a, l, config), DeriveBoosted(b, l, config);
            var p, q := InferTier(x, l, config.thresholds), InferTier(y, l, config.thresholds);
            && x.sppt <= y.sppt && x.fppt.value <= y.fppt.value
            && Level(p) <= Level(q)
            && RangeForTier(p, k, config.gpuFractions).maxMhz <= RangeForTier(q, k, config.gpuFractions).maxMhz
            && ValidGpuRange(RangeForTier(p, k, config.gpuFractions), k)
  {
    var config := Sanitize(raw);
    SanitizeRepairs(raw);
    var x, y := DeriveBoosted(a, l, config), DeriveBoosted(b, l, config);
    BoostMonotone(a, b, l, config);
    TierMonotone(x, y, l, config.thresholds);
    CeilingMonotone(InferTier(x, l, config.thresholds), InferTier(y, l, config.thresholds), k, config.gpuFractions);
    RangeAlwaysValid(InferTier(x, l, config.thresholds), k, config.gpuFractions);
  }
}
