/** Cooling tier inferred from the power target, and the GPU ceiling for a tier. */
module Inference {
  import opened Units
  import opened Domain

  function InferTier(target: PowerTarget, limits: PowerLimits, thresholds: Thresholds): Tier {
    var range := SaturatingSub(limits.splMax, limits.splMin);
    if range == 0 then Tier.Balanced
    else
      var fraction := Finite(SaturatingSub(target.spl, limits.splMin) as real / range as real);
      if fraction.Less(thresholds.lowFrac) then Tier.Silent
      else if fraction.Less(thresholds.highFrac) then Tier.Balanced
      else Tier.Aggressive
  }

  function TierFraction(tier: Tier, fractions: GpuFractions): Float {
    match tier
    case Silent => fractions.silent
    case Balanced => fractions.balanced
    case Aggressive => fractions.aggressive
  }

  /** The range whose ceiling lies `scaled` above the floor; the plain `u32` addition of the source wraps in a release
      build. */
  function RangeFromScaled(scaled: U32, k: GpuConstraints): GpuRange {
    var ceiling := (k.rangeMin + scaled) % U32_MODULUS;
    GpuRange(k.rangeMin, MinOf(MaxOf(ceiling, SaturatingAdd(k.rangeMin, 1)), k.rangeMax))
  }

  function RangeForTier(tier: Tier, k: GpuConstraints, fractions: GpuFractions): GpuRange {
    RangeFromScaled(ScaleRounded(SaturatingSub(k.rangeMax, k.rangeMin), TierFraction(tier, fractions)), k)
  }

  /** The concrete range behind each tier, for given hardware bounds and configuration. */
  datatype TierRanges = TierRanges(silent: GpuRange, balanced: GpuRange, aggressive: GpuRange) {
    function Of(tier: Tier): GpuRange {
      match tier
      case Silent => silent
      case Balanced => balanced
      case Aggressive => aggressive
    }
  }

  function ResolveTiers(k: GpuConstraints, fractions: GpuFractions): TierRanges {
    TierRanges(RangeForTier(Silent, k, fractions), RangeForTier(Tier.Balanced, k, fractions),
               RangeForTier(Aggressive, k, fractions))
  }

  predicate ValidGpuRange(r: GpuRange, k: GpuConstraints) {
    && r.minMhz < r.maxMhz
    && k.rangeMin <= r.minMhz <= k.rangeMax
    && k.rangeMin <= r.maxMhz <= k.rangeMax
  }

  predicate Offers(k: GpuConstraints, clock: int) {
    k.rangeMin <= clock <= k.rangeMax
  }

  /** A range is valid exactly if it has some width and every clock in it is one the device offers. */
  lemma ValidIsWithin(r: GpuRange, k: GpuConstraints)
    ensures ValidGpuRange(r, k) <==>
              r.minMhz < r.maxMhz && forall clock :: r.minMhz <= clock <= r.maxMhz ==> Offers(k, clock)
  {
    assert Offers(k, r.minMhz) && Offers(k, r.maxMhz) && r.minMhz < r.maxMhz ==> ValidGpuRange(r, k);
  }
}
