/** Smart-mode envelope arithmetic and the cross-rail invariants that guard every write. */
module Envelope {
  import opened Units
  import opened Domain

  /** `validate_power_envelope`: ordered rails, each inside its hardware range. */
  function Validate(target: PowerTarget, limits: PowerLimits): Result<()> {
    if target.sppt < target.spl then Err(InvariantViolation)
    else if target.fppt.Some? && target.fppt.value < target.sppt then Err(InvariantViolation)
    else if target.spl < limits.splMin || target.spl > limits.splMax then Err(InvariantViolation)
    else if target.sppt < limits.spptMin || target.sppt > limits.spptMax then Err(InvariantViolation)
    else if target.fppt.Some? && (target.fppt.value < limits.fpptMin || target.fppt.value > limits.fpptMax)
    then Err(InvariantViolation)
    else Ok(())
  }

  predicate Between(x: Milliwatts, low: Milliwatts, high: Milliwatts) {
    low <= x <= high
  }

  /** An envelope is accepted exactly when its rails are ordered and each lies in its hardware range; an FPPT that is
      not asked for is not checked. */
  lemma AcceptedIff(t: PowerTarget, l: PowerLimits)
    ensures Validate(t, l).Ok? <==>
            && t.spl <= t.sppt && Between(t.spl, l.splMin, l.splMax) && Between(t.sppt, l.spptMin, l.spptMax)
            && (t.fppt.Some? ==> t.sppt <= t.fppt.value && Between(t.fppt.value, l.fpptMin, l.fpptMax))
  {
  }

  /** The envelope for `spl` once the two boost products are known. */
  function EnvelopeFromProducts(spl: Milliwatts, spptProduct: U32, fpptProduct: U32, limits: PowerLimits): PowerTarget {
    var atCeiling := spl >= limits.splMax;
    var spptRaw := if atCeiling then limits.spptMax else MinOf(spptProduct, limits.spptMax);
    var sppt := MaxOf(MaxOf(spptRaw, spl), limits.spptMin);
    var fpptRaw := if atCeiling then limits.fpptMax else MinOf(fpptProduct, limits.fpptMax);
    var fppt := MaxOf(MaxOf(fpptRaw, sppt), limits.fpptMin);
    PowerTarget(spl, sppt, Some(fppt))
  }

  function DeriveBoosted(spl: Milliwatts, limits: PowerLimits, config: RuntimeConfig): PowerTarget {
    EnvelopeFromProducts(spl, ScaleTruncated(spl, config.spptFactor), ScaleTruncated(spl, config.fpptFactor), limits)
  }

  /** What the AC lock pins the envelope to: a function of the limits alone. */
  function ForcedMax(limits: PowerLimits): PowerTarget {
    EnvelopeFromProducts(limits.splMax, 0, 0, limits)
  }

  function PresetWatts(preset: TdpPreset, limits: PowerLimits, config: RuntimeConfig): U32 {
    var minW, maxW := AsWatts(limits.splMin), AsWatts(limits.splMax);
    match preset
    case Eco => minW
    case Efficiency => SaturatingAdd(minW, ScaleRounded(SaturatingSub(maxW, minW), config.efficiencyFrac))
    case Balanced => SaturatingAdd(minW, maxW) / 2
    case Max => maxW
  }

  /** The SPL of the Balanced preset: the midpoint of the range in whole watts, which cannot overflow. */
  function BalancedSpl(l: PowerLimits): Milliwatts {
    (AsWatts(l.splMin) + AsWatts(l.splMax)) / 2 * MILLIWATTS_PER_WATT
  }

  /** The quiet default: the envelope the Balanced preset asks for. */
  function QuietTarget(l: PowerLimits, config: RuntimeConfig): PowerTarget {
    DeriveBoosted(BalancedSpl(l), l, config)
  }

  predicate QuietFits(l: PowerLimits, config: RuntimeConfig) {
    Validate(QuietTarget(l, config), l).Ok?
  }

  /** A rail that follows a real-valued product between two bounds, losing less than a milliwatt; outside them it is the
      bound that was crossed. */
  predicate FollowsProduct(rail: int, product: real, low: int, high: int) {
    && (product < low as real ==> rail == low)
    && (low as real <= product <= high as real ==> rail as real <= product < rail as real + 1.0)
    && (low as real <= product && product > high as real ==> rail == MaxOf(low, high))
  }

  /** The same for a factor of any kind: infinity is above every bound, and NaN counts as nothing. */
  predicate FollowsFactor(rail: int, n: U32, f: Float, low: U32, high: U32) {
    match f
    case Finite(r) => FollowsProduct(rail, Product(n, r), low, high)
    case PosInf => rail == if n > 0 then MaxOf(low, high) else low
    case _ => rail == low
  }

  /** What smart mode promises about the boost rails: below the ceiling each is its own factor times the SPL as far as
      its range and the rail below allow, at the ceiling each is as high as the hardware goes. */
  predicate Boosted(t: PowerTarget, l: PowerLimits, config: RuntimeConfig) {
    && t.fppt.Some?
    && (t.spl >= l.splMax ==>
          && t.sppt == MaxOf(MaxOf(l.spptMax, t.spl), l.spptMin)
          && t.fppt.value == MaxOf(MaxOf(l.fpptMax, t.sppt), l.fpptMin))
    && (t.spl < l.splMax ==>
          && FollowsFactor(t.sppt, t.spl, config.spptFactor, MaxOf(t.spl, l.spptMin), l.spptMax)
          && FollowsFactor(t.fppt.value, t.spl, config.fpptFactor, MaxOf(t.sppt, l.fpptMin), l.fpptMax))
  }

  /** Truncation and saturation inside the clamp amount to the clamped product. */
  lemma ClampedProduct(rail: int, n: U32, f: Float, low: U32, high: U32)
    requires rail == MaxOf(MinOf(ScaleTruncated(n, f), high), low)
    ensures FollowsFactor(rail, n, f, low, high)
  {
  }

  /** The clamps one by one, for any two products. */
  lemma RailsFromProducts(spl: Milliwatts, p: U32, q: U32, l: PowerLimits)
    ensures var t := EnvelopeFromProducts(spl, p, q, l);
            && t.spl == spl && t.fppt.Some?
            && t.sppt == MaxOf(if spl >= l.splMax then l.spptMax else MinOf(p, l.spptMax), MaxOf(spl, l.spptMin))
            && t.fppt.value
            == MaxOf(if spl >= l.splMax then l.fpptMax else MinOf(q, l.fpptMax), MaxOf(t.sppt, l.fpptMin))
  {
  }

  lemma DerivedIsBoosted(spl: Milliwatts, l: PowerLimits, config: RuntimeConfig)
    ensures DeriveBoosted(spl, l, config).spl == spl && Boosted(DeriveBoosted(spl, l, config), l, config)
  {
    var t := DeriveBoosted(spl, l, config);
    RailsFromProducts(spl, ScaleTruncated(spl, config.spptFactor), ScaleTruncated(spl, config.fpptFactor), l);
    hide FollowsFactor, EnvelopeFromProducts, ScaleTruncated;
    if spl < l.splMax {
      ClampedProduct(t.sppt, spl, config.spptFactor, MaxOf(spl, l.spptMin), l.spptMax);
      ClampedProduct(t.fppt.value, spl, config.fpptFactor, MaxOf(t.sppt, l.fpptMin), l.fpptMax);
    }
  }
}
