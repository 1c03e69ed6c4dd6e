/** Value types shared by every layer: fixed-width unsigned integers, milliwatts,
    a model of 32-bit floats, and the error-carrying result type. */
module Units {

  const U32_MODULUS: int := 0x1_0000_0000
  const U32_MAX: U32 := 0xFFFF_FFFF

  type U32 = n: int | 0 <= n < 0x1_0000_0000
  type U8 = n: int | 0 <= n < 256

  const MILLIWATTS_PER_WATT: U32 := 1000

  type Milliwatts = U32

  datatype Option<+T> = None | Some(value: T)

  datatype HpdError = InvariantViolation | FeatureUnsupported | BackendFailure

  datatype Result<+T> = Ok(value: T) | Err(error: HpdError) {
    predicate IsFailure() {
      Err?
    }

    function PropagateFailure<U>(): Result<U>
      requires Err?
    {
      Err(error)
    }

    function Extract(): T
      requires Ok?
    {
      value
    }
  }

  function MinOf(a: int, b: int): int {
    if a < b then a else b
  }

  function MaxOf(a: int, b: int): int {
    if a < b then b else a
  }

  function SaturatingAdd(a: U32, b: U32): U32 {
    if a + b <= U32_MAX then a + b else U32_MAX
  }

  function SaturatingSub(a: U32, b: U32): U32 {
    if a < b then 0 else a - b
  }

  /** Checked conversion to milliwatts: an overflowing product is an error, never a wrap. */
  function FromWatts(watts: U32): Result<Milliwatts> {
    if watts * MILLIWATTS_PER_WATT <= U32_MAX
    then Ok(watts * MILLIWATTS_PER_WATT)
    else Err(InvariantViolation)
  }

  /** Truncating conversion to whole watts. */
  function AsWatts(mw: Milliwatts): U32 {
    mw / MILLIWATTS_PER_WATT
  }

  lemma WattsRoundTrip(mw: Milliwatts)
    ensures FromWatts(AsWatts(mw)).Ok?
    ensures 0 <= mw - FromWatts(AsWatts(mw)).value < MILLIWATTS_PER_WATT
    ensures FromWatts(AsWatts(mw)).value == mw <==> mw % MILLIWATTS_PER_WATT == 0
  {
  }

  /** A 32-bit float as an exact real plus its special values; rounding is not modelled. */
  datatype Float = Finite(r: real) | PosInf | NegInf | NaN {
    predicate IsFinite() {
      Finite?
    }

    /** `this < other`; any comparison with NaN is false. */
    predicate Less(other: Float) {
      match (this, other)
      case (NaN, _) => false
      case (_, NaN) => false
      case (Finite(a), Finite(b)) => a < b
      case (NegInf, b) => b != NegInf
      case (_, PosInf) => this != PosInf
      case _ => false
    }
  }

  /** NaN compares with nothing, itself included; everything else is in one strict order from one infinity to the
      other. */
  lemma LessIsOrder(a: Float, b: Float, c: Float)
    ensures a.Less(b) ==> !b.Less(a) && a != NaN && b != NaN
    ensures a.Less(b) && b.Less(c) ==> a.Less(c)
    ensures a.Less(b) || b.Less(a) <==> a != b && a != NaN && b != NaN
    ensures a.Finite? ==> NegInf.Less(a) && a.Less(PosInf)
    ensures a.Finite? && b.Finite? ==> (a.Less(b) <==> a.r < b.r)
  {
  }

  /** The `as u32` cast: truncates toward zero and saturates at both ends. */
  function CastToU32(r: real): U32 {
    if r <= 0.0 then 0
    else if r >= U32_MODULUS as real then U32_MAX
    else r.Floor
  }

  /** The cast is the largest 32-bit value that is not above its argument, or zero if there is none. */
  lemma CastIsLargest(r: real, k: U32)
    ensures CastToU32(r) == 0 || CastToU32(r) as real <= r
    ensures k as real <= r ==> k <= CastToU32(r)
  {
  }

  /** `.round() as u32`: half away from zero, then the saturating cast. */
  function RoundToU32(r: real): U32 {
    if r <= 0.0 then 0 else CastToU32((r + 0.5).Floor as real)
  }

  function Gap(r: real, k: U32): real {
    if r < k as real then k as real - r else r - k as real
  }

  /** Rounding picks the nearest 32-bit value, the upper one of two that are equally near. */
  lemma RoundIsNearest(r: real, k: U32)
    ensures Gap(r, RoundToU32(r)) <= Gap(r, k)
    ensures Gap(r, RoundToU32(r)) == Gap(r, k) ==> k <= RoundToU32(r)
  {
  }

  function Product(n: U32, r: real): real {
    n as real * r
  }

  /** `(n as f32 * f) as u32`; NaN casts to zero, and `0 * inf` is NaN. */
  function ScaleTruncated(n: U32, f: Float): U32 {
    match f
    case Finite(r) => CastToU32(Product(n, r))
    case PosInf => if n == 0 then 0 else U32_MAX
    case _ => 0
  }

  /** `(n as f32 * f).round() as u32`. */
  function ScaleRounded(n: U32, f: Float): U32 {
    match f
    case Finite(r) => RoundToU32(Product(n, r))
    case PosInf => if n == 0 then 0 else U32_MAX
    case _ => 0
  }
  /** A factor that is not a number scales to nothing, an infinite one to the largest value. */
  lemma UnusableFactor(n: U32, f: Float)
    requires !f.IsFinite()
    ensures ScaleTruncated(n, f) == ScaleRounded(n, f) == if f == PosInf && n > 0 then U32_MAX else 0
  {
  }
}
