/** The hardware the executor writes to, as an adversary: any write may be refused and leave its
    rail in any condition, and any platform-profile write may silently drop the enforced power
    envelope and the custom fan curve. */
module Hardware {
  import opened Units
  import opened Domain
  import opened FanTables
  import opened Inference

  /** Power rails in the kernel's whole watts. */
  datatype Registers = Registers(spl: U32, sppt: U32, fppt: U32)

  /** `enforced` says whether the controller still honours the registers it reports. */
  datatype Hw = Hw(
    regs: Registers,
    enforced: bool,
    profile: ProfileName,
    charge: U8,
    curve: Option<CurvePair>,
    gpu: Option<GpuRange>,
    gpuBounds: GpuConstraints)

  /** Optional capabilities; the power envelope is always present. */
  datatype Caps = Caps(profile: bool, charge: bool, curve: bool, gpu: bool)

  /** How one write ends. `Skipped` is an unreadable GPU clock range, which the executor only logs. */
  datatype Outcome =
    | Landed(dropsEnvelope: bool, dropsCurve: bool)
    | Refused(residue: Hw, readable: bool)
    | Skipped

  datatype Dispatched = Dispatched(hw: Hw, sync: Option<Transition>)

  // ---- The rails -------------------------------------------------------

  /** A target without an FPPT leaves that register alone. */
  function Write(regs: Registers, t: PowerTarget): Registers {
    Registers(AsWatts(t.spl), AsWatts(t.sppt), if t.fppt.Some? then AsWatts(t.fppt.value) else regs.fppt)
  }

  function ReadTarget(regs: Registers): Result<PowerTarget> {
    var spl :- FromWatts(regs.spl);
    var sppt :- FromWatts(regs.sppt);
    var fppt :- FromWatts(regs.fppt);
    Ok(PowerTarget(spl, sppt, Some(fppt)))
  }

  function ReadCurve(stored: Option<CurvePair>): Option<FanSelection> {
    if stored.Some? then Some(NameOf(stored.value)) else None
  }

  function AfterProfileWrite(hw: Hw, dropsEnvelope: bool, dropsCurve: bool): Hw {
    hw.(enforced := hw.enforced && !dropsEnvelope, curve := if dropsCurve then None else hw.curve)
  }

  // ---- One effect ------------------------------------------------------

  function DispatchEnvelope(target: PowerTarget, hw: Hw, o: Outcome): Dispatched {
    match o
    case Refused(residue, readable) =>
      var found := ReadTarget(residue.regs);
      Dispatched(
        hw.(regs := residue.regs, enforced := residue.enforced),
        if readable && found.Ok? then Some(SyncPowerTarget(found.value)) else None)
    case _ => Dispatched(hw.(regs := Write(hw.regs, target), enforced := true), None)
  }

  function DispatchProfile(profile: ProfileName, hw: Hw, o: Outcome): Dispatched {
    match o
    case Refused(residue, readable) =>
      Dispatched(
        AfterProfileWrite(hw, !residue.enforced, residue.curve.None?).(profile := residue.profile),
        if readable then Some(SyncPlatformProfile(residue.profile)) else None)
    case Landed(dropsEnvelope, dropsCurve) =>
      Dispatched(AfterProfileWrite(hw, dropsEnvelope, dropsCurve).(profile := profile), None)
    case Skipped => Dispatched(hw.(profile := profile), None)
  }

  function DispatchCharge(threshold: U8, hw: Hw, o: Outcome): Dispatched {
    match o
    case Refused(residue, readable) =>
      Dispatched(hw.(charge := residue.charge), if readable then Some(SyncChargeThreshold(residue.charge)) else None)
    case _ => Dispatched(hw.(charge := threshold), None)
  }

  function DispatchCurve(curve: Option<CurvePair>, hw: Hw, o: Outcome): Dispatched {
    match o
    case Refused(residue, readable) =>
      Dispatched(hw.(curve := residue.curve), if readable then Some(SyncFanCurve(ReadCurve(residue.curve))) else None)
    case _ => Dispatched(hw.(curve := curve), None)
  }

  function DispatchGpu(range: Option<GpuRange>, hw: Hw, o: Outcome): Dispatched {
    match o
    case Refused(residue, readable) =>
      Dispatched(hw.(gpu := residue.gpu), if readable then Some(SyncGpuClockRange(residue.gpu)) else None)
    case _ => Dispatched(hw.(gpu := range), None)
  }

  /** Dispatch one effect; a missing capability makes it a no-op, and saving touches no hardware. */
  function Dispatch(e: Effect, hw: Hw, o: Outcome, caps: Caps, ranges: TierRanges): Dispatched {
    match e
    case ApplyEnvelope(target) => DispatchEnvelope(target, hw, o)
    case ApplyProfile(profile) => if caps.profile then DispatchProfile(profile, hw, o) else Dispatched(hw, None)
    case ApplyCharge(threshold) => if caps.charge then DispatchCharge(threshold, hw, o) else Dispatched(hw, None)
    case ApplyCurve(selection) =>
      if caps.curve then DispatchCurve(Some(Curves(selection)), hw, o) else Dispatched(hw, None)
    case DropCurve => if caps.curve then DispatchCurve(None, hw, o) else Dispatched(hw, None)
    case ApplyGpu(tier) =>
      if !caps.gpu || o.Skipped? then Dispatched(hw, None)
      else DispatchGpu(Some(ranges.Of(tier)), hw, o)
    case DropGpu => if caps.gpu then DispatchGpu(None, hw, o) else Dispatched(hw, None)
    case PersistState => Dispatched(hw, None)
  }

  // ---- Agreement between the published state and the hardware -----------

  /** The registers hold the target, at the kernel's whole-watt resolution. */
  predicate Holds(regs: Registers, t: PowerTarget) {
    && regs.spl == AsWatts(t.spl)
    && regs.sppt == AsWatts(t.sppt)
    && (t.fppt.Some? ==> regs.fppt == AsWatts(t.fppt.value))
  }

  predicate ProfileAgrees(s: ProfileState, hw: Hw, caps: Caps) {
    caps.profile ==> hw.profile == s.profile
  }

  predicate ChargeAgrees(s: ProfileState, hw: Hw, caps: Caps) {
    caps.charge ==> hw.charge == s.charge
  }

  /** What a selection looks like on the fan node. */
  function CurveValue(selection: Option<FanSelection>): Option<CurvePair> {
    if selection.Some? then Some(Curves(selection.value)) else None
  }

  predicate CurveMatches(selection: Option<FanSelection>, stored: Option<CurvePair>) {
    stored == CurveValue(selection)
  }

  predicate CurveAgrees(s: ProfileState, hw: Hw, caps: Caps) {
    caps.curve ==> CurveMatches(s.curve, hw.curve)
  }

  /** The clock range behind a selection. */
  function RangeValue(selection: Option<GpuSelection>, ranges: TierRanges): Option<GpuRange> {
    match selection
    case None => None
    case Some(PresetClock(tier)) => Some(ranges.Of(tier))
    case Some(Unmanaged(range)) => Some(range)
  }

  predicate GpuMatches(selection: Option<GpuSelection>, range: Option<GpuRange>, ranges: TierRanges) {
    range == RangeValue(selection, ranges)
  }

  predicate GpuAgrees(s: ProfileState, hw: Hw, caps: Caps, ranges: TierRanges) {
    caps.gpu ==> GpuMatches(s.gpu, hw.gpu, ranges)
  }

  /** Published state and hardware agree as far as the hardware can be read back. */
  predicate ReadsBack(s: ProfileState, hw: Hw, caps: Caps, ranges: TierRanges) {
    && Holds(hw.regs, s.target)
    && ProfileAgrees(s, hw, caps)
    && ChargeAgrees(s, hw, caps)
    && CurveAgrees(s, hw, caps)
    && GpuAgrees(s, hw, caps, ranges)
  }

  /** Full agreement: it reads back, and the envelope is really enforced. */
  predicate Coherent(s: ProfileState, hw: Hw, caps: Caps, ranges: TierRanges) {
    ReadsBack(s, hw, caps, ranges) && hw.enforced
  }
}
