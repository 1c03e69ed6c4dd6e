/** The daemon's value types: what a state, a transition and an effect are. */
module Domain {
  import opened Units

  // ---- Power envelope --------------------------------------------------

  datatype PowerTarget = PowerTarget(spl: Milliwatts, sppt: Milliwatts, fppt: Option<Milliwatts>)

  datatype PowerLimits = PowerLimits(
    splMin: Milliwatts, splMax: Milliwatts,
    spptMin: Milliwatts, spptMax: Milliwatts,
    fpptMin: Milliwatts, fpptMax: Milliwatts)

  datatype TdpPreset = Eco | Efficiency | Balanced | Max

  // ---- Platform profile ------------------------------------------------

  datatype ProfileName = PowerSaver | Balanced | Performance | Custom(name: string)

  // ---- Fan curve -------------------------------------------------------

  const FAN_CURVE_POINTS: nat := 8

  datatype FanPoint = FanPoint(tempC: U8, pwm: U8)

  type FanCurve = c: seq<FanPoint> | |c| == FAN_CURVE_POINTS witness seq(8, _ => FanPoint(0, 0))

  /** The shared cooling / GPU tier. */
  datatype Tier = Silent | Balanced | Aggressive

  datatype FanSelection = PresetCurve(tier: Tier) | CustomCurve(cpu: FanCurve, gpu: FanCurve)

  // ---- GPU clock -------------------------------------------------------

  datatype GpuRange = GpuRange(minMhz: U32, maxMhz: U32)

  datatype GpuConstraints = GpuConstraints(rangeMin: U32, rangeMax: U32)

  datatype GpuSelection = PresetClock(tier: Tier) | Unmanaged(range: GpuRange)

  // ---- Runtime configuration -------------------------------------------

  datatype Thresholds = Thresholds(lowFrac: Float, highFrac: Float)

  datatype GpuFractions = GpuFractions(silent: Float, balanced: Float, aggressive: Float)

  datatype RuntimeConfig = RuntimeConfig(
    thresholds: Thresholds,
    spptFactor: Float,
    fpptFactor: Float,
    gpuFractions: GpuFractions,
    efficiencyFrac: Float)

  // ---- State -----------------------------------------------------------

  /** The user's battery preferences, captured when AC takes over. */
  datatype DcSnapshot = DcSnapshot(
    target: PowerTarget,
    profile: ProfileName,
    curve: Option<FanSelection>,
    fanFollows: bool,
    gpu: Option<GpuSelection>,
    gpuFollows: bool)

  datatype ProfileState = ProfileState(
    target: PowerTarget,
    profile: ProfileName,
    charge: U8,
    fanFollows: bool,
    lastDc: Option<DcSnapshot>,
    acMaxPerformance: bool,
    curve: Option<FanSelection>,
    gpu: Option<GpuSelection>,
    gpuFollows: bool,
    acConnected: bool,
    acLocked: bool)
  {
    /** The AC = maximum performance lock is in force. */
    predicate Locked() {
      acConnected && acMaxPerformance
    }

    function Snapshot(): DcSnapshot {
      DcSnapshot(target, profile, curve, fanFollows, gpu, gpuFollows)
    }
  }

  const DEFAULT_CHARGE_THRESHOLD: U8 := 80

  // ---- Transitions and effects -----------------------------------------

  datatype Transition =
    | SetPreset(preset: TdpPreset)
    | SetSpl(watts: U32)
    | SetEnvelope(envelope: PowerTarget)
    | SetProfile(newProfile: ProfileName)
    | SetCoolingLevel(level: Tier)
    | SetCustomFanCurve(cpu: FanCurve, gpuFan: FanCurve)
    | EnableGpuAutoFollow
    | ResetGpuClocks
    | SyncGpuClockRange(realRange: Option<GpuRange>)
    | ChargeThresholdChanged(threshold: U8)
    | SyncPowerTarget(realTarget: PowerTarget)
    | SyncPlatformProfile(realProfile: ProfileName)
    | SyncChargeThreshold(realThreshold: U8)
    | SyncFanCurve(realCurve: Option<FanSelection>)
    | AcPowerChanged(plugged: bool)
    | SystemResumed
    | SetAcMaxPerformance(enabled: bool)
    | EnableFanAuto
    | ResetFanCurve
    | RestoreDefaults
    | ConfigReload(config: RuntimeConfig)
    | Shutdown
  {
    /** Rollbacks that the executor injects after a refused hardware write. */
    predicate IsSync() {
      SyncGpuClockRange? || SyncPowerTarget? || SyncPlatformProfile? || SyncChargeThreshold? || SyncFanCurve?
    }

    /** User writes that the AC lock suppresses. */
    predicate IsLockedWrite() {
      || SetSpl? || SetPreset? || SetEnvelope? || SetProfile? || SetCoolingLevel? || SetCustomFanCurve?
      || EnableFanAuto? || ResetFanCurve? || EnableGpuAutoFollow? || ResetGpuClocks? || RestoreDefaults?
    }
  }

  datatype Effect =
    | ApplyEnvelope(target: PowerTarget)
    | ApplyProfile(profile: ProfileName)
    | ApplyCharge(threshold: U8)
    | ApplyCurve(selection: FanSelection)
    | DropCurve
    | ApplyGpu(tier: Tier)
    | DropGpu
    | PersistState
}
