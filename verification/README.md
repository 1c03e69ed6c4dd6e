# hpd, verified

A model of the Handheld Power Daemon's control loop and of the hardware protocols under it, with proofs of what every
run keeps. `dafny verify dfyconfig.toml` checks the whole project.

## What is modelled

**The loop.** A `Transition` is reduced to a new state and an ordered list of effects; the executor publishes the
state, then dispatches the effects one by one, and a refused write queues a `Sync*` rollback on the same bounded queue
that the executor drains.

- `Domain`, `Config`, `Inference`, `Envelope`: the daemon's values, the repair of its configuration, tier inference
  and the boost arithmetic. Fractions are exact reals with NaN and the infinities as separate values; 32-bit
  wrap-around, saturation and truncation are written out.
- `Reducer` specifies the reducer as functions without recursion; `ReducerSteps` is the reducer as it runs, with a
  working copy, pushed effects and recursion into simpler transitions, proved equal to the specification.
- `Hardware` is the other side: a write may be refused and leave its rail in any condition, and a platform-profile
  write may silently drop the *enforced* envelope and the fan curve while the registers still read back.
- `Executor` is the state machine of queue, limits, configuration, hardware and disk; `ExecutorLoop` is the main loop
  as an object, proved to move exactly as the state machine does.

**Theorems about the loop.** `Settling` and `Coherence` (hardware agreement over runs), `AcLock` (snapshot discipline,
pinned levers, the AC round trip), `Economy` (no write without a reason), `WriteOnce`, `Refusals`, `Rollback`, `Staleness` and `Divergence` (what a refused
write leaves, and for each manner of refusal exactly when rollback converges), `Overtaken` (exactly when a rollback
survives a command queued in front of it), `Unreadable` (which transitions an unreadable clock table spoils),
`PowerSource` (the lock is exactly the power source as last read or told and the preference as last asked),
`Capabilities` (rails the device lacks), `Draining` (termination), `Durability`, `GpuOptIn`, `Defaults`, `Presets`,
`Monotone`, `Levers`.

**The protocols below.** `Persistence` (crash-safe saving), `Text` and `Sysfs` (files that may fail), `PowerRails`,
`GpuTable` and `GpuProtocol` (the OverDrive table and write sequence), `FanCurves`, `Hwmon` (the node cache), and
`HoldStack` (profile holds of the power-profiles compatibility shim), which `HoldsOverAc` runs next to the executor.

## Where the code does not do what one might expect

Each of these is a lemma, and the code is modelled as it is.

- A transition that writes one rail twice can leave a stale rollback when only the first write is refused. Restoring
  the defaults does so even on hardware that leaves a refused rail as it was: the second write moves the rail, and the
  rollback reports where it used to be (`Divergence.UnchangedRailConvergesIff`). A resume that re-applies a GPU tier
  does so when a refused reset has already cleared the clock table and the factory range is not the tier's own. With
  one transition and nothing queued behind it nothing else does, whatever refusals leave (`Divergence.ConvergesIff`).
- A rollback that waits behind another command on the same rail has the last word although that command's write was
  later. It is harmless exactly if the command leaves the rail alone or ends where the rollback reports; a profile
  write that may drop the reported curve counts as touching it (`Overtaken.QueuedRollbackIff`,
  `Overtaken.ChargeTwice`).
- An unreadable GPU clock table makes the executor skip the tier write without a rollback. The published tier is then
  wrong exactly after a resume that re-applies a tier, and after a transition that asks for a tier other than the
  range already in force; a restore of the defaults, for one, is not affected (`Unreadable.UnreadableIff`).
- A resume that drops an abnormal GPU range, and an unplug into the quiet defaults at an unchanged target, change
  persisted fields without saving (`Durability.ReduceAccounted`).
- An SPL floor that is not a whole watt makes the Eco preset fail (`Presets.EcoAcceptedIff`), and limits that reject
  the Balanced preset (`Presets.AcEdgeRejectedIff`) make the daemon lose an unplug (`Presets.RejectedUnplugIsLost`).
  Limits read by the ASUS backend are always whole watts (`PowerRails.AdvertisedLimitsAreWhole`).
- The shim's documentation (crates/hpd-dbus/src/ppd_shim.rs:37-40) says a hold taken under the AC lock is accepted and
  moves nothing; in fact the executor's next publication cancels it unless it asks for the pinned profile
  (`HoldStack.LockedHoldSurvivesIff`).
- The fan backend enables custom mode last so that no half-written curve ever runs
  (crates/hpd-backend-asus/src/fan_curve.rs:235-236). That holds from firmware control; on a fan that is already in
  custom mode, as at every automatic tier change, the controller runs a mixture between the writes
  (`FanCurves.WholeCurveIff`, `FanCurves.TierChangeMixes`).
- The fan floor binds points, not temperatures: a custom curve that ends below 85 °C is accepted with the fan off. If
  the controller holds the duty of the last point reached, the floor is kept exactly if the curve has reached each
  floor's duty by that floor's temperature (`FanCurves.FloorKeptIff`, `FanCurves.AcceptedWithFanOff`).
- A held profile that is active when AC is plugged in comes back when it is unplugged, as the battery preference, even
  if the hold was cancelled or released in between. The profile from before the hold is then lost, except in two
  cases: it was the held one anyway, or performance was held and something stayed held all through
  (`HoldsOverAc.HoldOverAc`).
- Two comments on the transition alphabet are out of date: a profile change does not turn auto-cooling off
  (crates/hpd-core/src/transition.rs:23-25), and restoring defaults turns it on instead of handing the fans to the
  firmware (crates/hpd-core/src/transition.rs:90-95). The model follows the reducer.
- The state directory is never flushed, so a power cut may bring back an older complete state file; it cannot leave a
  damaged one (`Persistence.PowerCutSafe`, `Persistence.OlderFileCanReturn`).

## Model

| member | source | states |
|---|---|---|
| `Settling.SettleSound` | crates/hpd-core/src/reducer.rs:628-665 | what an effect list settles on paper really agrees with the hardware once dispatched, although every profile write on the way may drop the enforced envelope and the fan curve |
| `Coherence.ReduceSettles` | crates/hpd-core/src/reducer.rs:40-578 | every transition but a rollback pays, in an order that survives profile writes, for every rail on which its new state differs from the old one |
| `Coherence.ProcessKeepsCoherence` | crates/hpd-core/src/executor.rs:99-187 | one iteration with all writes landing keeps profile, enforced envelope, charge, curve and GPU range in agreement with the published state |
| `Coherence.CoherentRun` | crates/hpd-core/src/executor.rs:74-196 | the same over every run of submissions and iterations, restoring defaults and snapshot restores included |
| `Coherence.ReloadCoherence` | crates/hpd-core/src/executor.rs:83-97 | a configuration reload writes nothing, so agreement survives if and only if the new fractions resolve the active GPU tier to the same range |
| `Coherence.ResumeReasserts` | crates/hpd-core/src/reducer.rs:325-395 | boot or resume under the lock, or without a snapshot, brings arbitrary hardware into agreement on every managed rail and hands an abnormal GPU range back |
| `Coherence.ResumeWithSnapshot` | crates/hpd-core/src/reducer.rs:341-348 | a resume that restores a snapshot asserts, rail by rail, exactly those that differ in memory or that its profile write may drop, and the charge threshold; on the others whatever the firmware left stays |
| `AcLock.OnlyLockTransitionsTouchIt` | crates/hpd-core/src/reducer.rs:49-59 | only AC edges, resume and the lock toggle can change connection, preference or snapshot |
| `AcLock.LockSuppresses` | crates/hpd-core/src/reducer.rs:49-59 | under the lock nothing but the charge threshold, the power source, the switch itself and rollbacks changes the state or owes a write |
| `PowerSource.ReduceTold` | crates/hpd-core/src/reducer.rs:240-313 | an accepted edge is believed, an accepted preference stored, and nothing else moves either |
| `PowerSource.ToggleOnBattery` | crates/hpd-core/src/reducer.rs:555-561 | on battery the preference is stored, saved exactly when it changes, and nothing else happens |
| `PowerSource.ToggleOnAc` | crates/hpd-core/src/reducer.rs:521-553 | on AC, locking forces the maximum and keeps the battery fields, unlocking gives them back if they were kept |
| `PowerSource.UnplugQuiet` | crates/hpd-core/src/reducer.rs:284-301 | a locked unplug without a snapshot ends at the Balanced envelope with auto-cooling at its tier |
| `PowerSource.ResumeReads` | crates/hpd-core/src/executor.rs:114-152 | a resume adopts the AC state and the limits it can read, keeps what it cannot, and locks exactly if on AC and so preferred |
| `PowerSource.ResumedOnBattery` | crates/hpd-core/src/executor.rs:107-122 | a machine suspended on AC and resumed on battery leaves the lock with its battery fields back, though no edge was seen |
| `PowerSource.ResumedOnAc` | crates/hpd-core/src/executor.rs:107-122 | resumed on AC with the preference set, the machine is at the forced maximum for the limits as read |
| `PowerSource.LockFollowsPower` | crates/hpd-core/src/executor.rs:74-196 | over every run with any failures, the lock and its published flag are exactly: on AC as last read or told, and preferred as last asked |
| `PowerSource.LostIff` | crates/hpd-core/src/reducer.rs:284-301 | which edges a run loses, on limits and configuration |
| `PowerSource.PreferThenPlug` | crates/hpd-core/src/reducer.rs:555-561 | prefer on battery, then plug in: locked exactly if preferred |
| `AcLock.ReduceKeepsDiscipline` | crates/hpd-core/src/reducer.rs:240-283 | a snapshot exists only under the lock, and a live one is kept verbatim or consumed, never overwritten |
| `AcLock.DisciplineRun` | crates/hpd-core/src/executor.rs:74-196 | the discipline holds over every run, refused writes and rollbacks included |
| `AcLock.CeilingIgnoresConfig` | crates/hpd-core/src/reducer.rs:727-741 | at the SPL ceiling the boost factors play no part |
| `AcLock.ReduceKeepsPins` | crates/hpd-core/src/reducer.rs:760-795 | a locked state stays at the forced maximum for the current limits |
| `AcLock.LockPinsRun` | crates/hpd-core/src/executor.rs:83-152 | over every failure-free run, locked means forced-maximum envelope, Performance, Aggressive, auto-cooling off; configuration reloads and limit changes included |
| `AcLock.FirstResumeEstablishes` | crates/hpd-core/src/reducer.rs:325-333 | the boot re-assertion establishes discipline and pins from any stored state |
| `AcLock.ReduceFromLocked` | crates/hpd-core/src/reducer.rs:802-859 | one step from a locked state keeps lock and snapshot, or leaves the lock with all six battery fields back |
| `AcLock.LockedRunKeepsSnapshot` | crates/hpd-core/src/executor.rs:74-196 | through any events at all, the snapshot taken at the plug edge survives as long as the lock does |
| `AcLock.AcRoundTrip` | crates/hpd-core/src/reducer.rs:240-283 | plug, any run under the lock, and whichever event first leaves it: target, profile, curve, auto-cooling and GPU fields are each what they were before the plug edge, an unmanaged GPU range excepted |
| `Rollback.SyncIsBelief` | crates/hpd-core/src/reducer.rs:201-238 | a rollback is never gated, sets one rail to the reported value and owes no effect |
| `WriteOnce.ResumeOnce` | crates/hpd-core/src/reducer.rs:359-395 | a resume writes each rail at most once if and only if it does not re-apply a managed GPU tier |
| `WriteOnce.DefaultsOnceIff` | crates/hpd-core/src/reducer.rs:415-491 | restoring defaults writes each rail at most once if and only if neither a profile change lands on a new target or manual curve, nor a GPU tier moves before its reset |
| `WriteOnce.ReduceWritesOnce` | crates/hpd-core/src/reducer.rs:40-578 | every transition writes each rail at most once and the profile first, with exactly those two exceptions |
| `Economy.NothingNeedless` | crates/hpd-core/src/reducer.rs:40-578 | every effect of every transition has its reason: its lever moved, a profile change may have dropped it, or it is one of the named repetitions |
| `Economy.SaveComesLast` | crates/hpd-core/src/reducer.rs:40-578 | a transition saves after all of its writes, if at all, exactly unless it is a resume that restores a snapshot |
| `Economy.RestoreThenCharge` | crates/hpd-core/src/reducer.rs:341-348 | that resume asserts the charge threshold after the save, and nothing else |
| `Rollback.RollAll` | crates/hpd-core/src/executor.rs:212-362 | whatever subset of the writes of a safe list is refused, the published state with the queued rollbacks applied is what the hardware reads |
| `Rollback.DrainSyncs` | crates/hpd-core/src/reducer.rs:201-238 | draining a queue of rollbacks applies them in order, writes no hardware and queues nothing |
| `Rollback.RollbackConverges` | crates/hpd-core/src/executor.rs:383-413 | one transition with room for five rollbacks: after the drain the published state reads back on every rail |
| `Staleness.StaleAnyhow` | crates/hpd-core/src/reducer.rs:359-491 | with residues of any kind a transition is stale exactly when it writes a rail twice, and milder refusals never make it worse |
| `Staleness.ResumeFirm` | crates/hpd-core/src/reducer.rs:359-395 | a resume that re-applies a tier is safe when the refused reset leaves the range, or a cleared table shows the very range that comes back |
| `Staleness.DefaultsFirm` | crates/hpd-core/src/reducer.rs:415-491 | a restore is safe when every rail it writes twice already means what it will mean, and no profile write can drop a manual curve |
| `Staleness.NotStaleFirm` | crates/hpd-core/src/reducer.rs:40-578 | every transition that is not stale is safe against refusals of that manner and causes a bounded number of rollbacks |
| `Divergence.StaleCanDiverge` | crates/hpd-core/src/executor.rs:383-413 | for every stale transition there is a single refusal in the manner after which no amount of draining reads back |
| `Divergence.ConvergesIff` | crates/hpd-core/src/executor.rs:383-413 | for each manner of refusal (rail unchanged, a prefix of the backend's own writes, anything at all; profile writes that drop or do not), rollback converges for every subset of refusals if and only if the transition is not stale for it |
| `Divergence.AnyResidueConvergesIff` | crates/hpd-core/src/executor.rs:383-413 | when refusals may leave anything, convergence is exactly the absence of a double write |
| `Divergence.UnchangedRailConvergesIff` | crates/hpd-core/src/reducer.rs:415-491 | when refusals leave the rail as it was and profile writes drop nothing, every transition converges except a restore in which a twice-written rail ends elsewhere than it was: the GPU handed back after a tier move, registers that change by whole watts, or a curve that changes |
| `Divergence.MildestRestoreDiverges` | crates/hpd-core/src/reducer.rs:415-491 | such a restore exists for every configuration: a concrete device, state and queue |
| `Overtaken.QueuedRollbackIff` | crates/hpd-core/src/executor.rs:383-413 | one rollback of any rail behind one command of any kind: it still repairs the state, however the command's writes land, if and only if the command is rejected, leaves the reported rail alone, or ends where the report says |
| `Overtaken.SameRailIff` | crates/hpd-core/src/reducer.rs:116-238 | for the single-lever commands that condition on their arguments: the command moves nothing, or asks for what the hardware was left with |
| `Overtaken.ChargeTwice` | crates/hpd-core/src/executor.rs:383-413 | two queued charge thresholds, the first refused: after both and the rollback the state reads back if and only if the two are equal or the refusal left the second |
| `Unreadable.ReduceDecides` | crates/hpd-core/src/reducer.rs:40-578 | which tier each transition writes, read off its guard; every other accepted transition resets the range or leaves it |
| `Unreadable.UnreadableIff` | crates/hpd-core/src/executor.rs:314-330 | with an unreadable clock table and all other writes landing, a transition leaves the published state reading back if and only if it is rejected or loses no tier, that is, re-applies none after a reset and asks for none that is not already there; nothing is queued either way |
| `Unreadable.UnreadableGpuDiverges` | crates/hpd-core/src/executor.rs:314-330 | the plainest case: opting in from firmware control is published, nothing is written and nothing rolls back |
| `Executor.HandleAllFrame` | crates/hpd-core/src/executor.rs:174-176 | dispatching changes hardware, queue and disk only, and the queue only grows, by rollbacks |
| `Draining.TickLowersWeight` | crates/hpd-core/src/executor.rs:383-413 | each iteration lowers a weight in which a rollback costs less than what caused it |
| `Draining.QueueDrains` | crates/hpd-core/src/executor.rs:74-196 | no choice of failures keeps the executor busy beyond the weight of its queue |
| `Draining.DrainedIsRun` | crates/hpd-core/src/executor.rs:74-196 | iterating until idle is a run of that many iterations with the same answers |
| `Draining.QueueBounded` | crates/hpd-core/src/executor.rs:394-405 | the queue never outgrows its capacity over any run |
| `Capabilities.AbsentRailsUntouched` | crates/hpd-core/src/executor.rs:212-362 | over any run with any failures, a rail without its capability is never written and never reported |
| `Capabilities.RollbackIff` | crates/hpd-core/src/executor.rs:364-413 | a rollback is queued exactly when a write that reaches a rail was refused and the rail can be read back |
| `Durability.ReduceAccounted` | crates/hpd-core/src/reducer.rs:40-578 | a transition saves whatever it changes on the persisted fields, with exactly two exceptions |
| `Durability.SavedFields` | crates/hpd-core/src/state.rs:113-131 | what a save keeps: every field but the connection and the derived flag |
| `Durability.ProcessKeepsDurable` | crates/hpd-core/src/executor.rs:168-177 | with publication before dispatch, one iteration keeps the saved file equal to the persisted part of the state |
| `Durability.ShutdownMakesDurable` | crates/hpd-core/src/reducer.rs:568-573 | a shutdown makes the file current from anywhere and stops the loop |
| `Durability.PinnedUnplugSaves` | crates/hpd-core/src/reducer.rs:284-301 | under the lock's pins the quiet defaults always move the target, so the second exception cannot occur |
| `Durability.DurableRun` | crates/hpd-core/src/executor.rs:74-196 | over every run without refused writes and with successful saves the file is current after each iteration |
| `Durability.FailedSavesKeepFile` | crates/hpd-core/src/executor.rs:357-360 | over a run of failing saves the file is the one from before |
| `GpuOptIn.ReduceStaysOut` | crates/hpd-core/src/reducer.rs:376-391 | without opting in no transition touches the GPU clock, its flag or its snapshot |
| `GpuOptIn.OptedOutRun` | crates/hpd-core/src/reducer.rs:782-792 | over any run, failures included, the GPU clock is what the environment alone made it |
| `Defaults.DefaultsEndPoint` | crates/hpd-core/src/reducer.rs:415-491 | the end point on every field, and exactly when the curve is the inferred one |
| `Defaults.DefaultsSaveOnceLast` | crates/hpd-core/src/reducer.rs:476-490 | at most one save, last, and exactly if anything changed; otherwise no effect at all |
| `Defaults.DefaultsIdempotent` | crates/hpd-core/src/reducer.rs:476-490 | a second restore changes nothing and owes nothing |
| `Envelope.AcceptedIff` | crates/hpd-core/src/invariants.rs:24-68 | an envelope is accepted exactly when its rails are ordered and in range |
| `Envelope.DerivedIsBoosted` | crates/hpd-core/src/reducer.rs:722-748 | below the ceiling each boost rail is its own factor times the SPL, as far as its range and the rail below allow; at the ceiling it is as high as the hardware goes |
| `Levers.RejectedIff` | crates/hpd-core/src/reducer.rs:40-578 | exactly what is rejected: off the lock a target the limits do not accept, and an unplug whose quiet default they do not accept |
| `Presets.PresetValues` | crates/hpd-core/src/reducer.rs:62-83 | the SPL of each preset: the two ends, the midpoint, and for Efficiency the nearest watt to its fraction of the range |
| `Presets.NestedIsValid` | crates/hpd-core/src/reducer.rs:722-748 | with nested maxima every in-range SPL derives an accepted envelope whatever the boost products are |
| `Presets.CeilingValidIff` | crates/hpd-core/src/reducer.rs:722-748 | at the SPL ceiling the derived envelope is accepted if and only if the maxima are nested |
| `Presets.AlwaysValidIff` | crates/hpd-core/src/reducer.rs:722-748 | all in-range SPLs are accepted for all products if and only if the maxima are nested |
| `Presets.PresetsAccepted` | crates/hpd-core/src/reducer.rs:62-111 | a whole-watt SPL floor and a repaired configuration: no preset is rejected, a fractional ceiling included |
| `Presets.EcoAcceptedIff` | crates/hpd-core/src/reducer.rs:62-70 | off the lock, Eco is accepted if and only if the SPL floor is a whole watt |
| `Presets.AllPresetsAcceptedIff` | crates/hpd-core/src/reducer.rs:62-111 | off the lock, all presets are accepted if and only if the SPL floor is a whole watt |
| `Presets.BalancedRejectedIff` | crates/hpd-core/src/reducer.rs:62-111 | the Balanced preset is rejected exactly when its midpoint lies below a fractional floor or above the SPPT ceiling, or its short boost lies above the FPPT ceiling |
| `Presets.AcEdgeRejectedIff` | crates/hpd-core/src/reducer.rs:284-301 | an AC edge is rejected exactly when it is a locked unplug without snapshot and the limits leave no room for the Balanced preset; nested maxima and a whole-watt floor always do |
| `Presets.RejectedUnplugIsLost` | crates/hpd-core/src/executor.rs:180-182 | a rejected unplug leaves the daemon believing it is on AC and locked |
| `Presets.UnplugCanBeRejected` | crates/hpd-core/src/reducer.rs:284-301 | a concrete state and limits for which that happens |
| `Config.SanitizeRepairs` | crates/hpd-capabilities/src/profile.rs:255-278 | repair yields a configuration the daemon can rely on and changes exactly those that are not; hence it is idempotent |
| `Config.SanitizeIsLocal` | crates/hpd-capabilities/src/profile.rs:255-278 | each group of values is repaired by itself, to the closest unit values if these are ordered and to its defaults if not |
| `Monotone.BoostMonotone` | crates/hpd-core/src/reducer.rs:722-748 | a higher SPL never derives lower boost rails |
| `Monotone.TierMonotone` | crates/hpd-core/src/inference.rs:29-49 | a higher SPL never infers a quieter tier |
| `Monotone.TierBands` | crates/hpd-core/src/inference.rs:29-49 | the three bands as inequalities on the SPL above the floor: below the low threshold, between the two, from the high one on |
| `Monotone.TierAtTheEnds` | crates/hpd-core/src/inference.rs:29-49 | the tiers at the floor, at the ceiling and on a device without a range |
| `Monotone.RangeAlwaysValid` | crates/hpd-core/src/inference.rs:64-85 | whatever the scaled span comes out as, wrap-around included, the resolved GPU range passes the backend's check |
| `Monotone.CeilingNeverWraps` | crates/hpd-core/src/inference.rs:64-85 | with a repaired fraction and exact products the addition cannot wrap |
| `Monotone.CeilingMonotone` | crates/hpd-core/src/inference.rs:64-85 | a higher tier never resolves to a lower ceiling |
| `Monotone.CeilingAtTheEnds` | crates/hpd-core/src/inference.rs:64-85 | a full fraction reaches the device ceiling, a zero fraction still leaves a usable range |
| `Monotone.CeilingIsFraction` | crates/hpd-core/src/inference.rs:64-85 | each tier's ceiling is its own fraction of the span, to the nearest MHz and at least one |
| `Inference.ValidIsWithin` | crates/hpd-capabilities/src/gpu_clock.rs:70-90 | a clock range is valid exactly if it has some width and every clock in it is one the device offers |
| `Monotone.MorePowerNeverLess` | crates/hpd-core/src/inference.rs:29-85 | the whole chain from SPL to boost rails, tier and GPU ceiling for any configuration after repair |
| `Levers.WritesMoveTheirLever` | crates/hpd-core/src/reducer.rs:56-199 | an accepted write sets its own lever to what was asked, the boost rails by their factors, the inferred tier where it asks to follow, and moves no other; under the lock only the charge threshold obeys |
| `Levers.UnchangedOwesNothing` | crates/hpd-core/src/reducer.rs:40-578 | a transition that changes nothing writes and saves nothing, except a chosen curve, a resume and the last save |
| `Levers.ReduceKeepsFollowing` | crates/hpd-core/src/reducer.rs:593-620 | auto-cooling and GPU auto-follow stay at the tier of the current target, snapshots included |
| `Levers.FollowRun` | crates/hpd-core/src/reducer.rs:593-620 | the same over every failure-free run with unchanged limits and thresholds |
| `Levers.ReloadThenAnything` | crates/hpd-core/src/executor.rs:83-97 | a reload is as if the new configuration had been there all along, and changes nothing else |
| `Levers.ReloadThenSetSpl` | crates/hpd-core/src/executor.rs:83-97 | a target accepted after a reload is boosted by the new factors and followed at the tier of the new thresholds |
| `ReducerSteps.SetTarget` | crates/hpd-core/src/reducer.rs:580-626 | the step-by-step target change computes the specified state and effects |
| `ReducerSteps.ReassertAfterProfile` | crates/hpd-core/src/reducer.rs:639-665 | after a profile write the envelope and any managed curve are appended, in that order |
| `ReducerSteps.ForceMax` | crates/hpd-core/src/reducer.rs:760-795 | forcing the maximum, effect by effect |
| `ReducerSteps.RestoreBattery` | crates/hpd-core/src/reducer.rs:802-859 | restoring the snapshot, effect by effect |
| `ReducerSteps.RetainWrites` | crates/hpd-core/src/reducer.rs:476-490 | the retain loop removes every save and reports whether there was one |
| `ReducerSteps.PowerEdge` | crates/hpd-core/src/reducer.rs:240-313 | the debounced AC edge, recursing into the Balanced preset on an unplugged view |
| `ReducerSteps.Resume` | crates/hpd-core/src/reducer.rs:315-396 | boot and resume in their three branches |
| `ReducerSteps.ToggleLock` | crates/hpd-core/src/reducer.rs:515-562 | the lock toggle in its four branches |
| `ReducerSteps.Defaults` | crates/hpd-core/src/reducer.rs:415-491 | five recursive reductions chained, then the saves collapsed |
| `ReducerSteps.Reduce` | crates/hpd-core/src/reducer.rs:40-578 | the whole reducer with its gate, early returns and recursion equals the specification the theorems are about |
| `ExecutorLoop.Daemon.Send` | crates/hpd-core/src/executor.rs:394-405 | enqueueing never blocks: a full queue refuses |
| `ExecutorLoop.Daemon.HandleEffect` | crates/hpd-core/src/executor.rs:212-362 | one dispatched effect moves the abstract world as specified: capability checks, live GPU resolution, rollback on refusal, save |
| `ExecutorLoop.Daemon.HandleEffects` | crates/hpd-core/src/executor.rs:174-176 | the effects of a transition, in order |
| `ExecutorLoop.Daemon.Refresh` | crates/hpd-core/src/executor.rs:114-152 | boot and resume re-read AC state and limits, keeping the last known value of an unreadable one |
| `ExecutorLoop.Daemon.Process` | crates/hpd-core/src/executor.rs:80-195 | one iteration: reload interception, re-reads, reduction, publication before dispatch, shutdown |
| `ExecutorLoop.Daemon.Run` | crates/hpd-core/src/executor.rs:74-196 | the receive loop terminates and ends where iterating the state machine until idle ends |
| `Persistence.Persister.Save` | crates/hpd-core/src/persistence.rs:61-93 | create, write, flush, rename with an early return at each failure |
| `Persistence.Persister.Load` | crates/hpd-core/src/persistence.rs:28-47 | a missing, unreadable or unparsable file loads as nothing |
| `Persistence.SaveIsAtomic` | crates/hpd-core/src/persistence.rs:61-93 | a reader sees the new text exactly if all four operations succeeded, else the old file |
| `Persistence.PowerCutSafe` | crates/hpd-core/src/persistence.rs:50-60 | across a power cut anywhere in a save the file is an old one or the new one, whole |
| `Persistence.OlderFileCanReturn` | crates/hpd-core/src/persistence.rs:61-93 | a completed save may be lost to a power cut, which brings back the file it replaced |
| `Persistence.UnflushedRenameIsUnsafe` | crates/hpd-core/src/persistence.rs:53-60 | without the flush a power cut could leave garbage |
| `Persistence.RestartsFromHistory` | crates/hpd-core/src/persistence.rs:61-93 | after any number of interrupted saves and a power cut the daemon restarts from a state it really saved or started with |
| `Persistence.LoadsLastCompleted` | crates/hpd-core/src/persistence.rs:28-93 | without a power cut a restart loads exactly the last completed save |
| `Units.WattsRoundTrip` | crates/hpd-capabilities/src/units.rs:28-45 | truncation to watts and back never overflows and loses less than a watt |
| `PowerRails.TruncationIsSafe` | crates/hpd-backend-asus/src/power.rs:146-168 | with minima that truncation cannot undercut an accepted envelope reads back accepted and less than a watt lower per written rail; an unwritten FPPT must still fit |
| `PowerRails.FractionalFloorBreaks` | crates/hpd-backend-asus/src/power.rs:79-85 | with any other minima the lowest accepted envelope reads back rejected |
| `PowerRails.TruncationSafeIff` | crates/hpd-backend-asus/src/power.rs:79-85 | every accepted three-rail envelope reads back accepted if and only if each minimum is a whole watt or already reached by a rail below it |
| `PowerRails.AdvertisedLimitsAreWhole` | crates/hpd-backend-asus/src/power.rs:118-144 | every limit this backend reports, fallbacks included, is a whole number of watts |
| `PowerRails.AdvertisedPresetsAccepted` | crates/hpd-backend-asus/src/power.rs:118-144 | so no preset is rejected on this hardware as long as the advertised rails are ordered and nested |
| `PowerRails.ReadWatts` | crates/hpd-backend-asus/src/power.rs:67-77 | reading a rail: missing file, unparsable text and overflow are errors |
| `PowerRails.GetTarget` | crates/hpd-backend-asus/src/power.rs:146-156 | the target is read from the three current values |
| `PowerRails.GetLimits` | crates/hpd-backend-asus/src/power.rs:118-144 | the result is the SPL limits that must be readable and, for each boost limit, the file or its default; all whole watts |
| `PowerRails.WriteWithRetry` | crates/hpd-backend-asus/src/power.rs:97-114 | a boost-rail write fails only if two attempts in a row fail |
| `PowerRails.SetTarget` | crates/hpd-backend-asus/src/power.rs:158-168 | what landed is a prefix of SPL, SPPT, FPPT, the whole list exactly on success; isolated failures are ridden out |
| `PowerRails.SetThenGet` | crates/hpd-backend-asus/src/power.rs:146-168 | a completely written target reads back through the text files as its whole watts |
| `PowerRails.FilesAreRegisters` | crates/hpd-backend-asus/src/power.rs:146-168 | the files behind the backend and the registers of the executor's hardware model move and read back together |
| `PowerRails.ReadableDecides` | crates/hpd-backend-asus/src/power.rs:118-144 | a readable limit file is the limit, only an unreadable one leaves it to its default |
| `GpuTable.ReadBounds` | crates/hpd-backend-asus/src/gpu_clock.rs:97-116 | the bounds scan returns the first line with exactly two clocks |
| `GpuTable.ReadCommitted` | crates/hpd-backend-asus/src/gpu_clock.rs:122-145 | the committed-range scan keeps the last floor and ceiling entries before the bounds section |
| `GpuTable.TableRoundTrip` | crates/hpd-backend-asus/src/gpu_clock.rs:97-145 | both scans recover what the driver printed, for all 32-bit clocks and bounds and any alignment |
| `GpuProtocol.OverDrive.Commit` | crates/hpd-backend-asus/src/gpu_clock.rs:159-163 | what was written is a prefix of floor, ceiling and commit, the whole of it exactly on success |
| `GpuProtocol.OverDrive.WriteRange` | crates/hpd-backend-asus/src/gpu_clock.rs:154-172 | success means manual mode and a read-back equal to the request, by exactly these writes in order |
| `GpuProtocol.OverDrive.SetRange` | crates/hpd-backend-asus/src/gpu_clock.rs:149-183 | a rejected request writes nothing; success means manual mode and the committed range is the valid request; any later failure leaves automatic mode unless the clean-up itself failed; an honest driver accepts exactly the valid requests |
| `GpuProtocol.OverDrive.ResetToAuto` | crates/hpd-backend-asus/src/gpu_clock.rs:185-194 | the table is reset before the level is handed back |
| `GpuProtocol.OverDrive.ActiveRange` | crates/hpd-backend-asus/src/gpu_clock.rs:196-202 | nothing is reported exactly in automatic mode |
| `GpuProtocol.OverDrive.SetThenReport` | crates/hpd-backend-asus/src/gpu_clock.rs:149-202 | a valid range set on a healthy device is the range reported |
| `GpuProtocol.HonestCommit` | crates/hpd-backend-asus/src/gpu_clock.rs:159-171 | stage, stage, commit leaves an honest driver with the request, readable as such |
| `FanTables.NamingInvertsCurves` | crates/hpd-backend-asus/src/fan_curve.rs:272-300 | naming stored points recovers them, and the selection itself unless a custom curve copies a preset |
| `FanTables.LouderTier` | crates/hpd-backend-asus/src/fan_curve.rs:62-107 | at every temperature a louder tier asks for at least as much duty |
| `FanCurves.RequiredPwm` | crates/hpd-capabilities/src/fan_curve.rs:147-154 | the strictest reached floor is the same requirement as every reached floor |
| `FanCurves.ValidateAgainst` | crates/hpd-capabilities/src/fan_curve.rs:116-166 | adjacent comparisons accept exactly the curves whose every two points are ordered and whose every point is in range and safe |
| `FanCurves.PresetsAccepted` | crates/hpd-backend-asus/src/fan_curve.rs:129-136 | the calibrated tables would pass the check they skip |
| `FanCurves.Resolve` | crates/hpd-backend-asus/src/fan_curve.rs:214-224 | presets resolve without a check, custom curves only if both are accepted |
| `FanCurves.FloorKeptIff` | crates/hpd-capabilities/src/fan_curve.rs:147-154 | an accepted curve keeps the safety floor at every temperature exactly if it has reached each floor's duty by that floor's temperature |
| `FanCurves.AcceptedWithFanOff` | crates/hpd-capabilities/src/fan_curve.rs:116-166 | an accepted curve that never leaves duty zero |
| `FanCurves.PointPathInjective` | crates/hpd-backend-asus/src/fan_curve.rs:159-161 | every point of every fan has its own file |
| `FanCurves.KernelNames` | crates/hpd-backend-asus/src/fan_curve.rs:155-165 | the file names are those of the kernel driver |
| `FanCurves.EnablePathDiffers` | crates/hpd-backend-asus/src/fan_curve.rs:163-165 | enable files are distinct from each other and from all point files |
| `FanCurves.NamePathDiffers` | crates/hpd-backend-asus/src/fan_curve.rs:155-165 | no curve file is a node's name file, so writing a curve never moves the node |
| `FanCurves.ReadFanPoints` | crates/hpd-backend-asus/src/fan_curve.rs:186-195 | the slot-filling loop reads the eight points |
| `FanCurves.WriteFanPoints` | crates/hpd-backend-asus/src/fan_curve.rs:170-183 | temperature then duty, point by point; what landed is a prefix, all of it exactly on success |
| `FanCurves.WriteCurves` | crates/hpd-backend-asus/src/fan_curve.rs:232-241 | both fans' points land before either enable |
| `FanCurves.Apply` | crates/hpd-backend-asus/src/fan_curve.rs:228-253 | a rejected selection changes no file; success means the read-back equals the request; a healthy faithful node always succeeds |
| `FanCurves.ActiveSelection` | crates/hpd-backend-asus/src/fan_curve.rs:272-300 | the live points are matched against each preset in turn |
| `FanCurves.ResetToAuto` | crates/hpd-backend-asus/src/fan_curve.rs:255-262 | both enables are handed back, after which nothing is reported as active |
| `FanCurves.PlanReadsBack` | crates/hpd-backend-asus/src/fan_curve.rs:228-300 | what was applied reads back, under the name of its points |
| `FanCurves.SelectionRoundTrip` | crates/hpd-backend-asus/src/fan_curve.rs:228-300 | every accepted selection is reported as itself, except a custom curve equal to a preset |
| `FanCurves.NeverHalfEnabledIff` | crates/hpd-backend-asus/src/fan_curve.rs:235-241 | an enabled fan runs the wanted curve through every prefix of the writes if and only if it was under firmware control or ran that curve already |
| `FanCurves.WholeCurveIff` | crates/hpd-backend-asus/src/fan_curve.rs:235-241 | an enabled fan never runs a mixture of the two curves if and only if it was under firmware control or at most one of its sixteen files has to change |
| `FanCurves.TierChangeMixes` | crates/hpd-backend-asus/src/fan_curve.rs:228-241 | changing tiers on an enabled fan always passes through a curve that is neither |
| `Hwmon.ScanFinds` | crates/hpd-backend-asus/src/hwmon.rs:32-43 | the scan finds a live node exactly if there is one in range |
| `Hwmon.FindByName` | crates/hpd-backend-asus/src/hwmon.rs:32-43 | the scan loop returns the first live node |
| `Hwmon.Cache.Resolve` | crates/hpd-backend-asus/src/hwmon.rs:76-95 | a confirmed hit or a fresh scan: present exactly when the scan is, live, and the scan's own node when names are unique |
| `Hwmon.Lookups` | crates/hpd-backend-asus/src/hwmon.rs:76-95 | the same for any sequence of lookups with the tree changing in between |
| `Hwmon.DuplicatesDiffer` | crates/hpd-backend-asus/src/hwmon.rs:76-95 | two lookups: once two nodes share a name, the cache still answers with the one the scan would not find |
| `Sysfs.Files.Read` | crates/hpd-sysfs/src/real.rs:23-27 | reads are trimmed and a missing file is an error |
| `Text.TrimIsExact` | crates/hpd-sysfs/src/real.rs:23-27 | trimming takes the white space off both ends and nothing else |
| `Text.ParsesIff` | crates/hpd-backend-asus/src/power.rs:67-77 | exactly which texts parse and as what: perhaps a plus sign, perhaps leading zeros, the decimal number |
| `Sysfs.Files.Write` | crates/hpd-sysfs/src/real.rs:29-33 | one write, logged when it lands |
| `HoldStack.Shared.HoldProfile` | crates/hpd-dbus/src/ppd_shim.rs:151-179 | only two profiles can be held; the first hold records what to return to |
| `HoldStack.Shared.EffectiveProfile` | crates/hpd-dbus/src/ppd_shim.rs:136-144 | power-saver outranks performance |
| `HoldStack.Shared.RemoveHolds` | crates/hpd-dbus/src/ppd_shim.rs:188-204 | the matching holds go, in one pass that also lists their cookies |
| `HoldStack.Shared.ReleaseWhere` | crates/hpd-dbus/src/ppd_shim.rs:308-319 | re-assert what remains or restore what was there before; removing nothing is a no-op |
| `HoldStack.Shared.Reconcile` | crates/hpd-dbus/src/ppd_shim.rs:433-453 | a profile the stack does not explain cancels every hold |
| `HoldStack.EffectiveOfSet` | crates/hpd-dbus/src/ppd_shim.rs:136-144 | the effective profile depends only on which holds remain |
| `HoldStack.EffectiveIsHeld` | crates/hpd-dbus/src/ppd_shim.rs:136-144 | what is asked for is what somebody holds: power-saver if anyone does, else performance if anyone does |
| `HoldStack.HeldProfileRun` | crates/hpd-dbus/src/ppd_shim.rs:136-144 | over every run, while something is held the machine is in power-saver exactly if someone holds that, and otherwise in performance |
| `HoldStack.FirstHoldObeyed` | crates/hpd-dbus/src/ppd_shim.rs:151-179 | the first hold is sent and, off the lock, active |
| `HoldStack.ReleaseIsExact` | crates/hpd-dbus/src/ppd_shim.rs:308-319 | a release removes exactly the holds of that cookie, a departure exactly those of that holder |
| `HoldStack.InvRun` | crates/hpd-dbus/src/ppd_shim.rs:119-122 | over every run a profile to return to exists exactly while something is held, and the active profile is the one the stack explains |
| `HoldStack.DrainRestores` | crates/hpd-dbus/src/ppd_shim.rs:218-222 | off the lock no hold is ever cancelled and draining in any order restores the profile active before the first hold |
| `HoldStack.AnnouncementCancelsIff` | crates/hpd-dbus/src/ppd_shim.rs:433-449 | an outside change cancels all holds if and only if it names another profile than the stack's |
| `HoldStack.LockedHoldSurvivesIff` | crates/hpd-dbus/src/ppd_shim.rs:37-40 | under the AC lock a hold survives if and only if the stack asks for the pinned profile |
| `HoldStack.ReleasesCommute` | crates/hpd-dbus/src/ppd_shim.rs:308-319 | the order of two releases does not matter |
| `HoldStack.CookiesStayDistinct` | crates/hpd-dbus/src/ppd_shim.rs:159 | fewer than 2^32 holds: no two live holds share a cookie |
| `HoldsOverAc.SetProfileLands` | crates/hpd-core/src/reducer.rs:56-59 | a queued profile change lands unless the lock suppresses it, and never moves the lock |
| `HoldsOverAc.NextIsStep` | crates/hpd-dbus/src/ppd_shim.rs:433-453 | the hold stack next to the executor's own state machine moves as the stack next to what it sees of it: its own changes settle, everything else is an announcement |
| `HoldsOverAc.JointInvRun` | crates/hpd-dbus/src/ppd_shim.rs:119-122 | the stack's invariant over every failure-free run of shim and executor together |
| `HoldsOverAc.HoldOverAc` | crates/hpd-core/src/reducer.rs:252-301 | a hold alive at the plug edge is copied into the battery snapshot: leaving the lock brings the held profile back, and the profile under the holds is still the one to return to exactly if it was the active one anyway, or performance is held and something stays held all through |
| `HoldsOverAc.SaverOutlivesItsHold` | crates/hpd-core/src/reducer.rs:252-283 | holding power-saver across a plug and an unplug leaves power-saver active with nothing held and nothing to return to |

## Left out

- Bit-exact 32-bit float rounding: products are exact before truncation or rounding. The validity theorems hold for every product; the monotonicity theorems need only that rounding is monotone and a product with a fraction stays within its factor. Monotone.CeilingNeverWraps and that last bound need exact products: as a 32-bit float a span of 2^32 - 2 rounds up to 2^32.
- TOML text and serialisation: a state file is opaque text with a render and a parse function that round-trip on the persisted fields.
- The D-Bus interfaces, polkit, the CLI, the doctor, conflict detection, logging, sleeps and error message texts.
- The udev and logind monitors: only the transitions they send.
- Telemetry, thermal, fan-speed and charge readings.
- Parsing of profile and preset names, and the aliases they accept.
- Two shim operations overlapping each other or a publication: each hold, release, disconnect and publication is one step.
- Observers of the published state going away, which stops the executor.
- Unicode white space: trimming and splitting know the ASCII kinds.
- `FanCurve::validate`, the weaker check no modelled path uses.
- `HwmonCache::read_attr`, a lookup followed by one read.
- Sysfs operations that stop half way: a failed write leaves its file as it was, a successful one may store anything.
- In `Executor`, one refused write may leave its own rail in any condition but no other; a refused profile write may also drop envelope and curve.
- Coherence.CoherentRun: hardware that changes by itself between iterations is excluded, because nothing in the loop looks for it before the next resume.
- Rollback.RollbackConverges: one transition alone in the queue with room for five rollbacks; one rollback behind one command is `Overtaken.QueuedRollbackIff`, longer queues are not followed, and a rollback that finds the queue full is dropped by design.
- Divergence.ConvergesIff: a device with all capabilities and one ordinary transition in the queue; after a reset the clock table is taken to show one fixed factory range.
- HoldsOverAc.HoldOverAc: failure-free runs, with each hold, release and publication one step.
- GpuProtocol.OverDrive.SetRange: a level write that succeeds is taken to be in force; the driver's clock table may answer in any way.
