/** The pure decision functions of `overlay_policy.h`. */
module OverlayPolicy {

  datatype SuppressionReason = None | TaskbarHidden | FullscreenPresentation

  datatype TaskbarVisibility = TaskbarUnknown | Hidden | Visible

  datatype PresentationVisibility = PresentationUnknown | Clear | Fullscreen

  datatype TransitionProfile = Default | Fast

  // ---------------------------------------------------------------- owner binding

  datatype OwnerBindingAction = NoAction | Complete | Wait | Retry | Exhausted

  function DecideInitialOwnerBindingAction(
    pending: bool, overlayValid: bool, targetValid: bool, ownerMatches: bool,
    attempts: nat, maxAttempts: nat, nowMs: nat, nextRetryMs: nat): OwnerBindingAction
  {
    if !pending then NoAction
    else if !overlayValid || !targetValid || nowMs < nextRetryMs then Wait
    else if ownerMatches then Complete
    else if attempts >= maxAttempts then Exhausted
    else Retry
  }

  // ---------------------------------------------------------------- suppression

  datatype SuppressionObservation =
    SuppressionObservation(known: bool, reason: SuppressionReason, profile: TransitionProfile)

  const UNKNOWN_OBSERVATION := SuppressionObservation(false, None, Default)

  const CLEAR_OBSERVATION := SuppressionObservation(true, None, Default)

  function ResolveSuppressionObservation(
    taskbar: TaskbarVisibility, screenshot: bool, presentation: PresentationVisibility): SuppressionObservation
  {
    if screenshot || taskbar.TaskbarUnknown? then UNKNOWN_OBSERVATION
    else if taskbar.Hidden? then SuppressionObservation(true, TaskbarHidden, Default)
    else if presentation.PresentationUnknown? then UNKNOWN_OBSERVATION
    else SuppressionObservation(true, if presentation.Fullscreen? then FullscreenPresentation else None, Default)
  }

  datatype SuppressionPolicyConfig = SuppressionPolicyConfig(
    enterDelayMs: nat, exitDelayMs: nat, fastEnterDelayMs: nat, fastExitDelayMs: nat)

  /** The delays the application is built with. */
  const SHIPPED_CONFIG := SuppressionPolicyConfig(250, 500, 0, 100)

  datatype SuppressionPolicyState = SuppressionPolicyState(
    committed: SuppressionReason,
    candidate: SuppressionReason,
    candidateSinceMs: nat,
    candidateActive: bool,
    candidateProfile: TransitionProfile)

  /** The state that holds `committed` and no candidate. */
  function Settled(committed: SuppressionReason): SuppressionPolicyState {
    SuppressionPolicyState(committed, committed, 0, false, Default)
  }

  datatype SuppressionPolicyResult = SuppressionPolicyResult(
    state: SuppressionPolicyState, dwellMs: nat, requiredDelayMs: nat, committedChanged: bool)

  const UINT64_MODULUS: int := 0x1_0000_0000_0000_0000

  /** `now - since` on 64-bit unsigned values. */
  function Elapsed64(now: int, since: int): nat {
    (now - since) % UINT64_MODULUS
  }

  function RequiredDelay(config: SuppressionPolicyConfig, seen: SuppressionObservation): nat {
    var fast := seen.profile.Fast?;
    if seen.reason.None?
    then if fast then config.fastExitDelayMs else config.exitDelayMs
    else if fast then config.fastEnterDelayMs else config.enterDelayMs
  }

  function ReduceSuppressionPolicy(
    state: SuppressionPolicyState, seen: SuppressionObservation, nowMs: nat,
    config: SuppressionPolicyConfig): SuppressionPolicyResult
  {
    if !seen.known || seen.reason == state.committed then
      SuppressionPolicyResult(Settled(state.committed), 0, 0, false)
    else
      var delay := RequiredDelay(config, seen);
      var restart := !state.candidateActive || state.candidate != seen.reason || state.candidateProfile != seen.profile;
      var waiting := if restart
                     then state.(candidate := seen.reason, candidateSinceMs := nowMs,
                                 candidateActive := true, candidateProfile := seen.profile)
                     else state;
      var dwell := if restart then 0 else Elapsed64(nowMs, state.candidateSinceMs);
      if dwell < delay then SuppressionPolicyResult(waiting, dwell, delay, false)
      else SuppressionPolicyResult(Settled(seen.reason), dwell, delay, true)
  }

  // ---------------------------------------------------------------- overlay intent and repair

  datatype OverlayIntent = OverlayIntent(shouldExist: bool, shouldBeVisible: bool, updatesFrozen: bool)

  function ComputeOverlayIntent(
    taskbarReady: bool, committed: SuppressionReason, screenshot: bool): OverlayIntent
  {
    OverlayIntent(taskbarReady, taskbarReady && committed.None?, screenshot || !committed.None?)
  }

  predicate ShouldPromoteDuringScreenshotResume(intent: OverlayIntent, screenshot: bool, resumePending: bool) {
    intent.shouldBeVisible && !screenshot && resumePending
  }

  predicate ShouldPromoteForTaskViewTransition(intent: OverlayIntent, visible: bool, transition: bool) {
    intent.shouldBeVisible && !intent.updatesFrozen && visible && transition
  }

  predicate HasNewPresentation(sequence: nat, requiredAfter: nat) {
    sequence > requiredAfter
  }

  datatype RepairObservation = RepairObservation(
    valid: bool, visible: bool, topmost: bool, layered: bool, rectValid: bool, presentStale: bool)

  datatype RepairIntent = RepairIntent(
    ensureExists: bool, applyStyle: bool, reposition: bool, present: bool, commitVisible: bool)

  function ComputeOverlayRepairIntent(seen: RepairObservation): RepairIntent {
    if !seen.valid || !seen.visible then RepairIntent(!seen.valid, true, true, true, true)
    else
      var applyStyle := !seen.layered;
      RepairIntent(false, applyStyle, !seen.topmost || !seen.rectValid,
                   seen.presentStale || applyStyle || !seen.rectValid, false)
  }

  // ---------------------------------------------------------------- taskbar identity

  datatype TaskbarIdentity = TaskbarIdentity(hwnd: nat, processId: nat)

  predicate IsReal(identity: TaskbarIdentity) {
    identity.hwnd != 0 && identity.processId != 0
  }

  datatype TaskbarIdentityState = TaskbarIdentityState(
    committed: TaskbarIdentity, candidate: TaskbarIdentity, candidateSinceMs: nat, candidateActive: bool)

  datatype TaskbarIdentityResult = TaskbarIdentityResult(
    state: TaskbarIdentityState, dwellMs: nat, committedChanged: bool, pending: bool)

  function ReduceTaskbarIdentity(
    state: TaskbarIdentityState, seen: TaskbarIdentity, nowMs: nat, settleMs: nat): TaskbarIdentityResult
  {
    var idle := TaskbarIdentityState(state.committed, state.committed, 0, false);
    if !IsReal(seen) then TaskbarIdentityResult(idle, 0, false, true)
    else if seen == state.committed then TaskbarIdentityResult(idle, 0, false, false)
    else if !state.candidateActive || state.candidate != seen then
      TaskbarIdentityResult(TaskbarIdentityState(state.committed, seen, nowMs, true), 0, false, true)
    else
      var dwell := Elapsed64(nowMs, state.candidateSinceMs);
      if dwell < settleMs then TaskbarIdentityResult(state, dwell, false, true)
      else TaskbarIdentityResult(TaskbarIdentityState(seen, seen, 0, false), dwell, true, false)
  }
}
