# Verification of the taskbar overlay monitor

A taskbar overlay shows CPU, memory, network, GPU and disk figures next to the notification area. This
project models the parts of it whose behaviour is hard to see from any one function, and proves what
holds in every run of them:

- **The overlay reconciler of the dev build** (`OverlayApp`): one object that timers, hooks and window
  messages ask for work. It follows the taskbar, owns at most one overlay window, freezes for
  screenshots, hides for hidden taskbars and full-screen presentations, shows nothing that was not
  presented, backs off after failures and repairs what is broken. Every call into the system may fail.
  During every such call that dispatches messages, others may hide or destroy the overlay and re-enter
  the reconciler any number of times.
- **The policy reducers it runs** (`OverlayPolicy`), against specifications that scan the whole history of
  observations (`SuppressionHistory`, `TaskbarHistory`), and a tight bound on flicker (`FlickerBound`).
- **The rate-limited failure log** (`RateLimitedLog`): failure periods, cooldowns that outlive
  recoveries, a bounded table with an overflow entry, recovery records and summaries, with writes that
  fail at any point.
- **The stateful metric code**: the network interface table and its rates (`Network`), the busiest GPU
  engine (`GpuEngines`), the life cycle of a PDH counter group (`PdhCounters`), 32-bit tick deadlines
  (`Ticks`), and the search for an anchor in the accessibility tree (`AnchorSearch`).

## How it is put together

The code that changes state step by step is modelled by classes and methods with the fields, branches
and constants of the source. Each class keeps a ghost sequence of events, one for everything it does or
learns. A separate module says which event may follow which history (`OverlayProtocol`, `LogHistory`,
and `Legal` in `PdhCounters`); each method can only record an event that is allowed there, so every run
of the class is a legal run. The main theorems are then about all legal runs, said in terms of the events
themselves: `OverlayRuns`, `PresentBeforeShow`, `WorkIsServed`, `UpkeepRepairs`, `OverlayPacing`,
`OverlaySilence`, `OverlayDecisions`, `PassOutcomes`, `Recovery` and `LogHistory`. `OverlayGuarantees` says
what they mean for the fields of the reconciler whenever no pass is under way. `OverlaySteps` holds what single
events and longer calls leave behind; the class is proved with it, and so are the runs built step by step in
`OverlayExamples`, `PromotionExample`, `WrappedWaits`, `ExposureExample` and `RecoveryExample`.

Five points where the code does not do what one would first expect are stated exactly:

- The overlay does not become visible only in `PrepareOverlayForShow`. The task-view promotion raises a
  visible overlay with a call that also shows it, so an overlay hidden by someone else during that call
  comes back without a frame of its own. `PresentBeforeShow.ShownOnlyAfterPresent` says that this is the only
  other way, and that the window was presented in its own lifetime even then. What a caller can check
  beforehand are the flags: a pass can show an overlay that it has not presented if and only if it was handed
  `PromoteForTaskView` and not `ResetSurface` (`PromotionExample.UnpreparedShowsAreAskedFor`).
- The flicker bound `2 * (T / 100) + 1` holds for stretches that begin with nothing waiting. It can be exceeded,
  and then by one decision, if and only if a change that needs a dwell is waiting at the beginning; a waiting
  change to full-screen does not count (`FlickerBound.FlickerFromAnywhere`, `FlickerBound.WaitingIsWhatItTakes`).
- A deadline that wraps to tick 0 reads as "none" in the code, so a refused show, a refused teardown and the quiet
  time after a screenshot can be cut short. For each, the step can come before its time if and only if the deadline
  falls on tick 0 (`WrappedWaits.ShowTooSoon`, `TeardownTooSoon`, `ResumedTooSoon`). Repairs, owner binding and PDH
  retries do not have this exception.
- A wrapped deadline that was missed by 2^31 ms, 24.8 days, reads as one that lies ahead, for another 24.8 days and
  so on in every round of the clock. The tick of the last repair is never reset, so a whole pass can find the overlay
  broken and leave it so although the last repair is weeks old; shows, teardowns and the quiet time can likewise be
  held back. Each can be held back after its time if and only if the time since the deadline, modulo 2^32, is at
  least 2^31 (`WrappedWaits.RepairTooLate`, `ShowTooLate`, `TeardownTooLate`, `ResumedTooLate`), and where the code
  has the first exception, the deadline is not tick 0. A PDH group that has failed can be left alone in the same
  way (`PdhCounters.RetryTooLate`). `Recovery` is for runs in which no wait on record is that old.
- A suppressed overlay need not be hidden after a pass: the call that hides it can fail, and a pass that was asked to
  set the style and cannot ends before it hides anything. A pass can leave a suppressed overlay on the screen if and
  only if the last of these calls failed, one or the other (`ExposureExample.ExposureIsExact`).

## Model

| member | source | states |
|---|---|---|
| Ticks.TickPassedIsExact | src/main-dev.cpp:438-440 | comparing wrapped ticks agrees with real time exactly while the gap fits in 31 bits |
| Ticks.NeverPassedEarly | src/main-dev.cpp:438-440 | a wait measured in wrapped ticks never ends early, however long ago it began |
| Ticks.NeverPassedEarlyNonZero | src/main-dev.cpp:2978-2986 | the same when the start tick 0 was stored as 1 |
| Ticks.NotPassedMeans | src/main-dev.cpp:4426-4442 | a deadline reads as not passed exactly when the time since it, modulo 2^32, is at least 2^31: before it, and again 24.8 days after it |
| Ticks.NotPassedMeansNonZero | src/main-dev.cpp:2978-2986 | the same for a start tick stored as 1, whose deadline is one millisecond later |
| SuppressionHistory.ReducerRefinesHistory | src/overlay_policy.h:116-162 | the reducer commits a reason exactly when the unbroken run of equal known observations has lasted its delay |
| SuppressionHistory.UnknownsDiscardDwell | src/overlay_policy.h:126-132 | unknown observations keep the committed reason and discard all dwell |
| TaskbarHistory.ReducerRefinesHistory | src/overlay_policy.h:300-344 | the committed taskbar changes exactly when another real one was seen twice or more in a row over the settle delay |
| TaskbarHistory.CommittedStaysReal | src/overlay_policy.h:300-344 | once real, the committed taskbar is never null again |
| OverlayObservation.PipelineShape | src/main-dev.cpp:1083-1170 | a screenshot tells nothing, a hidden taskbar outranks presentations, only a visible taskbar is fast |
| FlickerBound.FlickerIsBounded | src/main-dev.cpp:77-82 | observations over T ms change the decision at most 2 * (T / 100) + 1 times |
| FlickerBound.FlickerBoundIsTight | src/main-dev.cpp:77-82 | for every length there is a run that meets the bound |
| FlickerBound.FlickerFromAnywhere | src/overlay_policy.h:134-161 | from any state the bound is the same, plus one if a change that needs a dwell was waiting |
| FlickerBound.WaitingIsWhatItTakes | src/overlay_policy.h:134-161 | the plain bound can be exceeded exactly from the states in which such a change is waiting |
| FlickerBound.WaitingChangeIsExtra | src/overlay_policy.h:134-161 | from each of these states two looks in the same millisecond make two decisions |
| OverlayApp.App.Live | src/main-dev.cpp:4477-4528 | any sequence of requests, calls, messages and outside changes keeps the invariant, so every run is legal |
| OverlayApp.App.RequestOverlayReconcile | src/main-dev.cpp:4501-4519 | the flags are queued, at most one message is outstanding, a failed post is taken back |
| OverlayApp.App.HandleQueuedOverlayReconcile | src/main-dev.cpp:4521-4528 | queued flags move to the inbox of the reconciler, also in the middle of a pass |
| OverlayApp.App.ReconcileOverlayState | src/main-dev.cpp:4477-4499 | re-entry only adds to the inbox; an outer call makes at most four passes |
| OverlayApp.App.RunPasses | src/main-dev.cpp:4484-4493 | passes are made one after the other, at most four, while requests are pending |
| OverlayApp.App.ReconcileOverlayStateOnce | src/main-dev.cpp:4273-4475 | one pass ends on every path, and last records a reason that is true, with nothing exposed and what is owed deferred |
| OverlayApp.App.ReplaceOverlay | src/main-dev.cpp:4304-4333 | the overlay of an earlier taskbar is destroyed or waited for; a pass that goes on has none left to replace and asks for no less |
| OverlayApp.App.HandleOverlayDestroyed | src/main-dev.cpp:4987-5004 | a destroyed overlay is forgotten; an unexpected one asks for work |
| OverlayApp.App.CommitOverlayHidden | src/main-dev.cpp:4000-4035 | success means that nothing is visible; failure is on record |
| OverlayApp.App.PrepareOverlayForShow | src/main-dev.cpp:4098-4164 | a show styles, places, clears if asked, presents and only then shows; success means visible |
| OverlayApp.App.PromoteVisibleOverlayForTaskView | src/main-dev.cpp:4066-4096 | asked for by its flag, a promotion begins on a visible overlay and may bring it back; an invisible one is left alone |
| OverlayApp.App.PromoteVisibleOverlayTopmost | src/main-dev.cpp:4037-4064 | raising a visible overlay decides, places and serves nothing |
| OverlayApp.App.DestroyOverlayWindow | src/main-dev.cpp:2756-2780 | true exactly when no overlay is left, and then the record is empty |
| OverlayApp.App.EnsureOverlayWindow | src/main-dev.cpp:2782-2905 | creates at most one overlay; an existing one is refused only if the taskbar is no longer valid, never for its owner |
| OverlayApp.App.ArmInitialOwnerBindingVerification | src/main-dev.cpp:2618-2645 | a new arming starts from zero attempts |
| OverlayApp.App.ReconcileInitialOwnerBinding | src/main-dev.cpp:2647-2748 | sets the owner when due, within the budget of the arming |
| OverlayApp.App.UpdateTaskbarIdentity | src/main-dev.cpp:2907-2942 | the identity follows the reducer; a commit marks the overlay for replacement |
| OverlayApp.App.UpdateFreezePolicy | src/main-dev.cpp:4166-4179 | freeze and resume deadline follow the foreground window |
| OverlayApp.App.UpdateSuppressionPolicy | src/main-dev.cpp:4181-4260 | the policy takes one step on what the desktop shows, and counts its decisions |
| OverlayApp.App.AcceptSuppression | src/main-dev.cpp:4216-4258 | the start tick is set and cleared with the decision |
| OverlayApp.App.RepairOverlayInvariant | src/main-dev.cpp:2944-3066 | a sound overlay is left alone; for a broken one the clock reads the wait as not over, or the repair takes every step of the computed plan |
| OverlayApp.App.RepairInPlace | src/main-dev.cpp:3040-3061 | style, placement and a frame as planned; no frame without its style |
| OverlayApp.App.BeginRepair | src/main-dev.cpp:2978-2986 | claims a repair exactly when the wrapped clock reads five seconds as over since the last, and records it |
| OverlayApp.App.AttemptShow | src/main-dev.cpp:4426-4450 | one show; if it is refused the retry tick is five seconds on, else there is none |
| OverlayApp.App.KeepUp | src/main-dev.cpp:4452-4474 | upkeep of a visible overlay ends the pass as steady, which no run records unless all that was asked is done and a repair that was begun followed its plan |
| OverlayApp.StaleMeansOld | src/main-dev.cpp:2529-2541 | a presented overlay reads as stale exactly after five seconds; a present at tick 0 also at once |
| OverlayApp.NeverPresentedIsStale | src/main-dev.cpp:2533-2541 | one that was never presented reads as stale five seconds after its creation |
| OverlayRuns.VisibleWasPresented | src/main-dev.cpp:4098-4164 | a visible overlay exists and has been presented since it was created |
| OverlayRuns.OneOverlay | src/main-dev.cpp:2756-2905 | creations less destructions is 0 or 1, and is the number of overlays |
| OverlayRuns.OverlaysAreUnique | src/main-dev.cpp:2756-2905 | no two overlays exist at a time |
| OverlayRuns.OverlayIsOfThisTaskbar | src/main-dev.cpp:4300-4323 | an overlay was created after the latest identity commit, for that taskbar, if and only if no replacement is pending, that is, no commit without a teardown since |
| OverlayRuns.OnlyTheCurrentOverlayIsUsed | src/main-dev.cpp:4300-4345 | only such an overlay is ever presented or shown |
| PresentBeforeShow.ShownOnlyAfterPresent | src/main-dev.cpp:4098-4164 | a window becomes visible only after a present in the same show or else, and exactly then, in a promotion that lost it; always presented in its lifetime |
| PresentBeforeShow.PromotionsAreAskedFor | src/main-dev.cpp:4461-4466 | a promotion is part of a pass that was handed the flag for it and none to reset the surface |
| PresentBeforeShow.UnaskedShowsArePrepared | src/main-dev.cpp:4461-4466 | without that flag every show is preceded by a present of its own |
| PresentBeforeShow.ClearedOutOfSight | src/main-dev.cpp:4103-4115 | the surface is cleared only while nothing is visible |
| PresentBeforeShow.ShowEndsForAReason | src/main-dev.cpp:4098-4164 | a show ends shown if the call that shows the window worked and it is visible; else a call was refused, the frame was missed or the window is gone or hidden |
| PromotionExample.UnpreparedShowsAreAskedFor | src/main-dev.cpp:4461-4466 | wherever a run began, a pass can show what it has not presented if and only if it was handed the promotion flag and no reset |
| PromotionExample.ShownWithoutPrepare | src/main-dev.cpp:4066-4096 | for all such flags, a run in which a promotion shows the overlay without a show |
| WorkIsServed.RequestsAreDelivered | src/main-dev.cpp:4477-4528 | every request reaches a later pass or is still outstanding |
| WorkIsServed.NothingIsInvented | src/main-dev.cpp:4477-4528 | a pass receives only what was requested |
| WorkIsServed.PassesDoNotNest | src/main-dev.cpp:4477-4494 | between the beginnings of two passes one ends |
| WorkIsServed.OwedIsWhatIsUnserved | src/main-dev.cpp:4273-4282 | durable work is owed exactly from its receipt, or a teardown, until it is acted on |
| WorkIsServed.SteadyPassServesAll | src/main-dev.cpp:4452-4474 | a pass that ends in upkeep has served every request but key sampling |
| UpkeepRepairs.SteadyPassRepairs | src/main-dev.cpp:4474-4474 | such a pass has inspected the overlay once; a repair that it began followed its plan, and one that was needed was begun unless the wrapped clock reads the wait after an earlier repair as not over |
| UpkeepRepairs.OnlyTheBrokenIsRepaired | src/main-dev.cpp:2944-2986 | every repair is the first of its pass and follows its one inspection, which found something to repair |
| PassOutcomes.PassEndsForItsReason | src/main-dev.cpp:4273-4475 | each of the twelve ways in which a pass ends has its cause among the events before; the three waits are those the wrapped clock reads as not over |
| OverlayPacing.RepairsAreSpaced | src/main-dev.cpp:2978-2986 | repairs begin at least five seconds apart |
| WrappedWaits.RepairWaitIsExact | src/main-dev.cpp:2978-2986 | over all pairs of times: after a repair a broken overlay can be repaired if and only if the wrapped clock reads the wait as over, and left broken by a whole pass if and only if it does not |
| WrappedWaits.RepairTooLate | src/main-dev.cpp:2978-2986 | a whole pass can leave the overlay broken after the wait if and only if the time since its deadline, modulo 2^32, is at least 2^31 |
| OverlayPacing.TeardownsAreSpaced | src/main-dev.cpp:4304-4326 | an overlay that could not be destroyed is not tried again for five seconds, successfully or not, unless another taskbar is committed or the deadline wraps to 0 |
| OverlayPacing.TeardownsAreTried | src/main-dev.cpp:4304-4333 | every teardown, refused or done, is an attempt on record in its pass |
| OverlayPacing.ShowsAreSpaced | src/main-dev.cpp:4426-4449 | after a refused show, five seconds, unless the pass has one of four reasons or the deadline wraps to 0 |
| OverlayPacing.ShowsAreConcluded | src/main-dev.cpp:4426-4450 | a pass tries at most one show, which ends in that pass and is then granted or refused as it ended; nothing else is |
| OverlayPacing.ConclusionsAreOfShows | src/main-dev.cpp:4426-4450 | whatever a pass grants or refuses is its one show, which ended that way before |
| OverlayPacing.FailedShowsAreSpaced | src/main-dev.cpp:4426-4450 | every show that fails is refused in its pass, and the next one comes five seconds later, with the same exceptions |
| WrappedWaits.ShowWaitIsExact | src/main-dev.cpp:4426-4442 | over all pairs of times: after a refused show a pass without a reason can try again if and only if the wrapped clock reads the wait as over, and can be held back if and only if it does not |
| WrappedWaits.ShowTooSoon | src/main-dev.cpp:4426-4442 | a show can be tried again within five seconds, without a reason, if and only if the deadline falls on tick 0 |
| WrappedWaits.ShowTooLate | src/main-dev.cpp:4426-4442 | it can be held back after five seconds if and only if the time since the deadline, modulo 2^32, is at least 2^31 and the deadline is not tick 0 |
| WrappedWaits.TeardownWaitIsExact | src/main-dev.cpp:4304-4326 | over all pairs of times: after a refused teardown an overlay that is still there can be tried again, or left alone, if and only if the wrapped clock reads the wait as over, or not over |
| WrappedWaits.TeardownTooSoon | src/main-dev.cpp:4304-4326 | it can be tried again within five seconds if and only if the deadline falls on tick 0 |
| WrappedWaits.TeardownTooLate | src/main-dev.cpp:4304-4326 | it can be left alone after five seconds under the same condition as a show |
| WrappedWaits.QuietTimeIsExact | src/main-dev.cpp:4383-4412 | over all pairs of times: after a screenshot the overlay can be updated if and only if 800 ms have passed or end on tick 0, and left alone if and only if the wrapped clock reads them as not over |
| WrappedWaits.ResumedTooSoon | src/main-dev.cpp:4383-4412 | it can be updated within 800 ms if and only if they end on tick 0 |
| WrappedWaits.ResumedTooLate | src/main-dev.cpp:4383-4412 | it can be left alone after them under the same condition as a show |
| OverlayPacing.OwnerBudget | src/overlay_policy.h:38-60 | at most eight owner calls in each arming |
| OverlayPacing.OwnerSetNeedsArming | src/main-dev.cpp:2618-2645 | no owner call without an arming |
| OverlayPacing.OwnerSetsAreSpaced | src/main-dev.cpp:2719-2719 | owner calls of one arming are half a second apart |
| OverlaySilence.FrozenMeansSilent | src/main-dev.cpp:4353-4412 | the overlay is placed, filled and shown only after a look in the same pass, with no screenshot and no suppression |
| OverlaySilence.UpdateIsInsideAPass | src/main-dev.cpp:4273-4475 | it is placed, filled and shown only within a pass, never while frozen |
| OverlaySilence.RaisedInSight | src/main-dev.cpp:4387-4411 | it is raised for its own sake only while visible, with no screenshot and no suppression |
| OverlaySilence.FrozenKeepsDecision | src/overlay_policy.h:68-76 | the suppression decision stands while a screenshot is in front |
| OverlaySilence.SilentUntilResumed | src/main-dev.cpp:4383-4412 | after a screenshot nothing is placed, filled or shown until 800 ms have passed, unless the deadline wraps to 0 |
| OverlayDecisions.RunSuppressesByHistory | src/main-dev.cpp:4181-4260 | in every run the suppression is what the history of observations calls for |
| OverlayDecisions.RunFollowsTaskbarHistory | src/main-dev.cpp:2907-2942 | in every run the taskbar is what the history of sightings calls for |
| OverlayDecisions.TaskbarStaysReal | src/main-dev.cpp:2907-2942 | no run makes a real taskbar null |
| OverlayDecisions.RunFlickerIsBounded | src/main-dev.cpp:4217-4217 | over any stretch of any run the decision counter obeys the flicker bound, plus one if a change that needs a dwell was waiting |
| OverlayDecisions.SuppressedMeansHidden | src/main-dev.cpp:4359-4381 | after every pass a visible overlay is not suppressed, unless the last hide or style call failed |
| ExposureExample.ExposureIsExact | src/main-dev.cpp:4353-4381 | whichever of the two calls failed last, a pass can leave a suppressed overlay on the screen if and only if one of them did |
| Recovery.RecoversInThreePasses | src/main-dev.cpp:4273-4475 | if no single call fails and nobody interferes, three passes five seconds apart end with a presented overlay of the present taskbar on the screen, whatever went before but a wait so old that the wrapped clock takes it for a new one |
| RecoveryExample.RecoveryCanHappen | src/main-dev.cpp:4273-4475 | for any two taskbars and at any time, three such passes that find a suppressed overlay of the one and end with a visible overlay of the other; after two of them nothing is visible |
| OverlayGuarantees.OverlayOnScreen | src/main-dev.cpp:4098-4164 | between passes: one overlay, presented, and not suppressed unless a call failed |
| OverlayGuarantees.OverlayBelongs | src/main-dev.cpp:2782-2905 | between passes: the overlay belongs to the committed taskbar or waits for replacement |
| OverlayGuarantees.RequestsAreKept | src/main-dev.cpp:4477-4528 | every request reached a pass or is in the inbox; at most one message is outstanding |
| OverlayGuarantees.InboxIsRequested | src/main-dev.cpp:4477-4528 | the inbox holds only what was requested |
| OverlayGuarantees.DeferredIsUnserved | src/main-dev.cpp:4275-4282 | the deferred flags are exactly the durable work not acted on |
| OverlayGuarantees.PoliciesFollowHistory | src/main-dev.cpp:4181-4260 | the policies hold what history calls for; the start tick is set exactly while suppressed |
| LogHistory.RecoveryClosesOneReport | src/logging.cpp:664-725 | a recovery record closes a failure that was written in this session and not closed before |
| LogHistory.RecoveriesAlternate | src/logging.cpp:664-725 | between two recovery records of a key a failure line was written |
| LogHistory.SilentCloseHidesNothing | src/logging.cpp:673-686 | a period closed without a record had no failure line |
| LogHistory.SlateCountsPeriod | src/logging.cpp:472-525 | the counters of a slot are exactly the written, unwritten and reported failures of its period |
| LogHistory.SuppressedIsReported | src/logging.cpp:472-525 | within a period no more is reported than was suppressed, and each line and summary reports all that is left |
| LogHistory.RecoveryTellsAll | src/logging.cpp:698-722 | a recovery record counts exactly the failures of its period |
| LogHistory.CooldownIsKept | src/logging.cpp:483-524 | attempts of one slot keep their interval across recoveries, silent closes, erasures and re-creations |
| LogHistory.HeldOnlyInCooldown | src/logging.cpp:483-487 | a failure is held back only within the cooldown of an attempt of the session |
| LogHistory.RecoveryRetriesAreSpaced | src/logging.cpp:688-725 | a lost recovery record is tried again after 30 seconds |
| RateLimitedLog.Log.StartSession | src/logging.cpp:166-190 | a new session forgets every entry |
| RateLimitedLog.Log.ConfigureLogging | src/logging.cpp:546-570 | settings change, entries do not |
| RateLimitedLog.Log.LogRateLimitedMessage | src/logging.cpp:437-525 | one failure is counted in its slot, held back or attempted; the table stays within 64 entries |
| RateLimitedLog.Log.RecordFailure | src/logging.cpp:472-525 | the entry follows the history of its slot |
| RateLimitedLog.Log.LogFailureRecovered | src/logging.cpp:654-726 | every outcome of a recovery, with the entry and the record it leaves |
| RateLimitedLog.Log.FlushLogSummaries | src/logging.cpp:728-760 | every entry is left alone or reports all that it had pending, in any order |
| RateLimitedLog.Log.EntriesAreSound | src/logging.cpp:28-38 | counters of an entry agree; an inactive one holds only its cooldown |
| RateLimitedLog.Log.CountsAreKept | src/logging.cpp:472-525 | an entry's suppressed failures are those not written in its period, the rest those written, and pending ones those no line has told of |
| Network.IndexHasActive | src/main-dev.cpp:1392-1430 | the index holds exactly the interfaces that are up and not loopback |
| Network.IndexHasCounters | src/main-dev.cpp:1392-1430 | with distinct interfaces it holds their current counters |
| Network.RatesTelescope | src/main-dev.cpp:1411-1420 | down and up, the rate contributions of an interface add up to the bytes it counted, across failed enumerations |
| Network.NetworkSampler.FindNetworkInterfaceSample | src/main-dev.cpp:1352-1359 | finds the entry of an interface if there is one |
| Network.NetworkSampler.SampleNetwork | src/main-dev.cpp:1361-1440 | the list is the index of the snapshot, each interface once; the rates compare it with the previous one |
| GpuEngines.CanonicalGpuEngineKey | src/metric_refresh_policy.h:33-54 | the key starts at the earliest marker |
| GpuEngines.KeyIsCanonical | src/metric_refresh_policy.h:33-54 | taking the key is idempotent, and only the empty name has the empty key |
| GpuEngines.KeyForgetsPrefix | src/metric_refresh_policy.h:33-54 | what stands before the first marker does not matter |
| GpuEngines.AggregateBusiestGpuEngine | src/metric_refresh_policy.h:56-74 | the running maximum is the largest total of an engine or unnamed sample, at most 100 |
| GpuEngines.OrderDoesNotMatter | src/metric_refresh_policy.h:56-74 | the busiest engine does not depend on the order of the samples |
| PdhCounters.QueriesBalance | src/main-dev.cpp:1442-1543 | queries opened less closed is 1 exactly while one is open |
| PdhCounters.RetriesAreSpaced | src/main-dev.cpp:1582-1596 | no retry begins within five seconds of an earlier failure |
| PdhCounters.RetryWaitIsExact | src/main-dev.cpp:1582-1596 | over all pairs of times: after a failure a retry can begin if and only if the wrapped clock reads the wait as over, and be put off if and only if it does not |
| PdhCounters.RetryTooLate | src/main-dev.cpp:1582-1596 | it can be put off after its five seconds if and only if the time since the deadline, modulo 2^32, is at least 2^31 |
| PdhCounters.PdhGroup.ReportPdhFailure | src/main-dev.cpp:1461-1475 | a failure ends readiness and starts the wait |
| PdhCounters.PdhGroup.InitPdhGroup | src/main-dev.cpp:1499-1543 | ready exactly when every step succeeded; otherwise nothing stays open |
| PdhCounters.PdhGroup.RecoverPdhGroupIfNeeded | src/main-dev.cpp:1582-1596 | with a counter path and not ready, starts over exactly when the wrapped clock reads the wait after the last failure as over, and else puts it off; leaves other groups alone |
| PdhCounters.PdhGroup.SampleItems | src/main-dev.cpp:1722-1744 | the busiest engine among the valid items |
| PdhCounters.PdhGroup.SamplePdhGroup | src/main-dev.cpp:1680-1774 | every outcome of a sample: -1 or a percentage, held values, failures |
| AnchorSearch.ConsiderAnchorRect | src/main-dev.cpp:2075-2084 | keeps the better of two rectangles |
| AnchorSearch.CandidatesSplit | src/main-dev.cpp:2112-2145 | an element within the depth bound is the object itself or at or below a child |
| AnchorSearch.CollectAccessibleAnchorRects | src/main-dev.cpp:2086-2146 | finds a rectangle exactly when an element within the bound offers one; nothing offered precedes it |
| AnchorSearch.TryGetTrayAnchorRect | src/main-dev.cpp:2148-2178 | the anchor is the best element at most two levels down, if there is any |

## Left out

- The stable build, `src/main.cpp`, repeats the sampling code and has a simpler suppression path.
- Rendering, bitmap presentation and text layout are reduced to whether a frame was presented.
- Windows, processes, DWM, COM and accessibility are sources of arbitrary answers; log lines, health records
  and diagnostics counters of the reconciler are not part of this model.
- Interference happens during the calls that act on windows, metrics or the tray icon; a query returns
  at once with an arbitrary answer.
- The controller window exists or not, and the monitor is initialized or not, for the whole run; shutdown and
  the handlers that decide which flags a message asks for are not modelled: any flags may be asked for at any
  time.
- Key sampling is reduced to an arbitrary answer whether keys changed, which is why it is the one request
  that `SteadyPassServesAll` does not cover.
- After a repair the code looks again and logs whether it helped; nothing else depends on that.
- `SampleMetrics`, `SampleKeys`, `Render`, `Reposition` and `PromoteForTaskView` are not durable: a pass that stops
  early drops them.
- Logging formats, files, rotation, mutexes and truncation are reduced to whether a line was written.
- A log session has been started before the first failure is reported; in the code the first write would
  start one.
- The clock of the log has passed 0, which the code reserves for "no time".
- Two formats of time are told apart: the reconciler uses wrapped 32-bit ticks where the code does, and
  unbounded milliseconds where the code uses 64-bit ones; theorems that compare 64-bit times ask for a
  clock below 2^64.
- Rates and utilizations are exact reals; floating-point rounding is not modelled.
- Growing the buffer for PDH arrays is not modelled; only whether the array was read.
- Screen coordinates and byte counters are unbounded integers.
- Network.NetworkSampler.SampleNetwork: the rates are stated for tables in which no two active rows share an
  interface, which the system guarantees; the list is stated for all tables.
- OverlayApp.App.PromoteVisibleOverlayTopmost: window order is not modelled, so raising the overlay is recorded
  and lets others in, no more; setting the owner, which raises it too, is recorded as that alone; placement, tray
  icon, metrics and surface clearing are likewise reduced to having been done.
- List and table entries are values that are stored back under their position or key, so aliasing of an entry
  while it is being changed is not modelled.
