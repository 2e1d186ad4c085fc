/** The overlay comes back: once others leave the reconciler alone and its calls succeed, three passes that
    keep five seconds apart end with an overlay of the present taskbar on the screen, whatever went before. */
module Recovery {
  import opened OverlayPolicy
  import opened OverlayObservation
  import opened Ticks
  import opened OverlayProtocol
  import opened OverlayRuns
  import opened WorkIsServed
  import opened OverlayPacing
  import opened PassOutcomes

  /** Nobody interferes and no single call fails. The taskbar is always `taskbar` and usable, there is no
      screenshot and nothing to hide for. A window can be made and destroyed, hidden and styled; a frame that
      is tried is presented; the window is visible when the call that shows it returns. The overlay is hidden
      or destroyed only by the reconciler itself, to replace it, to suppress it, or to reset its surface. */
  ghost predicate CalmStep(h: History, e: Event, taskbar: TaskbarIdentity) {
    match e
    case TaskbarSeen(identity, _) => identity == taskbar
    case TaskbarProbed(ready) => ready
    case TeardownRefused(_) => false
    case OverlayRefused(_) => false
    case Destroyed(_) => h.pace.recreate
    case ForegroundSeen(screenshot, _) => !screenshot
    case SuppressionSeen(seen, _) => seen == CLEAR_OBSERVATION
    case StyleTried(ok) => ok
    case HideTried(ok) => ok
    case FrameMissed => false
    case ShowCalled(ok) => ok && h.call.Preparing? && h.call.hwnd in h.world.visible
    case Vanished(_) =>
      || h.pace.recreate || !h.mind.suppression.committed.None?
      || (h.call.Preparing? && h.call.reset && !h.call.presented)
    case _ => true
  }

  ghost predicate IsCalm(start: TaskbarIdentity, run: seq<Event>, i: nat, j: nat, taskbar: TaskbarIdentity)
    requires j <= |run|
  {
    forall k :: i <= k < j ==> CalmStep(Recall(start, run[..k]), run[k], taskbar)
  }

  // ---------------------------------------------------------------- a show that nobody hinders

  /** No call of the show under way has failed, and its window is where it should be. */
  ghost predicate ShowUnhindered(h: History)
    requires h.call.Preparing?
  {
    && Open(h) && h.pass.life.ensured && h.world.alive == {h.call.hwnd}
    && !h.call.refused && !h.call.missed && !h.call.verdict.Failed?
    && (h.call.verdict.Worked? ==> h.call.presented && h.call.hwnd in h.world.visible)
  }

  /** Since a pass has made sure of its overlay nothing has gone wrong with it. */
  ghost predicate Unhindered(h: History) {
    && (h.pass.Running? && h.pass.life.ensured ==>
          !h.pace.recreate && h.world.alive != {} && h.pass.view.taskbar.Ready?)
    && (h.pass.NoPass? ==> !h.call.Preparing?)
    && (h.call.Preparing? ==> ShowUnhindered(h))
    && (h.pass.Running? ==> h.pass.show != ShowEnded(false) && h.pass.show != ShowConcluded(false))
  }

  /** A show that nobody hinders ends shown, and no show is recorded as refused. */
  lemma ShowsSucceed(h: History, e: Event)
    requires Unhindered(h) && Allowed(h, e)
    ensures e.PrepareEnded? ==> e.shown
    ensures !e.ShowRefused?
  {
  }

  lemma UnhinderedNeeds(h: History, e: Event)
    requires Allowed(h, e)
    ensures e.Created? ==> h.call.Idle? && !h.pace.recreate && h.pass.Running? && h.pass.view.taskbar.Ready?
    ensures e.OverlayFound? ==> !h.pace.recreate && h.world.alive == {e.hwnd} && h.pass.view.taskbar.Ready?
    ensures e.TaskbarSeen? ==> h.call.Idle? && h.pass.Running? && h.pass.view.taskbar.Unsought?
    ensures e.TaskbarProbed? ==> h.pass.Running? && h.pass.view.taskbar.Sighted?
    ensures e.ForegroundSeen? ==> h.pass.Running? && !h.pass.view.looked
    ensures e.SuppressionSeen? ==> h.pass.Running? && !h.pass.view.decided
    ensures e.PrepareBegan? ==> Open(h) && h.pass.life.ensured && h.world.alive <= {e.hwnd}
    ensures e.PassBegan? || e.PassEnded? || e.PromoteBegan? ==> h.call.Idle?
    ensures e.PromoteEnded? ==> h.call.Promoting?
    ensures e.ShowCalled? ==> MayAsk(h.call)
  {
  }

  /** What an event does to a show under way. */
  lemma ShowRemembers(call: Call, e: Event)
    requires !e.PromoteBegan? && !e.PromoteEnded?
    ensures var after := WatchCall(call, e);
            if e.PrepareBegan? then after == Begun(e.hwnd, e.reset)
            else if e.PrepareEnded? then after.Idle?
            else
              && (after.Preparing? <==> call.Preparing?)
              && (call.Preparing? ==>
                    && after.hwnd == call.hwnd && (call.presented ==> after.presented)
                    && after.refused == (call.refused || (e.StyleTried? && !e.ok) || (e.HideTried? && !e.ok))
                    && after.missed == (call.missed || e.FrameMissed?)
                    && after.verdict == (if e.ShowCalled? then (if e.ok then Worked else Failed) else call.verdict))
  {
  }

  lemma EnsuredEvents(life: Life, e: Event)
    ensures WatchLife(life, e).ensured == (life.ensured || e.OverlayFound? || e.Created?)
  {
  }

  /** Once made sure of, the overlay stays, and the pass has no other to replace. */
  lemma EnsuredStep(h: History, e: Event, taskbar: TaskbarIdentity)
    requires Unhindered(h) && Allowed(h, e) && CalmStep(h, e, taskbar)
    ensures var h' := Watch(h, e);
            h'.pass.Running? && h'.pass.life.ensured ==>
              !h'.pace.recreate && h'.world.alive != {} && h'.pass.view.taskbar.Ready?
  {
    UnhinderedNeeds(h, e);
    PaceIsWatched(h, e);
    PaceEvents(h.pace, h.mind, e);
    WorldIsWatched(h, e);
    WorldStep(h.world, h.mind, e);
    PassGoes(h, e);
    if h.pass.Running? {
      ViewEvents(h.pass.view, h.mind, e);
      EnsuredEvents(h.pass.life, e);
    }
    hide Watch, Allowed, WatchPace, WatchWorld, WatchView, WatchLife, SeeTaskbar, ShowUnhindered;
  }

  /** What becomes of the pass under way. */
  lemma PassGoes(h: History, e: Event)
    ensures var after := Watch(h, e).pass;
            if e.PassBegan? then after == Running(e.flags, e.flags + h.owed, {}, UNSEEN, UNTOUCHED, NoShow, NoUpkeep)
            else if e.PassEnded? || h.pass.NoPass? then after.NoPass?
            else
              && after.Running? && after.view == WatchView(h.pass.view, h.mind, e)
              && after.life == WatchLife(h.pass.life, e) && after.show == WatchShow(h.pass.show, e)
  {
    hide WatchView, WatchLife, WatchShow;
  }

  lemma OpenStays(h: History, e: Event)
    requires Open(h) && Allowed(h, e) && !e.PassEnded? && !e.PassBegan?
    ensures Open(Watch(h, e))
  {
    UnhinderedNeeds(h, e);
    ResumeIsKnown(h, e);
    MindIsWatched(h, e);
    MindEvents(h.mind, e);
    PassGoes(h, e);
    ViewEvents(h.pass.view, h.mind, e);
    hide Watch, Allowed, WatchMind, WatchView, SeeTaskbar, SeeSuppression;
  }

  lemma ResumeIsKnown(h: History, e: Event)
    requires Allowed(h, e)
    ensures e.ResumeFinished? ==> h.mind.resumeAt.At?
  {
  }

  /** A show that nobody hinders goes on unhindered. */
  lemma ShowUnhinderedStep(h: History, e: Event, taskbar: TaskbarIdentity)
    requires Unhindered(h) && Allowed(h, e) && CalmStep(h, e, taskbar) && h.call.Preparing?
    ensures Watch(h, e).call.Preparing? ==> ShowUnhindered(Watch(h, e))
  {
    UnhinderedNeeds(h, e);
    CallIsWatchedToo(h, e);
    ShowRemembers(h.call, e);
    if !e.PrepareEnded? && !e.PrepareBegan? {
      OpenStays(h, e);
      WorldIsWatched(h, e);
      WorldStep(h.world, h.mind, e);
      PassGoes(h, e);
      EnsuredEvents(h.pass.life, e);
    }
    NoShowInAShow(h, e);
    hide Watch, Allowed, WatchWorld, WatchView, WatchLife, WatchShow, WatchCall, Open;
  }

  lemma NoShowInAShow(h: History, e: Event)
    requires Allowed(h, e) && h.call.Preparing?
    ensures !e.PrepareBegan?
    ensures Open(h) ==> h.mind.suppression.committed.None?
  {
  }

  lemma ShowBeginsUnhindered(h: History, e: Event)
    requires Unhindered(h) && Allowed(h, e) && e.PrepareBegan?
    ensures Watch(h, e).call.Preparing? && ShowUnhindered(Watch(h, e))
  {
    UnhinderedNeeds(h, e);
    CallIsWatchedToo(h, e);
    ShowRemembers(h.call, e);
    OpenStays(h, e);
    WorldIsWatched(h, e);
    WorldStep(h.world, h.mind, e);
    PassGoes(h, e);
    EnsuredEvents(h.pass.life, e);
    hide Watch, Allowed, WatchWorld, WatchView, WatchLife, WatchShow, WatchCall, Open;
  }

  lemma ShowOutcomes(show: ShowWork, e: Event)
    ensures WatchShow(show, e) == ShowEnded(false) ==> show == ShowEnded(false) || (e.PrepareEnded? && !e.shown)
    ensures WatchShow(show, e) == ShowConcluded(false) ==> show == ShowConcluded(false) || e.ShowRefused?
  {
  }

  lemma CallEvents(call: Call, e: Event)
    ensures var after := WatchCall(call, e);
            after.Preparing? <==>
              (e.PrepareBegan? || (call.Preparing? && !e.PrepareEnded? && !e.PromoteBegan? && !e.PromoteEnded?))
  {
  }

  lemma UnhinderedStep(h: History, e: Event, taskbar: TaskbarIdentity)
    requires Unhindered(h) && Allowed(h, e) && CalmStep(h, e, taskbar)
    ensures Unhindered(Watch(h, e))
  {
    UnhinderedNeeds(h, e);
    EnsuredStep(h, e, taskbar);
    ShowsSucceed(h, e);
    CallIsWatchedToo(h, e);
    CallEvents(h.call, e);
    PassGoes(h, e);
    if h.call.Preparing? {
      ShowUnhinderedStep(h, e, taskbar);
    } else if e.PrepareBegan? {
      ShowBeginsUnhindered(h, e);
    }
    if h.pass.Running? {
      ShowOutcomes(h.pass.show, e);
    }
    hide Watch, Allowed, WatchCall, WatchShow, WatchView, WatchLife, ShowUnhindered;
  }

  lemma {:induction false} NobodyHinders(start: TaskbarIdentity, run: seq<Event>, b: nat, n: nat,
                                         taskbar: TaskbarIdentity)
    requires Legal(start, run) && b < n <= |run| && run[b].PassBegan? && IsCalm(start, run, b, n, taskbar)
    ensures Unhindered(Recall(start, run[..n]))
  {
    hide Watch, Allowed, Legal, Recall, CalmStep, Unhindered;
    var h := Recall(start, run[..n - 1]);
    LegalAt(start, run, n - 1);
    if b < n - 1 {
      NobodyHinders(start, run, b, n - 1, taskbar);
      UnhinderedStep(h, run[n - 1], taskbar);
    } else {
      PassBeginsUnhindered(h, run[b]);
    }
  }

  /** Nothing has gone wrong from the beginning of a pass on. */
  lemma CalmFrom(start: TaskbarIdentity, run: seq<Event>, b: nat, n: nat, taskbar: TaskbarIdentity)
    requires Legal(start, run) && b < n < |run| && run[b].PassBegan? && IsCalm(start, run, b, n, taskbar)
    ensures GoesWell(start, run, b, n)
  {
    hide Watch, Allowed, Legal, Recall, CalmStep, Unhindered;
    forall k | b <= k < n ensures Unhindered(Recall(start, run[..k])) {
      if k == b {
        LegalAt(start, run, b);
        BetweenPassesUnhindered(Recall(start, run[..b]), run[b]);
      } else {
        NobodyHinders(start, run, b, k, taskbar);
      }
    }
  }

  lemma BetweenPassesUnhindered(h: History, e: Event)
    requires Allowed(h, e) && e.PassBegan?
    ensures Unhindered(h)
  {
  }

  ghost predicate GoesWell(start: TaskbarIdentity, run: seq<Event>, i: nat, j: nat)
    requires j <= |run|
  {
    forall k :: i <= k < j ==> Unhindered(Recall(start, run[..k]))
  }

  lemma PassBeginsUnhindered(h: History, e: Event)
    requires Allowed(h, e) && e.PassBegan?
    ensures Unhindered(Watch(h, e))
  {
    UnhinderedNeeds(h, e);
    PassGoes(h, e);
    CallIsWatchedToo(h, e);
    CallEvents(h.call, e);
    hide Watch, Allowed;
  }

  // ---------------------------------------------------------------- what calm preserves

  /** `taskbar` is committed, or has been seen without interruption since `c` or earlier. */
  ghost predicate Heard(state: TaskbarIdentityState, taskbar: TaskbarIdentity, c: nat) {
    state.committed == taskbar || (state.candidateActive && state.candidate == taskbar && state.candidateSinceMs <= c)
  }

  /** Nothing is suppressed, or the desktop has been clear without interruption since `c` or earlier. */
  ghost predicate ClearedBy(state: SuppressionPolicyState, c: nat) {
    || state.committed.None?
    || (state.candidateActive && state.candidate.None? && state.candidateProfile.Default?
        && state.candidateSinceMs <= c)
  }

  lemma HeardStep(state: TaskbarIdentityState, taskbar: TaskbarIdentity, at: nat)
    requires IsReal(taskbar) && at < UINT64_MODULUS
    ensures var result := ReduceTaskbarIdentity(state, taskbar, at, IDENTITY_SETTLE_MS);
            && (state.candidateActive && state.candidateSinceMs <= at ==> Heard(result.state, taskbar, at))
            && (!state.candidateActive ==> Heard(result.state, taskbar, at))
            && (result.committedChanged ==> state.committed != taskbar)
            && forall c: nat :: Heard(state, taskbar, c) ==>
                    && Heard(result.state, taskbar, c)
                    && (c + IDENTITY_SETTLE_MS <= at ==> result.state.committed == taskbar && !result.pending)
  {
    if state.candidateActive && state.candidateSinceMs <= at {
      assert Elapsed64(at, state.candidateSinceMs) == at - state.candidateSinceMs;
    }
  }

  lemma ClearedStep(state: SuppressionPolicyState, at: nat)
    requires at < UINT64_MODULUS && (state.candidateActive ==> state.candidateSinceMs <= at)
    ensures var result := ReduceSuppressionPolicy(state, CLEAR_OBSERVATION, at, SHIPPED_CONFIG);
            && ClearedBy(result.state, at)
            && forall c: nat :: ClearedBy(state, c) ==>
                    && ClearedBy(result.state, c)
                    && (c + SHIPPED_CONFIG.exitDelayMs <= at ==> result.state.committed.None?)
  {
    if state.candidateActive {
      assert Elapsed64(at, state.candidateSinceMs) == at - state.candidateSinceMs;
    }
  }

  /** A deadline that has not been reached, or was missed by no more than the wrapped clock can tell. */
  ghost predicate Tellable(deadline: int, limit: int) {
    limit - deadline < HALF_RANGE
  }

  /** Until `limit` no wait is so old that the wrapped clock takes it for a new one. */
  ghost predicate Recent(h: History, base: nat, limit: nat) {
    && base <= h.pace.clock && limit - base < HALF_RANGE
    && (h.pace.teardownRefused.At? ==> Tellable(h.pace.teardownRefused.ms + REPAIR_INTERVAL_MS, limit))
    && (h.pace.showRefused.At? ==> Tellable(h.pace.showRefused.ms + REPAIR_INTERVAL_MS, limit))
    && (h.mind.resumeAt.At? ==> Tellable(h.mind.resumeAt.ms, limit))
  }

  lemma RecentStep(h: History, e: Event, taskbar: TaskbarIdentity, base: nat, limit: nat)
    requires Recent(h, base, limit) && Allowed(h, e) && CalmStep(h, e, taskbar)
    requires !e.ShowRefused?
    ensures Recent(Watch(h, e), base, limit)
  {
    ClockStep(h, e);
    PaceIsWatched(h, e);
    MindIsWatched(h, e);
    MindEvents(h.mind, e);
    PaceEvents(h.pace, h.mind, e);
    hide Watch, Allowed, WatchMind, WatchPace, SeeTaskbar, SeeSuppression;
  }

  /** After one calm pass: the taskbar is known, or will be once it has settled. */
  ghost predicate Sought(h: History, taskbar: TaskbarIdentity, c: nat) {
    && Heard(h.mind.identity, taskbar, c) && c <= h.pace.clock
    && Past(h.pace.teardownRefused, c) && Past(h.pace.showRefused, c)
  }

  /** After two: the taskbar is committed and no overlay waits to be replaced, no screenshot is in the way,
      and suppression ends once the desktop has been clear long enough. */
  ghost predicate Settling(h: History, taskbar: TaskbarIdentity, c: nat) {
    && h.mind.identity.committed == taskbar && c <= h.pace.clock && !h.pace.recreate && !h.mind.frozen
    && ClearedBy(h.mind.suppression, c)
    && Past(h.mind.resumeAt, c + RESUME_DELAY_MS) && Past(h.pace.showRefused, c)
  }

  lemma SoughtStep(h: History, e: Event, taskbar: TaskbarIdentity, c: nat)
    requires IsReal(taskbar) && Sought(h, taskbar, c) && Allowed(h, e) && CalmStep(h, e, taskbar)
    requires Watch(h, e).pace.clock < UINT64_MODULUS
    requires !e.ShowRefused?
    ensures Sought(Watch(h, e), taskbar, c)
  {
    ClockStep(h, e);
    PaceIsWatched(h, e);
    MindIsWatched(h, e);
    MindEvents(h.mind, e);
    PaceEvents(h.pace, h.mind, e);
    if e.TaskbarSeen? {
      HeardStep(h.mind.identity, taskbar, e.at);
    }
    hide Watch, Allowed, WatchMind, WatchPace, Heard, ReduceTaskbarIdentity, SeeSuppression;
  }

  lemma SettlingStep(h: History, e: Event, taskbar: TaskbarIdentity, c: nat)
    requires IsReal(taskbar) && Settling(h, taskbar, c) && Dated(h) && Allowed(h, e) && CalmStep(h, e, taskbar)
    requires Watch(h, e).pace.clock < UINT64_MODULUS
    requires !e.ShowRefused?
    ensures Settling(Watch(h, e), taskbar, c)
  {
    ClockStep(h, e);
    PaceIsWatched(h, e);
    MindIsWatched(h, e);
    MindEvents(h.mind, e);
    PaceEvents(h.pace, h.mind, e);
    if e.TaskbarSeen? {
      HeardStep(h.mind.identity, taskbar, e.at);
      CommittedIsHeard(h.mind.identity, taskbar, e.at);
    }
    if e.SuppressionSeen? {
      ClearedStep(h.mind.suppression, e.at);
    }
    hide Watch, Allowed, WatchMind, WatchPace, ClearedBy, ReduceTaskbarIdentity, ReduceSuppressionPolicy;
  }

  lemma CommittedIsHeard(state: TaskbarIdentityState, taskbar: TaskbarIdentity, at: nat)
    requires state.committed == taskbar && IsReal(taskbar)
    ensures var result := ReduceTaskbarIdentity(state, taskbar, at, IDENTITY_SETTLE_MS);
            result.state.committed == taskbar && !result.committedChanged && !result.pending
  {
  }

  // ---------------------------------------------------------------- inside a calm pass

  /** A calm pass: nothing has been refused, and what has been looked at was in order. */
  ghost predicate InPass(h: History, taskbar: TaskbarIdentity) {
    && h.pass.Running? && !h.pass.view.taskbar.Missing?
    && !h.pass.life.overlayRefused && !h.pass.life.teardown.Refused? && !h.pass.life.styleRefused
    && (h.pass.view.looked ==> !h.mind.frozen)
    && (h.pass.view.decided ==> h.pass.view.looked && ClearedBy(h.mind.suppression, h.pace.clock))
    && (h.pass.view.taskbar != Unsought ==> Heard(h.mind.identity, taskbar, h.pace.clock))
  }

  /** In a pass that comes long enough after `c`, a look at the taskbar settles the matter. */
  ghost predicate Known(h: History, taskbar: TaskbarIdentity, c: nat) {
    h.pass.Running? &&
    (h.pass.view.taskbar != Unsought ==>
       h.mind.identity.committed == taskbar && !h.pass.view.identityPending && c + REPAIR_INTERVAL_MS <= h.pace.clock)
  }

  /** A show that has ended, and upkeep, leave the overlay on the screen. */
  ghost predicate OnScreen(h: History) {
    && h.pass.Running?
    && (h.pass.view.decided ==> h.mind.suppression.committed.None?)
    && (h.pass.show != NoShow || h.pass.upkeep != NoUpkeep ==> h.pass.view.decided)
    && (h.pass.show.ShowEnded? || h.pass.show.ShowConcluded? || h.pass.upkeep != NoUpkeep ==>
          h.world.visible != {} || h.call.Preparing?)
  }

  /** Nothing happens before `c`. */
  ghost predicate NotBefore(e: Event, c: nat) {
    MomentOf(e).At? ==> MomentOf(e).ms >= c
  }

  lemma ViewEvents(view: View, mind: Mind, e: Event)
    ensures var after := WatchView(view, mind, e);
            && after.taskbar == (if e.TaskbarSeen? then Sighted
                                 else if e.TaskbarProbed? then (if e.ready then Ready else Missing) else view.taskbar)
            && after.identityPending == (if e.TaskbarSeen? then SeeTaskbar(mind, e).pending else view.identityPending)
            && after.looked == (view.looked || e.ForegroundSeen?)
            && after.decided == (view.decided || e.SuppressionSeen?)
  {
    hide SeeTaskbar, SeeSuppression;
  }

  lemma PassIsWatched(h: History, e: Event)
    requires h.pass.Running? && !e.PassBegan? && !e.PassEnded?
    ensures var after := Watch(h, e).pass;
            && after.Running? && after.view == WatchView(h.pass.view, h.mind, e)
            && after.life == WatchLife(h.pass.life, e)
            && after.show == WatchShow(h.pass.show, e) && after.upkeep == WatchUpkeep(h.pass.upkeep, e)
  {
  }

  lemma Later(h: History, taskbar: TaskbarIdentity, now: nat)
    requires h.pace.clock <= now
    ensures Heard(h.mind.identity, taskbar, h.pace.clock) ==> Heard(h.mind.identity, taskbar, now)
    ensures ClearedBy(h.mind.suppression, h.pace.clock) ==> ClearedBy(h.mind.suppression, now)
  {
  }

  lemma SightsNeed(h: History, e: Event)
    requires Allowed(h, e)
    ensures e.SuppressionSeen? ==> h.pass.Running? && h.pass.view.looked
    ensures e.TaskbarProbed? ==> h.pass.Running? && h.pass.view.taskbar.Sighted?
  {
  }

  lemma InPassStep(h: History, e: Event, taskbar: TaskbarIdentity)
    requires IsReal(taskbar) && InPass(h, taskbar) && Dated(h) && Allowed(h, e) && CalmStep(h, e, taskbar)
    requires !e.PassBegan? && !e.PassEnded? && Watch(h, e).pace.clock < UINT64_MODULUS
    ensures InPass(Watch(h, e), taskbar)
  {
    ClockStep(h, e);
    MindIsWatched(h, e);
    MindEvents(h.mind, e);
    PassIsWatched(h, e);
    ViewEvents(h.pass.view, h.mind, e);
    LifeGoesOn(h.pass.life, e);
    Later(h, taskbar, Watch(h, e).pace.clock);
    SightsNeed(h, e);
    if e.TaskbarSeen? {
      HeardStep(h.mind.identity, taskbar, e.at);
    }
    if e.SuppressionSeen? {
      ClearedStep(h.mind.suppression, e.at);
    }
    hide Watch, Allowed, WatchMind, WatchView, WatchLife, Heard, ClearedBy, ReduceTaskbarIdentity,
         ReduceSuppressionPolicy;
  }

  lemma KnownStep(h: History, e: Event, taskbar: TaskbarIdentity, c: nat)
    requires IsReal(taskbar) && Known(h, taskbar, c) && Heard(h.mind.identity, taskbar, c)
    requires Allowed(h, e) && CalmStep(h, e, taskbar) && NotBefore(e, c + REPAIR_INTERVAL_MS)
    requires !e.PassBegan? && !e.PassEnded? && Watch(h, e).pace.clock < UINT64_MODULUS
    ensures Known(Watch(h, e), taskbar, c)
  {
    ClockStep(h, e);
    MindIsWatched(h, e);
    MindEvents(h.mind, e);
    PassIsWatched(h, e);
    ViewEvents(h.pass.view, h.mind, e);
    SightsNeed(h, e);
    if e.TaskbarSeen? {
      HeardStep(h.mind.identity, taskbar, e.at);
    }
    hide Watch, Allowed, WatchMind, WatchView, Heard, ReduceTaskbarIdentity, SeeSuppression;
  }

  /** What showing and upkeep need, and what they change. */
  lemma ScreenNeeds(h: History, e: Event)
    requires Allowed(h, e)
    ensures e.SawVisible? ==> Open(h) && h.world.visible != {}
    ensures e.Inspected? ==> Open(h) && h.pass.upkeep.Keeping?
    ensures e.PrepareEnded? && e.shown ==> h.call.Preparing? && h.call.hwnd in h.world.visible
    ensures e.PrepareEnded? ==> h.call.Preparing?
    ensures e.ShowGranted? ==> h.pass.Running? && h.pass.show.ShowEnded? && h.call.Idle?
    ensures e.Created? ==> h.world.alive == {} && h.call.Idle?
    ensures e.ShowTried? ==> Open(h)
    ensures e.PrepareBegan? || e.PromoteBegan? ==> h.call.Idle?
    ensures e.PromoteEnded? ==> h.call.Promoting?
  {
  }

  lemma ShowAndUpkeepEvents(show: ShowWork, upkeep: Upkeep, e: Event)
    ensures WatchShow(show, e).ShowEnded? ==> show.ShowEnded? || (e.PrepareEnded? && show.ShowPending?)
    ensures WatchShow(show, e).ShowConcluded? ==> show.ShowConcluded? || e.ShowGranted? || e.ShowRefused?
    ensures WatchShow(show, e) != NoShow ==> show != NoShow || e.ShowTried? || e.ShowGranted? || e.ShowRefused?
    ensures WatchUpkeep(upkeep, e) != NoUpkeep ==> upkeep != NoUpkeep || e.SawVisible? || e.Inspected?
  {
  }

  lemma OnScreenStep(h: History, e: Event, taskbar: TaskbarIdentity, c: nat)
    requires IsReal(taskbar) && OnScreen(h) && Settling(h, taskbar, c) && Dated(h) && h.world.visible <= h.world.alive
    requires Allowed(h, e) && CalmStep(h, e, taskbar) && NotBefore(e, c + REPAIR_INTERVAL_MS)
    requires !e.PassBegan? && !e.PassEnded? && Watch(h, e).pace.clock < UINT64_MODULUS
    requires e.PrepareEnded? ==> e.shown
    ensures OnScreen(Watch(h, e))
  {
    ClockStep(h, e);
    MindIsWatched(h, e);
    MindEvents(h.mind, e);
    PassIsWatched(h, e);
    ViewEvents(h.pass.view, h.mind, e);
    ShowAndUpkeepEvents(h.pass.show, h.pass.upkeep, e);
    ScreenNeeds(h, e);
    if h.pass.view.decided {
      ScreenGoesOn(h, e, taskbar);
    }
    if e.SuppressionSeen? {
      ClearedStep(h.mind.suppression, e.at);
    }
    hide Watch, Allowed, WatchMind, WatchView, WatchShow, WatchUpkeep, ClearedBy, ReduceSuppressionPolicy, SeeTaskbar;
  }

  /** While the overlay is neither replaced nor suppressed, only a show that resets its surface takes it off
      the screen, and a show that succeeds puts it back. */
  lemma ScreenGoesOn(h: History, e: Event, taskbar: TaskbarIdentity)
    requires Allowed(h, e) && CalmStep(h, e, taskbar) && h.world.visible <= h.world.alive
    requires !h.pace.recreate && h.mind.suppression.committed.None?
    requires e.PrepareEnded? ==> e.shown
    ensures var h' := Watch(h, e);
            && (h.world.visible != {} || h.call.Preparing? ==> h'.world.visible != {} || h'.call.Preparing?)
            && (e.PrepareEnded? || (e.ShowGranted? && h.world.visible != {}) ==> h'.world.visible != {})
  {
    ScreenNeeds(h, e);
    WorldIsWatched(h, e);
    WorldStep(h.world, h.mind, e);
    CallIsWatchedToo(h, e);
    CallEvents(h.call, e);
    hide Watch, Allowed, WatchWorld, WatchCall;
  }

  lemma CallIsWatchedToo(h: History, e: Event)
    ensures Watch(h, e).call == WatchCall(h.call, e)
  {
  }

  // ---------------------------------------------------------------- how calm passes end

  /** The time the pass gives with its reason is not after `limit`. */
  predicate EndsBy(outcome: Outcome, limit: nat) {
    match outcome
    case AwaitingTeardown(at) => at <= limit
    case Resuming(at) => at <= limit
    case BackingOff(at) => at <= limit
    case _ => true
  }

  lemma PassStartsCalm(h: History, e: Event, taskbar: TaskbarIdentity, c: nat)
    requires e.PassBegan?
    ensures var h' := Watch(h, e); InPass(h', taskbar) && Known(h', taskbar, c) && OnScreen(h')
  {
    PassStarts(h, e);
  }

  lemma FirstPassEnds(h: History, outcome: Outcome, taskbar: TaskbarIdentity)
    requires InPass(h, taskbar) && Dated(h) && MayEnd(h, outcome)
    ensures Sought(h, taskbar, h.pace.clock)
  {
    hide Heard, ClearedBy;
  }

  lemma SecondPassEnds(h: History, outcome: Outcome, taskbar: TaskbarIdentity, c: nat, base: nat, limit: nat)
    requires InPass(h, taskbar) && Sought(h, taskbar, c) && Known(h, taskbar, c) && Dated(h)
    requires Recent(h, base, limit) && MayEnd(h, outcome) && EndsBy(outcome, limit)
    ensures Settling(h, taskbar, h.pace.clock)
  {
    hide Heard, ClearedBy, UpkeepComplete, HiddenOrRefused, WaitOver;
    match outcome {
      case AwaitingTeardown(at) =>
        if h.pace.teardownRefused.At? {
          WaitedMeansOver(h.pace.teardownRefused.ms, REPAIR_INTERVAL_MS, at);
        } else {
          NoWaitIsOver(REPAIR_INTERVAL_MS, at);
        }
      case _ =>
    }
  }

  lemma ThirdPassEnds(h: History, outcome: Outcome, taskbar: TaskbarIdentity, c: nat, base: nat, limit: nat)
    requires InPass(h, taskbar) && Settling(h, taskbar, c) && Known(h, taskbar, c) && OnScreen(h)
    requires Recent(h, base, limit) && MayEnd(h, outcome) && EndsBy(outcome, limit) && h.call.Idle?
    ensures h.world.visible != {}
  {
    hide Heard, ClearedBy, HiddenOrRefused, WaitOver;
    match outcome {
      case Resuming(at) =>
        if h.mind.resumeAt.At? {
          WaitedMeansOver(h.mind.resumeAt.ms, 0, at);
        } else {
          NoWaitIsOver(0, at);
        }
      case BackingOff(at) =>
        if h.pace.showRefused.At? {
          WaitedMeansOver(h.pace.showRefused.ms, REPAIR_INTERVAL_MS, at);
        } else {
          NoWaitIsOver(REPAIR_INTERVAL_MS, at);
        }
      case Steady(_) =>
      case _ =>
    }
  }

  lemma NoWaitIsOver(delay: nat, now: nat)
    ensures WaitOver(Never, delay, now)
  {
  }

  // ---------------------------------------------------------------- over a run

  lemma {:induction false} PassGoesOn(start: TaskbarIdentity, run: seq<Event>, b: nat, n: nat, taskbar: TaskbarIdentity)
    requires Legal(start, run) && b < n <= |run| && PassSince(run[..n], b) && IsReal(taskbar)
    requires IsCalm(start, run, b, n, taskbar) && Recall(start, run[..n]).pace.clock < UINT64_MODULUS
    ensures InPass(Recall(start, run[..n]), taskbar)
  {
    hide Watch, Allowed, Legal, Recall, InPass, CalmStep, Dated;
    var h := Recall(start, run[..n - 1]);
    LegalAt(start, run, n - 1);
    if b < n - 1 {
      ClockStep(h, run[n - 1]);
      PassGoesOn(start, run, b, n - 1, taskbar);
      RunIsDated(start, run[..n - 1]);
      InPassStep(h, run[n - 1], taskbar);
    } else {
      PassStartsCalm(h, run[n - 1], taskbar, 0);
    }
  }

  lemma {:induction false} SoughtGoesOn(start: TaskbarIdentity, run: seq<Event>, i: nat, j: nat,
                                        taskbar: TaskbarIdentity, c: nat)
    requires Legal(start, run) && i <= j <= |run| && IsReal(taskbar) && Sought(Recall(start, run[..i]), taskbar, c)
    requires IsCalm(start, run, i, j, taskbar) && Recall(start, run[..j]).pace.clock < UINT64_MODULUS
    requires GoesWell(start, run, i, j)
    ensures Sought(Recall(start, run[..j]), taskbar, c)
  {
    hide Unhindered, Watch, Allowed, Legal, Recall, Sought, CalmStep;
    if i < j {
      LegalAt(start, run, j - 1);
      ClockStep(Recall(start, run[..j - 1]), run[j - 1]);
      SoughtGoesOn(start, run, i, j - 1, taskbar, c);
      ShowsSucceed(Recall(start, run[..j - 1]), run[j - 1]);
      SoughtStep(Recall(start, run[..j - 1]), run[j - 1], taskbar, c);
    }
  }

  lemma {:induction false} SettlingGoesOn(start: TaskbarIdentity, run: seq<Event>, i: nat, j: nat,
                                          taskbar: TaskbarIdentity, c: nat)
    requires Legal(start, run) && i <= j <= |run| && IsReal(taskbar) && Settling(Recall(start, run[..i]), taskbar, c)
    requires IsCalm(start, run, i, j, taskbar) && Recall(start, run[..j]).pace.clock < UINT64_MODULUS
    requires GoesWell(start, run, i, j)
    ensures Settling(Recall(start, run[..j]), taskbar, c)
  {
    hide Unhindered, Watch, Allowed, Legal, Recall, Settling, CalmStep, Dated;
    if i < j {
      LegalAt(start, run, j - 1);
      ClockStep(Recall(start, run[..j - 1]), run[j - 1]);
      RunIsDated(start, run[..j - 1]);
      SettlingGoesOn(start, run, i, j - 1, taskbar, c);
      ShowsSucceed(Recall(start, run[..j - 1]), run[j - 1]);
      SettlingStep(Recall(start, run[..j - 1]), run[j - 1], taskbar, c);
    }
  }

  lemma {:induction false} RecentGoesOn(start: TaskbarIdentity, run: seq<Event>, i: nat, j: nat,
                                        taskbar: TaskbarIdentity,
                                        base: nat, limit: nat)
    requires Legal(start, run) && i <= j <= |run| && IsCalm(start, run, i, j, taskbar)
    requires Recent(Recall(start, run[..i]), base, limit)
    requires GoesWell(start, run, i, j)
    ensures Recent(Recall(start, run[..j]), base, limit)
  {
    hide Unhindered, Watch, Allowed, Legal, Recall, Recent, CalmStep;
    if i < j {
      LegalAt(start, run, j - 1);
      RecentGoesOn(start, run, i, j - 1, taskbar, base, limit);
      ShowsSucceed(Recall(start, run[..j - 1]), run[j - 1]);
      RecentStep(Recall(start, run[..j - 1]), run[j - 1], taskbar, base, limit);
    }
  }

  /** The events after `b` come at `c` or later. */
  ghost predicate LaterThan(run: seq<Event>, b: nat, n: nat, c: nat)
    requires n <= |run|
  {
    forall k :: b < k < n ==> NotBefore(run[k], c)
  }

  lemma {:induction false} KnownGoesOn(start: TaskbarIdentity, run: seq<Event>, b: nat, n: nat,
                                       taskbar: TaskbarIdentity, c: nat)
    requires Legal(start, run) && b < n <= |run| && PassSince(run[..n], b) && IsReal(taskbar)
    requires IsCalm(start, run, b, n, taskbar) && Recall(start, run[..n]).pace.clock < UINT64_MODULUS
    requires forall k :: b < k < n ==> Heard(Recall(start, run[..k]).mind.identity, taskbar, c)
    requires LaterThan(run, b, n, c + REPAIR_INTERVAL_MS)
    ensures Known(Recall(start, run[..n]), taskbar, c)
  {
    hide Watch, Allowed, Legal, Recall, Known, CalmStep, NotBefore, Heard;
    var h := Recall(start, run[..n - 1]);
    LegalAt(start, run, n - 1);
    if b < n - 1 {
      ClockStep(h, run[n - 1]);
      KnownGoesOn(start, run, b, n - 1, taskbar, c);
      KnownStep(h, run[n - 1], taskbar, c);
    } else {
      PassStartsCalm(h, run[n - 1], taskbar, c);
    }
  }

  lemma {:induction false} ScreenStays(start: TaskbarIdentity, run: seq<Event>, b: nat, n: nat,
                                       taskbar: TaskbarIdentity, c: nat)
    requires Legal(start, run) && b < n <= |run| && PassSince(run[..n], b) && IsReal(taskbar)
    requires IsCalm(start, run, b, n, taskbar) && Recall(start, run[..n]).pace.clock < UINT64_MODULUS
    requires forall k :: b < k < n ==> Settling(Recall(start, run[..k]), taskbar, c)
    requires LaterThan(run, b, n, c + REPAIR_INTERVAL_MS)
    requires GoesWell(start, run, b + 1, n)
    ensures OnScreen(Recall(start, run[..n]))
  {
    hide Unhindered, Watch, Allowed, Legal, Recall, OnScreen, CalmStep, NotBefore, Settling, Dated;
    var h := Recall(start, run[..n - 1]);
    LegalAt(start, run, n - 1);
    if b < n - 1 {
      ClockStep(h, run[n - 1]);
      ScreenStays(start, run, b, n - 1, taskbar, c);
      RunIsDated(start, run[..n - 1]);
      VisibleIsPresented(start, run[..n - 1]);
      ShowsSucceed(h, run[n - 1]);
      OnScreenStep(h, run[n - 1], taskbar, c);
    } else {
      PassStartsCalm(h, run[n - 1], taskbar, c);
    }
  }

  lemma {:induction false} ClockGoesOn(start: TaskbarIdentity, run: seq<Event>, i: nat, j: nat)
    requires Legal(start, run) && i <= j <= |run|
    ensures Recall(start, run[..i]).pace.clock <= Recall(start, run[..j]).pace.clock
  {
    hide Watch, Allowed, Legal, Recall;
    if i < j {
      LegalAt(start, run, j - 1);
      ClockGoesOn(start, run, i, j - 1);
      ClockStep(Recall(start, run[..j - 1]), run[j - 1]);
    }
  }

  // ---------------------------------------------------------------- three passes

  /** A whole pass, calm from its first to its last event, that ends before `limit`. */
  ghost predicate CalmPass(start: TaskbarIdentity, run: seq<Event>, b: nat, e: nat, limit: nat) {
    && b < e < |run| && PassSince(run[..e], b) && run[e].PassEnded? && EndsBy(run[e].outcome, limit)
    && Recall(start, run[..e]).pace.clock < UINT64_MODULUS
  }

  lemma PassEndNeeds(h: History, e: Event)
    requires Allowed(h, e) && e.PassEnded?
    ensures h.pass.Running? && h.call.Idle? && MayEnd(h, e.outcome)
    ensures Watch(h, e).mind == h.mind && Watch(h, e).pace == h.pace
  {
  }

  lemma {:induction false} AfterFirstPass(start: TaskbarIdentity, run: seq<Event>, b: nat, e: nat,
                                          taskbar: TaskbarIdentity, limit: nat)
    requires Legal(start, run) && IsReal(taskbar) && CalmPass(start, run, b, e, limit)
    requires IsCalm(start, run, b, e, taskbar)
    ensures Sought(Recall(start, run[..e]), taskbar, Recall(start, run[..e]).pace.clock)
  {
    hide Watch, Allowed, Legal, Recall, InPass, Dated, Sought, MayEnd;
    LegalAt(start, run, e);
    PassEndNeeds(Recall(start, run[..e]), run[e]);
    PassGoesOn(start, run, b, e, taskbar);
    RunIsDated(start, run[..e]);
    FirstPassEnds(Recall(start, run[..e]), run[e].outcome, taskbar);
  }

  lemma SoughtIsHeard(h: History, taskbar: TaskbarIdentity, c: nat)
    requires Sought(h, taskbar, c)
    ensures Heard(h.mind.identity, taskbar, c)
  {
  }

  lemma SettlingIsHeard(h: History, taskbar: TaskbarIdentity, c: nat)
    requires Settling(h, taskbar, c)
    ensures Heard(h.mind.identity, taskbar, c)
  {
  }

  lemma {:induction false} AfterSecondPass(start: TaskbarIdentity, run: seq<Event>, b: nat, e: nat,
                                           taskbar: TaskbarIdentity, c: nat,
                                           base: nat, limit: nat)
    requires Legal(start, run) && IsReal(taskbar) && CalmPass(start, run, b, e, limit)
    requires IsCalm(start, run, b, e, taskbar) && LaterThan(run, b, e, c + REPAIR_INTERVAL_MS)
    requires Sought(Recall(start, run[..b]), taskbar, c) && Recent(Recall(start, run[..b]), base, limit)
    requires GoesWell(start, run, b, e)
    ensures Settling(Recall(start, run[..e]), taskbar, Recall(start, run[..e]).pace.clock)
  {
    hide Unhindered, Watch, Allowed, Legal, Recall, InPass, Dated, Sought, Heard, Recent, Known, MayEnd, Settling,
         CalmStep;
    var h := Recall(start, run[..e]);
    LegalAt(start, run, e);
    PassEndNeeds(h, run[e]);
    PassGoesOn(start, run, b, e, taskbar);
    RunIsDated(start, run[..e]);
    RecentGoesOn(start, run, b, e, taskbar, base, limit);
    SoughtGoesOn(start, run, b, e, taskbar, c);
    forall k | b < k < e ensures Heard(Recall(start, run[..k]).mind.identity, taskbar, c) {
      ClockGoesOn(start, run, k, e);
      SoughtGoesOn(start, run, b, k, taskbar, c);
      SoughtIsHeard(Recall(start, run[..k]), taskbar, c);
    }
    KnownGoesOn(start, run, b, e, taskbar, c);
    SecondPassEnds(h, run[e].outcome, taskbar, c, base, limit);
  }

  lemma {:induction false} AfterThirdPass(start: TaskbarIdentity, run: seq<Event>, b: nat, e: nat,
                                          taskbar: TaskbarIdentity, c: nat,
                                          base: nat, limit: nat)
    requires Legal(start, run) && IsReal(taskbar) && CalmPass(start, run, b, e, limit)
    requires IsCalm(start, run, b, e, taskbar) && LaterThan(run, b, e, c + REPAIR_INTERVAL_MS)
    requires Settling(Recall(start, run[..b]), taskbar, c) && Recent(Recall(start, run[..b]), base, limit)
    requires GoesWell(start, run, b, e)
    ensures Recall(start, run[..e]).world.visible != {} && Settling(Recall(start, run[..e]), taskbar, c)
  {
    hide Unhindered, Watch, Allowed, Legal, Recall, InPass, Dated, Heard, Recent, Known, MayEnd, Settling, OnScreen,
         CalmStep;
    var h := Recall(start, run[..e]);
    LegalAt(start, run, e);
    PassEndNeeds(h, run[e]);
    PassGoesOn(start, run, b, e, taskbar);
    RecentGoesOn(start, run, b, e, taskbar, base, limit);
    SettlingGoesOn(start, run, b, e, taskbar, c);
    forall k | b < k < e ensures Settling(Recall(start, run[..k]), taskbar, c)
                                 && Heard(Recall(start, run[..k]).mind.identity, taskbar, c) {
      ClockGoesOn(start, run, k, e);
      SettlingGoesOn(start, run, b, k, taskbar, c);
      SettlingIsHeard(Recall(start, run[..k]), taskbar, c);
    }
    KnownGoesOn(start, run, b, e, taskbar, c);
    ScreenStays(start, run, b, e, taskbar, c);
    ThirdPassEnds(h, run[e].outcome, taskbar, c, base, limit);
  }

  /** No refusal or quiet time that is still on record is so old, when the last pass ends, that the wrapped
      clock would take its deadline for a future one. */
  ghost predicate ClockCanTell(h: History, limit: nat) {
    Recent(h, h.pace.clock, limit)
  }

  /** Three whole passes that nobody hinders, each at least five seconds after the one before. */
  ghost predicate ThreeCalmPasses(
    start: TaskbarIdentity, run: seq<Event>, taskbar: TaskbarIdentity,
    b1: nat, e1: nat, b2: nat, e2: nat, b3: nat, e3: nat, limit: nat)
  {
    && b1 < e1 < b2 < e2 < b3 < e3 < |run|
    && CalmPass(start, run, b1, e1, limit) && CalmPass(start, run, b2, e2, limit) && CalmPass(start, run, b3, e3, limit)
    && IsCalm(start, run, b1, e3, taskbar) && ClockCanTell(Recall(start, run[..b1]), limit)
    && LaterThan(run, b2, e2, Recall(start, run[..e1]).pace.clock + REPAIR_INTERVAL_MS)
    && LaterThan(run, b3, e3, Recall(start, run[..e2]).pace.clock + REPAIR_INTERVAL_MS)
  }

  /** Recovery. From whatever the run has left behind, three such passes end with an overlay on the screen
      that was created for the present taskbar and presented since. */
  lemma {:induction false} RecoversInThreePasses(
    start: TaskbarIdentity, run: seq<Event>, taskbar: TaskbarIdentity,
    b1: nat, e1: nat, b2: nat, e2: nat, b3: nat, e3: nat, limit: nat)
    returns (w: Hwnd)
    requires Legal(start, run) && IsReal(taskbar)
    requires ThreeCalmPasses(start, run, taskbar, b1, e1, b2, e2, b3, e3, limit)
    ensures IsVisible(run[..e3], w) && IsAlive(run[..e3], w) && IsPresented(run[..e3], w)
    ensures OfThisTaskbar(start, run[..e3], w) && Recall(start, run[..e3]).mind.identity.committed == taskbar
  {
    hide Watch, Allowed, Legal, Recall, Sought, Heard, Recent, Settling, CalmStep, IsVisible, IsAlive, IsPresented,
         OfThisTaskbar, LaterThan, Unhindered;
    CalmFrom(start, run, b1, e3, taskbar);
    var c1, c2 := Recall(start, run[..e1]).pace.clock, Recall(start, run[..e2]).pace.clock;
    var base := Recall(start, run[..b1]).pace.clock;
    AfterFirstPass(start, run, b1, e1, taskbar, limit);
    ClockGoesOn(start, run, b2, e2);
    SoughtGoesOn(start, run, e1, b2, taskbar, c1);
    RecentGoesOn(start, run, b1, b2, taskbar, base, limit);
    AfterSecondPass(start, run, b2, e2, taskbar, c1, base, limit);
    ClockGoesOn(start, run, b3, e3);
    SettlingGoesOn(start, run, e2, b3, taskbar, c2);
    RecentGoesOn(start, run, b2, b3, taskbar, base, limit);
    AfterThirdPass(start, run, b3, e3, taskbar, c2, base, limit);
    var h := Recall(start, run[..e3]);
    w :| w in h.world.visible;
    LegalAt(start, run, e3);
    VisibleIsCurrent(start, run[..e3], taskbar, c2, w);
  }

  /** What is visible when no overlay waits to be replaced belongs to the committed taskbar. */
  lemma {:induction false} VisibleIsCurrent(start: TaskbarIdentity, run: seq<Event>, taskbar: TaskbarIdentity, c: nat,
                                            w: Hwnd)
    requires Legal(start, run) && Settling(Recall(start, run), taskbar, c) && w in Recall(start, run).world.visible
    ensures IsVisible(run, w) && IsAlive(run, w) && IsPresented(run, w) && OfThisTaskbar(start, run, w)
    ensures Recall(start, run).mind.identity.committed == taskbar
  {
    hide Legal, Recall, IsVisible, IsAlive, IsPresented, OfThisTaskbar, ClearedBy;
    VisibleIsPresented(start, run);
    WorldIsWhatHappened(start, run, w);
    RecreateIsWhatHappened(start, run);
    OverlayIsOfThisTaskbar(start, run, w);
  }
}
