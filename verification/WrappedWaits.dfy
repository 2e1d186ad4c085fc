/** The waits of the reconciler on a 32-bit clock, exactly: when a refused show, a refused teardown, the quiet
    time after a screenshot and a repair are followed up, and when they are held back.

    A deadline that falls on tick 0 reads as none, so the wait is skipped. A deadline that was missed by half
    the range of the clock, 24.8 days, reads as one that lies ahead, so the wait starts over. */
module WrappedWaits {
  import opened OverlayPolicy
  import opened OverlayObservation
  import opened Ticks
  import opened OverlayProtocol
  import opened OverlaySteps
  import opened OverlayRuns
  import opened WorkIsServed
  import opened UpkeepRepairs
  import opened OverlayPacing
  import opened OverlaySilence
  import opened PassOutcomes
  import opened OverlayExamples
  import opened PromotionExample

  // ---------------------------------------------------------------- readings

  /** Before its time a wait reads as over exactly when its deadline falls on tick 0. */
  lemma EarlyMeansZero(since: nat, delay: nat, now: nat)
    requires since <= now < since + delay <= since + HALF_RANGE
    ensures WaitOver(At(since), delay, now) <==> TickOf(since + delay) == 0
  {
    TickPassedIsExact(now, since + delay);
  }

  /** After its time a wait reads as not over exactly when the clock has gone on by more than half its range
      since the deadline, not counting whole rounds, and the deadline is not tick 0. */
  lemma LateMeansHalfway(since: nat, delay: nat, now: nat)
    requires since + delay <= now
    ensures !WaitOver(At(since), delay, now)
            <==> TickOf(since + delay) != 0 && (now - (since + delay)) % TICK_MODULUS >= HALF_RANGE
  {
    TickPassedIsExact(now, since + delay);
  }

  /** Between two passes: the overlay `w` exists, out of sight. */
  ghost predicate HiddenAtRest(h: History, w: Hwnd) {
    h.pass.NoPass? && h.call.Idle? && h.world == World({w}, {}, {}, true, 1, 0, 0) && h.mind.resumeAt.Never?
  }

  /** The style is refused in a show, which ends it. */
  lemma ShowFails(start: TaskbarIdentity, run: seq<Event>, h: History) returns (run': seq<Event>, h': History)
    requires Legal(start, run) && Recall(start, run) == h && h.pass.Running? && h.call.Preparing?
    ensures Legal(start, run') && Recall(start, run') == h' && run' == run + [StyleTried(false), PrepareEnded(false)]
    ensures h'.mind == h.mind && h'.pace == h.pace && h'.world == h.world && h'.call.Idle? && h'.pass.Running?
    ensures h'.pass.view == h.pass.view && h'.pass.life == h.pass.life.(styleRefused := true)
    ensures h.pass.show.ShowPending? ==> h'.pass.show == ShowEnded(false)
  {
    hide Legal, Recall, Watch, Allowed;
    StyleAllowed(h, false);
    run', h' := More(start, run, h, StyleTried(false));
    StyleRefusedEffect(h);
    RefusedMayEnd(h');
    PrepareEndedEffect(h', false);
    run', h' := More(start, run', h', PrepareEnded(false));
  }

  lemma StyleRefusedEffect(h: History)
    requires h.pass.Running? && h.call.Preparing?
    ensures var h' := Watch(h, StyleTried(false));
            && h'.mind == h.mind && h'.pace == h.pace && h'.world == h.world
            && h'.call == h.call.(styled := false, refused := true)
            && h'.pass.Running? && h'.pass.show == h.pass.show && h'.pass.view == h.pass.view
            && h'.pass.life == h.pass.life.(styleRefused := true)
  {
  }

  lemma RefusedMayEnd(h: History)
    requires h.call.Preparing? && h.call.refused
    ensures Allowed(h, PrepareEnded(false))
  {
  }

  /** A first pass at time `at` whose show is refused. */
  lemma FirstShowRefused(taskbar: TaskbarIdentity, w: Hwnd, at: nat) returns (run: seq<Event>, h: History)
    requires IsReal(taskbar) && w != 0
    ensures Legal(taskbar, run) && Recall(taskbar, run) == h && Calm(h, taskbar) && HiddenAtRest(h, w)
    ensures h.pace == Pace(false, Never, At(at), Never, true, 0, Never, at)
    ensures |run| > 1 && run[|run| - 2] == ShowRefused(at) && run[|run| - 1] == PassEnded(ShowAttempted)
  {
    hide Legal, Recall, Watch, Allowed, Calm;
    run, h := FirstPassAt(taskbar, w, {Reposition, Render}, at);
    var looked := h;
    run, h := ShowStarts(taskbar, run, h, w, at);
    run, h := ShowFails(taskbar, run, h);
    ConclusionAllowed(h, at);
    ShowConcludedEffect(h, at);
    run, h := More(taskbar, run, h, ShowRefused(at));
    ShowAttemptEnds(h);
    EndEffect(h, ShowAttempted);
    run, h := More(taskbar, run, h, PassEnded(ShowAttempted));
    MendsMind(looked, h, taskbar);
  }

  /** A look at the taskbar that finds it unchanged commits nothing. */
  lemma SameTaskbarCommitsNothing(start: TaskbarIdentity, run: seq<Event>, k: nat, taskbar: TaskbarIdentity, at: nat)
    requires k < |run| && run[k] == TaskbarSeen(taskbar, at) && Follows(Recall(start, run[..k]), taskbar)
    ensures !CommitsIdentity(start, run, k)
  {
    hide Recall, ReduceTaskbarIdentity, Follows;
    SameSighting(Recall(start, run[..k]), taskbar, at);
  }

  lemma ClearSightRestoresNothing(start: TaskbarIdentity, run: seq<Event>, k: nat, at: nat)
    requires k < |run| && run[k] == SuppressionSeen(CLEAR_OBSERVATION, at)
    requires Recall(start, run[..k]).mind.suppression == Settled(None)
    ensures !Restores(start, run, k)
  {
    hide Recall, ReduceSuppressionPolicy;
    ClearSight(Recall(start, run[..k]), at);
  }

  lemma CalmMeans(h: History, taskbar: TaskbarIdentity)
    requires Calm(h, taskbar)
    ensures h.mind.suppression == Settled(None) && !h.mind.frozen && IsReal(taskbar)
  {
  }

  lemma OnlySightsConclude(start: TaskbarIdentity, run: seq<Event>, k: nat)
    requires k < |run|
    ensures CommitsIdentity(start, run, k) ==> run[k].TaskbarSeen?
    ensures Restores(start, run, k) ==> run[k].SuppressionSeen?
  {
  }

  lemma ForegroundKeepsPolicy(start: TaskbarIdentity, run: seq<Event>, at: nat)
    requires |run| > 0 && run[|run| - 1] == ForegroundSeen(false, at)
    ensures Recall(start, run).mind.suppression == Recall(start, run[..|run| - 1]).mind.suppression
  {
    MindStep(Recall(start, run[..|run| - 1]).mind, run[|run| - 1]);
  }

  lemma FollowsOn(h: History, before: History, taskbar: TaskbarIdentity)
    requires Follows(before, taskbar) && h.mind == before.mind
    ensures Follows(h, taskbar)
  {
  }

  // ---------------------------------------------------------------- a show

  /** A second pass that asks for nothing, up to its decisions. */
  lemma SecondLook(start: TaskbarIdentity, run: seq<Event>, h: History, taskbar: TaskbarIdentity, w: Hwnd, at: nat)
    returns (run': seq<Event>, h': History)
    requires Legal(start, run) && Recall(start, run) == h && Calm(h, taskbar) && h.pass.NoPass? && h.call.Idle?
    requires h.pace.clock <= at && !h.pace.recreate && h.world.alive == {w}
    ensures Legal(start, run') && Recall(start, run') == h'
    ensures run' == run + [Requested({}), PassBegan({}), TaskbarSeen(taskbar, at), TaskbarProbed(true), OverlayFound(w),
                           ForegroundSeen(false, at), SuppressionSeen(CLEAR_OBSERVATION, at)]
    ensures h'.mind == h.mind && h'.pace == h.pace.(clock := at) && h'.world == h.world && h'.call.Idle?
    ensures h'.owed == h.owed && h'.faults == h.faults
    ensures h'.pass == Running({}, h.owed, {}, LOOKED_UP.(looked := true, decided := true),
                               UNTOUCHED.(ensured := true), NoShow, NoUpkeep)
    ensures PassSince(run', |run| + 1) && !HasReasonToShow(start, run', |run| + 1)
  {
    hide Legal, Recall, Watch, Allowed, Follows;
    var begun, hb := PassOpens(start, run, h, {});
    MendsMind(h, hb, taskbar);
    CalmMeans(hb, taskbar);
    var seen, hs := TaskbarAgain(start, begun, hb, taskbar, at);
    var found, hf := OverlayAgain(start, seen, hs, w);
    run', h' := DesktopClear(start, found, hf, at);
    assert seen == begun + seen[|begun|..] && run' == found + run'[|found|..];
    assert run'[..|begun|] == begun && run'[..|found|] == found;
    assert run'[..|found| + 1] == run'[..|run'| - 1];
    SecondLookIsPlain(start, run', |run| + 1, taskbar, w, at, hb, hf);
  }

  lemma SecondLookIsPlain(start: TaskbarIdentity, run: seq<Event>, b: nat, taskbar: TaskbarIdentity, w: Hwnd, at: nat,
                          hb: History, hf: History)
    requires b + 6 == |run| && run[b..] == [PassBegan({}), TaskbarSeen(taskbar, at), TaskbarProbed(true),
                                            OverlayFound(w),
                                            ForegroundSeen(false, at), SuppressionSeen(CLEAR_OBSERVATION, at)]
    requires Recall(start, run[..b + 1]) == hb && Calm(hb, taskbar)
    requires Recall(start, run[..b + 4]) == hf && hf.mind == hb.mind
    ensures PassSince(run, b) && !HasReasonToShow(start, run, b)
  {
    hide Recall, Follows, CommitsIdentity, Restores, WatchMind, ReduceSuppressionPolicy;
    CalmMeans(hb, taskbar);
    assert forall k :: 0 <= k < 6 ==> run[b + k] == run[b..][k];
    assert run[b + 1] == TaskbarSeen(taskbar, at) && run[b + 5] == SuppressionSeen(CLEAR_OBSERVATION, at);
    SameTaskbarCommitsNothing(start, run, b + 1, taskbar, at);
    ForegroundKeepsPolicy(start, run[..b + 5], at);
    assert run[..b + 5][..b + 4] == run[..b + 4];
    ClearSightRestoresNothing(start, run, b + 5, at);
    assert forall k :: b < k < |run| ==> !run[k].Created? && !run[k].PassBegan? && !run[k].PassEnded?;
    forall k | b < k < |run| ensures !CommitsIdentity(start, run, k) && !Restores(start, run, k) {
      OnlySightsConclude(start, run, k);
    }
  }

  /** The latest word on shows is that one was refused at time `t0`. */
  ghost predicate ShowRefusedLast(run: seq<Event>, t0: nat) {
    exists i :: 0 <= i < |run| && ShowWaitSince(run, i, t0)
  }

  /** After a show was refused at `t0`, a pass without a reason of its own tries the next at `t1`. */
  ghost predicate ShowRetried(start: TaskbarIdentity, run: seq<Event>, t0: nat, t1: nat) {
    && Legal(start, run) && |run| > 0 && run[|run| - 1] == ShowTried(t1)
    && var past := run[..|run| - 1];
    && ShowRefusedLast(past, t0)
    && exists b :: 0 <= b < |past| && PassSince(past, b) && !HasReasonToShow(start, past, b)
  }

  /** After a show was refused at `t0`, a pass holds the next one back at `t1`. */
  ghost predicate ShowHeld(start: TaskbarIdentity, run: seq<Event>, t0: nat, t1: nat) {
    && Legal(start, run) && |run| > 0 && run[|run| - 1] == PassEnded(BackingOff(t1))
    && ShowRefusedLast(run[..|run| - 1], t0)
  }

  lemma ShowRetryNeeds(start: TaskbarIdentity, run: seq<Event>, t0: nat, t1: nat)
    requires ShowRetried(start, run, t0, t1)
    ensures t0 <= t1 && WaitOver(At(t0), REPAIR_INTERVAL_MS, t1)
  {
    hide Legal, Recall, HasReasonToShow, SettlesShow, WaitOver;
    var j := |run| - 1;
    var i :| 0 <= i < j && ShowWaitSince(run[..j], i, t0);
    var b :| 0 <= b < j && PassSince(run[..j], b) && !HasReasonToShow(start, run[..j], b);
    ShowWaitStands(run, i, t0);
    TimeNeverGoesBack(start, run, i, j);
    ShowsReadTheClock(start, run, i, b, j);
  }

  lemma ShowWaitStands(run: seq<Event>, i: nat, t0: nat)
    requires i < |run| - 1 && ShowWaitSince(run[..|run| - 1], i, t0)
    ensures run[i] == ShowRefused(t0) && forall k :: i < k < |run| - 1 ==> !SettlesShow(run[k])
  {
    hide SettlesShow;
    var past := run[..|run| - 1];
    assert run[i] == past[i];
    forall k | i < k < |run| - 1 ensures !SettlesShow(run[k]) {
      assert past[k] == run[k];
    }
  }

  lemma BackingOffNeeds(h: History, t1: nat)
    requires h.pass.Running? && MayEnd(h, BackingOff(t1))
    ensures h.pace.clock <= t1 && !WaitOver(h.pace.showRefused, REPAIR_INTERVAL_MS, t1)
  {
  }

  lemma ShowHoldNeeds(start: TaskbarIdentity, run: seq<Event>, t0: nat, t1: nat)
    requires ShowHeld(start, run, t0, t1)
    ensures t0 <= t1 && !WaitOver(At(t0), REPAIR_INTERVAL_MS, t1)
  {
    hide Legal, Recall, Watch, Allowed, MayEnd, SettlesShow, WaitOver;
    var j := |run| - 1;
    var past := run[..j];
    var i :| 0 <= i < j && ShowWaitSince(past, i, t0);
    LegalAt(start, run, j);
    EndNeeds(Recall(start, past), run[j]);
    BackingOffNeeds(Recall(start, past), t1);
    ClockIsLatest(start, past, i);
    RefusalIsRemembered(start, past, i);
  }

  /** A refused show, and the look at the desktop of the next pass. */
  lemma LookAfterRefusal(taskbar: TaskbarIdentity, w: Hwnd, t0: nat, t1: nat)
    returns (run: seq<Event>, h: History, b: nat)
    requires IsReal(taskbar) && w != 0 && t0 <= t1
    ensures Legal(taskbar, run) && Recall(taskbar, run) == h && ShowRefusedLast(run, t0)
    ensures b < |run| && PassSince(run, b) && !HasReasonToShow(taskbar, run, b)
    ensures h.pass.Running? && Open(h) && Equipped(h) && h.call.Idle? && !Forced(h.pass) && Unstarted(h.pass)
    ensures h.pace == Pace(false, Never, At(t0), Never, true, 0, Never, t1) && NotExposed(h)
  {
    hide Legal, Recall, Watch, Allowed, Follows, HasReasonToShow, PassSince;
    var refused;
    refused, h := FirstShowRefused(taskbar, w, t0);
    CalmMeans(h, taskbar);
    run, h := SecondLook(taskbar, refused, h, taskbar, w, t1);
    b := |refused| + 1;
    RefusalStands(refused, run, t0);
  }

  lemma RefusalStands(refused: seq<Event>, run: seq<Event>, t0: nat)
    requires |refused| > 1 && refused[|refused| - 2] == ShowRefused(t0) && refused[|refused| - 1].PassEnded?
    requires refused <= run && forall k :: |refused| <= k < |run| ==> !SettlesShow(run[k])
    ensures ShowRefusedLast(run, t0)
  {
    assert ShowWaitSince(run, |refused| - 2, t0);
  }

  /** A run in which the show is tried again. */
  lemma ShowRetry(taskbar: TaskbarIdentity, w: Hwnd, t0: nat, t1: nat) returns (run: seq<Event>)
    requires IsReal(taskbar) && w != 0 && t0 <= t1 && WaitOver(At(t0), REPAIR_INTERVAL_MS, t1)
    ensures ShowRetried(taskbar, run, t0, t1)
  {
    hide Legal, Recall, Watch, Allowed, HasReasonToShow, PassSince, ShowRefusedLast, WaitOver;
    var past, h, b := LookAfterRefusal(taskbar, w, t0, t1);
    ShowMayBeTried(h, t1);
    run, h := More(taskbar, past, h, ShowTried(t1));
    assert run[..|run| - 1] == past;
  }

  lemma BackingOffEnds(h: History, t1: nat)
    requires h.pass.Running? && Open(h) && Equipped(h) && !Forced(h.pass) && h.pace.clock <= t1
    requires !WaitOver(h.pace.showRefused, REPAIR_INTERVAL_MS, t1)
    ensures MayEnd(h, BackingOff(t1))
  {
  }

  /** A run in which it is held back. */
  lemma ShowHold(taskbar: TaskbarIdentity, w: Hwnd, t0: nat, t1: nat) returns (run: seq<Event>)
    requires IsReal(taskbar) && w != 0 && t0 <= t1 && !WaitOver(At(t0), REPAIR_INTERVAL_MS, t1)
    ensures ShowHeld(taskbar, run, t0, t1)
  {
    hide Legal, Recall, Watch, Allowed, HasReasonToShow, PassSince, ShowRefusedLast, WaitOver, MayEnd;
    var past, h, b := LookAfterRefusal(taskbar, w, t0, t1);
    BackingOffEnds(h, t1);
    EndEffect(h, BackingOff(t1));
    run, h := More(taskbar, past, h, PassEnded(BackingOff(t1)));
    assert run[..|run| - 1] == past;
  }

  /** After a show refused at `t0`, a pass without a reason of its own can try again at `t1` if and only if the
      wrapped clock reads the wait as over then, and can hold the show back if and only if it does not. */
  lemma ShowWaitIsExact(t0: nat, t1: nat)
    requires t0 <= t1
    ensures (exists start, run :: ShowRetried(start, run, t0, t1)) <==> WaitOver(At(t0), REPAIR_INTERVAL_MS, t1)
    ensures (exists start, run :: ShowHeld(start, run, t0, t1)) <==> !WaitOver(At(t0), REPAIR_INTERVAL_MS, t1)
  {
    hide ShowRetried, ShowHeld, WaitOver;
    if start, run :| ShowRetried(start, run, t0, t1) {
      ShowRetryNeeds(start, run, t0, t1);
    }
    if start, run :| ShowHeld(start, run, t0, t1) {
      ShowHoldNeeds(start, run, t0, t1);
    }
    var taskbar := TaskbarIdentity(1, 1);
    if WaitOver(At(t0), REPAIR_INTERVAL_MS, t1) {
      var run := ShowRetry(taskbar, 1, t0, t1);
      assert ShowRetried(taskbar, run, t0, t1);
    } else {
      var run := ShowHold(taskbar, 1, t0, t1);
      assert ShowHeld(taskbar, run, t0, t1);
    }
  }

  /** A refused show can be tried again before its five seconds are over, without a reason, if and only if the
      deadline falls on tick 0. */
  lemma ShowTooSoon(t0: nat, t1: nat)
    requires t0 <= t1 < t0 + REPAIR_INTERVAL_MS
    ensures (exists start, run :: ShowRetried(start, run, t0, t1)) <==> TickOf(t0 + REPAIR_INTERVAL_MS) == 0
  {
    hide ShowRetried, ShowHeld, WaitOver;
    ShowWaitIsExact(t0, t1);
    EarlyMeansZero(t0, REPAIR_INTERVAL_MS, t1);
  }

  /** It can be held back after its five seconds are over if and only if the clock reads the deadline, missed
      by half its range, as one that lies ahead. */
  lemma ShowTooLate(t0: nat, t1: nat)
    requires t0 + REPAIR_INTERVAL_MS <= t1
    ensures (exists start, run :: ShowHeld(start, run, t0, t1))
            <==> TickOf(t0 + REPAIR_INTERVAL_MS) != 0 && (t1 - (t0 + REPAIR_INTERVAL_MS)) % TICK_MODULUS >= HALF_RANGE
  {
    hide ShowRetried, ShowHeld, WaitOver;
    ShowWaitIsExact(t0, t1);
    LateMeansHalfway(t0, REPAIR_INTERVAL_MS, t1);
  }

  // ---------------------------------------------------------------- a teardown

  /** An overlay `w` of the taskbar `first`, while `next` has been committed for as long as a look takes. */
  lemma TaskbarReplaced(first: TaskbarIdentity, next: TaskbarIdentity, w: Hwnd, at: nat)
    returns (run: seq<Event>, h: History)
    requires IsReal(first) && IsReal(next) && first != next && w != 0 && IDENTITY_SETTLE_MS <= at
    ensures Legal(first, run) && Recall(first, run) == h && Follows(h, next)
    ensures h.world == World({w}, {}, {}, h.world.current, 1, 0, 0) && h.call.Idle?
    ensures h.pace.recreate && h.pace.teardownRefused.Never? && h.pace.clock == at
    ensures h.pass.Running? && h.pass.life == UNTOUCHED && h.pass.view.taskbar.Ready? && Unstarted(h.pass)
  {
    hide Legal, Recall, Watch, Allowed, ReduceTaskbarIdentity;
    run, h := FirstShowRefused(first, w, at - IDENTITY_SETTLE_MS);
    OtherSighting(h.mind.identity, first, next, at - IDENTITY_SETTLE_MS);
    run, h := LookAtTaskbar(first, run, h, next, at - IDENTITY_SETTLE_MS);
    OutOfSight(h);
    EndEffect(h, AwaitingIdentity);
    run, h := More(first, run, h, PassEnded(AwaitingIdentity));
    OtherSighting(h.mind.identity, first, next, at);
    run, h := LookAtTaskbar(first, run, h, next, at);
  }

  lemma RefusalAllowed(h: History, at: nat)
    requires h.pass.Running? && h.pace.clock <= at && h.pace.recreate && h.pass.life.teardown.Tried?
             && h.world.alive != {}
    ensures Allowed(h, TeardownRefused(at))
  {
  }

  /** The overlay of the replaced taskbar cannot be destroyed, and the pass ends. */
  lemma TeardownFails(first: TaskbarIdentity, next: TaskbarIdentity, w: Hwnd, at: nat)
    returns (run: seq<Event>, h: History)
    requires IsReal(first) && IsReal(next) && first != next && w != 0 && IDENTITY_SETTLE_MS <= at
    ensures Legal(first, run) && Recall(first, run) == h && Follows(h, next)
    ensures h.world == World({w}, {}, {}, h.world.current, 1, 0, 0) && h.call.Idle? && h.pass.NoPass?
    ensures h.pace.recreate && h.pace.teardownRefused == At(at) && h.pace.clock == at
    ensures |run| > 1 && run[|run| - 2] == TeardownRefused(at) && run[|run| - 1] == PassEnded(TeardownFailed)
  {
    hide Legal, Recall, Watch, Allowed, ReduceTaskbarIdentity;
    run, h := TaskbarReplaced(first, next, w, at);
    TeardownAllowed(h, at);
    TeardownTriedEffect(h, at);
    run, h := More(first, run, h, TeardownTried(at));
    RefusalAllowed(h, at);
    TeardownRefusedEffect(h, at);
    run, h := More(first, run, h, TeardownRefused(at));
    OutOfSight(h);
    EndEffect(h, TeardownFailed);
    run, h := More(first, run, h, PassEnded(TeardownFailed));
  }

  /** The latest word on teardowns is that one was refused at time `t0`, and an overlay exists. */
  ghost predicate TeardownRefusedLast(start: TaskbarIdentity, run: seq<Event>, t0: nat) {
    && (exists i :: 0 <= i < |run| && TeardownWaits(start, run, i, t0))
    && (exists w :: IsAlive(run, w))
  }

  /** After a teardown was refused at `t0`, the next is tried at `t1`, on an overlay that still exists. */
  ghost predicate TeardownRetried(start: TaskbarIdentity, run: seq<Event>, t0: nat, t1: nat) {
    && Legal(start, run) && |run| > 0 && run[|run| - 1] == TeardownTried(t1)
    && TeardownRefusedLast(start, run[..|run| - 1], t0)
  }

  ghost predicate TeardownHeld(start: TaskbarIdentity, run: seq<Event>, t0: nat, t1: nat) {
    && Legal(start, run) && |run| > 0 && run[|run| - 1] == PassEnded(AwaitingTeardown(t1))
    && TeardownRefusedLast(start, run[..|run| - 1], t0)
  }

  lemma TeardownEventNeeds(h: History, e: Event, t1: nat)
    requires Allowed(h, e) && (e == TeardownTried(t1) || e == PassEnded(AwaitingTeardown(t1)))
    ensures h.pace.clock <= t1
    ensures e.TeardownTried? ==> h.world.alive == {} || WaitOver(h.pace.teardownRefused, REPAIR_INTERVAL_MS, t1)
    ensures e.PassEnded? ==> !WaitOver(h.pace.teardownRefused, REPAIR_INTERVAL_MS, t1)
  {
  }

  /** The run ends with a follow-up at `t1` to the teardown refused at `t0`. */
  lemma TeardownNeedsReading(start: TaskbarIdentity, run: seq<Event>, t0: nat, t1: nat)
    requires Legal(start, run) && |run| > 0 && TeardownRefusedLast(start, run[..|run| - 1], t0)
    requires var e := run[|run| - 1]; e == TeardownTried(t1) || e == PassEnded(AwaitingTeardown(t1))
    ensures IDENTITY_SETTLE_MS <= t0 <= t1
    ensures run[|run| - 1].TeardownTried? <==> WaitOver(At(t0), REPAIR_INTERVAL_MS, t1)
  {
    hide Legal, Recall, Watch, Allowed, SettlesTeardown, WaitOver, IsAlive, IsVisible, IsPresented;
    var j := |run| - 1;
    var past := run[..j];
    var h := Recall(start, past);
    var i :| 0 <= i < j && TeardownWaits(start, past, i, t0);
    var w :| IsAlive(past, w);
    LegalAt(start, run, j);
    TeardownEventNeeds(h, run[j], t1);
    ClockIsLatest(start, past, i);
    TeardownIsRemembered(start, past, i);
    WorldIsWhatHappened(start, past, w);
    RefusalTakesTime(start, past, i);
  }

  /** A refused teardown needs a committed taskbar change, and that takes its time to settle. */
  lemma RefusalTakesTime(start: TaskbarIdentity, run: seq<Event>, i: nat)
    requires Legal(start, run) && i < |run| && run[i].TeardownRefused?
    ensures run[i].at >= IDENTITY_SETTLE_MS
  {
    hide Legal, Recall, Watch, Allowed;
    LegalAt(start, run, i);
    RefusalNeedsReplacement(Recall(start, run[..i]), run[i]);
    ReplacementTakesTime(start, run[..i]);
  }

  lemma RefusalNeedsReplacement(h: History, e: Event)
    requires Allowed(h, e) && e.TeardownRefused?
    ensures h.pace.recreate && h.pace.clock <= e.at
  {
  }

  lemma CommitTakesTime(mind: Mind, e: Event)
    requires e.TaskbarSeen? && SeeTaskbar(mind, e).committedChanged
    requires mind.identity.candidateActive ==> mind.identity.candidateSinceMs <= e.at
    ensures e.at >= IDENTITY_SETTLE_MS
  {
    var since := mind.identity.candidateSinceMs;
    assert Elapsed64(e.at, since) <= e.at - since;
  }

  lemma {:induction false} ReplacementTakesTime(start: TaskbarIdentity, run: seq<Event>)
    requires Legal(start, run) && Recall(start, run).pace.recreate
    ensures Recall(start, run).pace.clock >= IDENTITY_SETTLE_MS
  {
    hide Watch, Allowed;
    if |run| > 0 {
      var n := |run| - 1;
      var h, e := Recall(start, run[..n]), run[n];
      LastStep(start, run);
      ClockStep(h, e);
      PaceIsWatched(h, e);
      PaceEvents(h.pace, h.mind, e);
      RunIsDated(start, run[..n]);
      if h.pace.recreate {
        ReplacementTakesTime(start, run[..n]);
      } else {
        CommitTakesTime(h.mind, e);
      }
    }
  }

  /** A refused teardown, and the look at the taskbar of the next pass. */
  lemma LookAfterTeardown(first: TaskbarIdentity, next: TaskbarIdentity, w: Hwnd, t0: nat, t1: nat)
    returns (run: seq<Event>, h: History)
    requires IsReal(first) && IsReal(next) && first != next && w != 0 && IDENTITY_SETTLE_MS <= t0 <= t1
    ensures Legal(first, run) && Recall(first, run) == h && TeardownRefusedLast(first, run, t0)
    ensures h.pass.Running? && h.call.Idle? && Surveyed(h.pass) && !h.pass.life.ensured && NotExposed(h)
    ensures Unstarted(h.pass)
    ensures h.pace.recreate && h.pace.teardownRefused == At(t0) && h.pace.clock == t1 && h.world.alive == {w}
  {
    hide Legal, Recall, Watch, Allowed, Follows, ReduceTaskbarIdentity, IsAlive, IsVisible, IsPresented;
    var refused;
    refused, h := TeardownFails(first, next, w, t0);
    var begun;
    begun, h := PassOpens(first, refused, h, {});
    FollowsOn(h, Recall(first, refused), next);
    run, h := TaskbarAgain(first, begun, h, next, t1);
    assert run == begun + run[|begun|..] && run[..|begun|] == begun;
    WorldIsWhatHappened(first, run, w);
    SameTaskbarCommitsNothing(first, run, |begun|, next, t1);
    forall k | |refused| - 2 < k < |run| ensures !SettlesTeardown(first, run, k) {
      OnlySightsConclude(first, run, k);
    }
    assert TeardownWaits(first, run, |refused| - 2, t0);
  }

  lemma TeardownRetry(first: TaskbarIdentity, next: TaskbarIdentity, w: Hwnd, t0: nat, t1: nat)
    returns (run: seq<Event>)
    requires IsReal(first) && IsReal(next) && first != next && w != 0 && IDENTITY_SETTLE_MS <= t0 <= t1
    requires WaitOver(At(t0), REPAIR_INTERVAL_MS, t1)
    ensures TeardownRetried(first, run, t0, t1)
  {
    hide Legal, Recall, Watch, Allowed, TeardownRefusedLast, WaitOver;
    var past, h := LookAfterTeardown(first, next, w, t0, t1);
    TeardownAllowed(h, t1);
    run, h := More(first, past, h, TeardownTried(t1));
    assert run[..|run| - 1] == past;
  }

  lemma AwaitingTeardownEnds(h: History, t1: nat)
    requires h.pass.Running? && Surveyed(h.pass) && h.pace.recreate && h.world.alive != {} && h.pace.clock <= t1
    requires !WaitOver(h.pace.teardownRefused, REPAIR_INTERVAL_MS, t1)
    ensures MayEnd(h, AwaitingTeardown(t1))
  {
  }

  lemma TeardownHold(first: TaskbarIdentity, next: TaskbarIdentity, w: Hwnd, t0: nat, t1: nat)
    returns (run: seq<Event>)
    requires IsReal(first) && IsReal(next) && first != next && w != 0 && IDENTITY_SETTLE_MS <= t0 <= t1
    requires !WaitOver(At(t0), REPAIR_INTERVAL_MS, t1)
    ensures TeardownHeld(first, run, t0, t1)
  {
    hide Legal, Recall, Watch, Allowed, TeardownRefusedLast, WaitOver, MayEnd;
    var past, h := LookAfterTeardown(first, next, w, t0, t1);
    AwaitingTeardownEnds(h, t1);
    EndEffect(h, AwaitingTeardown(t1));
    run, h := More(first, past, h, PassEnded(AwaitingTeardown(t1)));
    assert run[..|run| - 1] == past;
  }

  /** After a teardown refused at `t0`, which no run has before a taskbar can have settled, the overlay can be
      tried to be destroyed again at `t1` if and only if the wrapped clock reads the wait as over then, and can
      be left alone if and only if it does not. */
  lemma TeardownWaitIsExact(t0: nat, t1: nat)
    requires t0 <= t1
    ensures (exists start, run :: TeardownRetried(start, run, t0, t1))
            <==> IDENTITY_SETTLE_MS <= t0 && WaitOver(At(t0), REPAIR_INTERVAL_MS, t1)
    ensures (exists start, run :: TeardownHeld(start, run, t0, t1))
            <==> IDENTITY_SETTLE_MS <= t0 && !WaitOver(At(t0), REPAIR_INTERVAL_MS, t1)
  {
    hide Legal, TeardownRefusedLast, WaitOver;
    if start, run :| TeardownRetried(start, run, t0, t1) {
      TeardownNeedsReading(start, run, t0, t1);
    }
    if start, run :| TeardownHeld(start, run, t0, t1) {
      TeardownNeedsReading(start, run, t0, t1);
    }
    if IDENTITY_SETTLE_MS <= t0 {
      var first, next := TaskbarIdentity(1, 1), TaskbarIdentity(2, 2);
      if WaitOver(At(t0), REPAIR_INTERVAL_MS, t1) {
        var run := TeardownRetry(first, next, 1, t0, t1);
        assert TeardownRetried(first, run, t0, t1);
      } else {
        var run := TeardownHold(first, next, 1, t0, t1);
        assert TeardownHeld(first, run, t0, t1);
      }
    }
  }

  /** A refused teardown can be tried again before its five seconds are over if and only if the deadline falls
      on tick 0. */
  lemma TeardownTooSoon(t0: nat, t1: nat)
    requires t0 <= t1 < t0 + REPAIR_INTERVAL_MS
    ensures (exists start, run :: TeardownRetried(start, run, t0, t1)) <==> TickOf(t0 + REPAIR_INTERVAL_MS) == 0
  {
    hide TeardownRetried, TeardownHeld, WaitOver;
    TeardownWaitIsExact(t0, t1);
    EarlyMeansZero(t0, REPAIR_INTERVAL_MS, t1);
  }

  /** It can be held back after its five seconds are over if and only if the clock reads the missed deadline as
      one that lies ahead. */
  lemma TeardownTooLate(t0: nat, t1: nat)
    requires IDENTITY_SETTLE_MS <= t0 && t0 + REPAIR_INTERVAL_MS <= t1
    ensures (exists start, run :: TeardownHeld(start, run, t0, t1))
            <==> TickOf(t0 + REPAIR_INTERVAL_MS) != 0 && (t1 - (t0 + REPAIR_INTERVAL_MS)) % TICK_MODULUS >= HALF_RANGE
  {
    hide TeardownRetried, TeardownHeld, WaitOver;
    TeardownWaitIsExact(t0, t1);
    LateMeansHalfway(t0, REPAIR_INTERVAL_MS, t1);
  }

  // ---------------------------------------------------------------- the quiet time after a screenshot

  lemma FrozenSight(h: History, at: nat)
    requires h.mind.suppression == Settled(None)
    ensures ReduceSuppressionPolicy(h.mind.suppression, UNKNOWN_OBSERVATION, at, SHIPPED_CONFIG)
            == SuppressionPolicyResult(h.mind.suppression, 0, 0, false)
    ensures SlowToHide(UNKNOWN_OBSERVATION)
  {
  }

  /** A first pass that makes an overlay, and then sees a screenshot. */
  lemma FirstPassFrozen(taskbar: TaskbarIdentity, w: Hwnd, at: nat) returns (run: seq<Event>, h: History)
    requires IsReal(taskbar) && w != 0
    ensures Legal(taskbar, run) && Recall(taskbar, run) == h && HiddenAtRest(h, w) && h.mind.frozen
    ensures h.mind.suppression == Settled(None) && h.owed == {}
    ensures h.mind.identity == TaskbarIdentityState(taskbar, taskbar, 0, false)
    ensures h.pace == Pace(false, Never, Never, Never, true, 0, Never, at)
  {
    hide Legal, Recall, Watch, Allowed, ReduceSuppressionPolicy;
    run, h := [], Beginning(taskbar);
    EmptyRun(taskbar, run);
    BeginningIsCalm(taskbar);
    run, h := PassOpens(taskbar, run, h, {Reposition, Render});
    run, h := TaskbarAgain(taskbar, run, h, taskbar, at);
    run, h := OverlayMade(taskbar, run, h, taskbar, w);
    ForegroundAllowed(h, true, at);
    ForegroundEffect(h, true, at);
    run, h := More(taskbar, run, h, ForegroundSeen(true, at));
    FrozenSight(h, at);
    SuppressionAllowed(h, UNKNOWN_OBSERVATION, at);
    SuppressionEffect(h, UNKNOWN_OBSERVATION, at);
    run, h := More(taskbar, run, h, SuppressionSeen(UNKNOWN_OBSERVATION, at));
    EndEffect(h, OverlayProtocol.Frozen);
    run, h := More(taskbar, run, h, PassEnded(OverlayProtocol.Frozen));
  }

  /** A screenshot was seen to be gone at time `t0`, and none has been seen since. */
  ghost predicate ThawedLast(run: seq<Event>, t0: nat) {
    exists i :: 0 <= i < |run| && ThawStands(run, i, t0)
  }

  ghost predicate ThawStands(run: seq<Event>, i: nat, t0: nat) {
    Thaws(run, i) && run[i].at == t0 && forall k :: i < k < |run| ==> !SeesScreenshot()(run[k])
  }

  /** After that, the overlay is placed, filled or shown, or that is begun, at time `t1`. */
  ghost predicate UpdatedAfterThaw(start: TaskbarIdentity, run: seq<Event>, t0: nat, t1: nat) {
    && Legal(start, run) && |run| > 0 && Updates(run[|run| - 1]) && ThawedLast(run[..|run| - 1], t0)
    && Recall(start, run).pace.clock == t1
  }

  /** After that, a pass leaves the overlay alone at time `t1`. */
  ghost predicate QuietHeld(start: TaskbarIdentity, run: seq<Event>, t0: nat, t1: nat) {
    && Legal(start, run) && |run| > 0 && run[|run| - 1] == PassEnded(Resuming(t1))
    && ThawedLast(run[..|run| - 1], t0)
  }

  lemma UpdateNeedsTime(start: TaskbarIdentity, run: seq<Event>, t0: nat, t1: nat)
    requires UpdatedAfterThaw(start, run, t0, t1)
    ensures t0 <= t1 && (t0 + RESUME_DELAY_MS <= t1 || TickOf(t0 + RESUME_DELAY_MS) == 0)
  {
    hide Legal, Recall, Updates, IsFrozen;
    var j := |run| - 1;
    var past := run[..j];
    var i :| 0 <= i < j && ThawStands(past, i, t0);
    assert past[i] == run[i];
    ClockIsLatest(start, run, i);
    forall k | i < k < j ensures !SeesScreenshot()(run[k]) {
      assert past[k] == run[k];
    }
    SilentUntilResumed(start, run, i, j);
    if ResumedSince(past, i) {
      var k :| i < k < j && past[k].ResumeFinished? && past[k].at >= past[i].at + RESUME_DELAY_MS;
      assert past[k] == run[k];
      ClockIsLatest(start, run, k);
    }
  }

  /** The deadline of the quiet time is the one set when the screenshot was gone, as long as there is one. */
  lemma {:induction false} DeadlineAfterThaw(start: TaskbarIdentity, run: seq<Event>, i: nat)
    requires Legal(start, run) && Thaws(run, i) && forall k :: i < k < |run| ==> !SeesScreenshot()(run[k])
    ensures var resumeAt := Recall(start, run).mind.resumeAt;
            resumeAt.Never? || resumeAt == ResumeMoment(run[i].at)
  {
    hide Watch, WatchMind, Allowed, IsFrozen;
    var n := |run| - 1;
    var before := Recall(start, run[..n]);
    LastStep(start, run);
    MindIsWatched(before, run[n]);
    MindEvents(before.mind, run[n]);
    FrozenIsWhatHappened(start, run[..n]);
    if i < n {
      assert run[..n][..i] == run[..i];
      DeadlineAfterThaw(start, run[..n], i);
      NotFrozenAfterThaw(run[..n], i);
    }
  }

  lemma ResumingNeeds(h: History, t1: nat)
    requires h.pass.Running? && MayEnd(h, Resuming(t1))
    ensures h.pace.clock <= t1 && h.mind.resumeAt.At? && !WaitOver(h.mind.resumeAt, 0, t1)
  {
  }

  lemma ResumeReads(t0: nat, t1: nat)
    ensures WaitOver(ResumeMoment(t0), 0, t1) <==> WaitOver(At(t0), RESUME_DELAY_MS, t1)
  {
  }

  lemma QuietNeedsReading(start: TaskbarIdentity, run: seq<Event>, t0: nat, t1: nat)
    requires QuietHeld(start, run, t0, t1)
    ensures t0 <= t1 && !WaitOver(At(t0), RESUME_DELAY_MS, t1)
  {
    hide Legal, Recall, Watch, Allowed, MayEnd, WaitOver, IsFrozen, ResumeMoment;
    var j := |run| - 1;
    var past := run[..j];
    var i :| 0 <= i < j && ThawStands(past, i, t0);
    LegalAt(start, run, j);
    EndNeeds(Recall(start, past), run[j]);
    ResumingNeeds(Recall(start, past), t1);
    ClockIsLatest(start, past, i);
    DeadlineAfterThaw(start, past, i);
    ResumeReads(t0, t1);
  }

  /** A screenshot, and the look at the desktop that finds it gone. */
  lemma LookAfterScreenshot(taskbar: TaskbarIdentity, w: Hwnd, t0: nat) returns (run: seq<Event>, h: History)
    requires IsReal(taskbar) && w != 0
    ensures Legal(taskbar, run) && Recall(taskbar, run) == h && ThawedLast(run, t0)
    ensures h.pass.Running? && h.call.Idle? && Equipped(h) && h.pass.view.looked && Unstarted(h.pass)
    ensures !h.mind.frozen && h.mind.suppression == Settled(None) && h.mind.resumeAt == ResumeMoment(t0)
    ensures h.pace == Pace(false, Never, Never, Never, true, 0, Never, t0) && NotExposed(h)
  {
    hide Legal, Recall, Watch, Allowed, Follows, IsFrozen, ResumeMoment;
    var frozen, hf := FirstPassFrozen(taskbar, w, t0);
    FollowsStays(hf, hf, taskbar);
    var begun, seen, found;
    begun, h := PassOpens(taskbar, frozen, hf, {});
    FollowsStays(hf, h, taskbar);
    seen, h := TaskbarAgain(taskbar, begun, h, taskbar, t0);
    found, h := OverlayAgain(taskbar, seen, h, w);
    FrozenIsWhatHappened(taskbar, found);
    run, h := DesktopClear(taskbar, found, h, t0);
    assert run == found + run[|found|..] && run[..|found|] == found;
    assert ThawStands(run, |found|, t0);
  }

  lemma FollowsStays(h: History, h': History, taskbar: TaskbarIdentity)
    requires h'.mind.identity == TaskbarIdentityState(taskbar, taskbar, 0, false) && IsReal(taskbar)
    ensures Follows(h', taskbar)
  {
  }

  lemma ThawStaysLast(run: seq<Event>, t0: nat, e: Event)
    requires ThawedLast(run, t0) && !e.ForegroundSeen?
    ensures ThawedLast(run + [e], t0)
  {
    hide IsFrozen;
    var i :| 0 <= i < |run| && ThawStands(run, i, t0);
    assert (run + [e])[..i] == run[..i];
    assert ThawStands(run + [e], i, t0);
  }

  lemma ResumeAllowed(h: History, at: nat)
    requires h.pass.Running? && h.pace.clock <= at && !h.mind.frozen && h.mind.suppression.committed.None?
    requires h.mind.resumeAt.At? && WaitOver(h.mind.resumeAt, 0, at)
    ensures Allowed(h, ResumeFinished(at))
  {
  }

  lemma UpdateRun(taskbar: TaskbarIdentity, w: Hwnd, t0: nat, t1: nat) returns (run: seq<Event>)
    requires IsReal(taskbar) && w != 0 && t0 <= t1
    requires t0 + RESUME_DELAY_MS <= t1 || TickOf(t0 + RESUME_DELAY_MS) == 0
    ensures UpdatedAfterThaw(taskbar, run, t0, t1)
  {
    hide Legal, Recall, Watch, Allowed, ThawedLast, WaitOver;
    var past, h := LookAfterScreenshot(taskbar, w, t0);
    if h.mind.resumeAt.At? {
      var due := t0 + RESUME_DELAY_MS;
      WaitedMeansOver(due, 0, due);
      ResumeAllowed(h, due);
      ResumeEffect(h, due);
      ThawStaysLast(past, t0, ResumeFinished(due));
      past, h := More(taskbar, past, h, ResumeFinished(due));
    }
    NeverIsOver(REPAIR_INTERVAL_MS, t1);
    ShowMayBeTried(h, t1);
    ShowTriedEffect(h, t1);
    run, h := More(taskbar, past, h, ShowTried(t1));
    assert run[..|run| - 1] == past;
  }

  lemma NeverIsOver(delay: nat, now: nat)
    ensures WaitOver(Never, delay, now)
  {
  }

  lemma ResumingEnds(h: History, t1: nat)
    requires h.pass.Running? && Equipped(h) && !h.mind.frozen && h.pace.clock <= t1 && h.mind.resumeAt.At?
    requires !WaitOver(h.mind.resumeAt, 0, t1)
    ensures MayEnd(h, Resuming(t1))
  {
  }

  lemma QuietHold(taskbar: TaskbarIdentity, w: Hwnd, t0: nat, t1: nat) returns (run: seq<Event>)
    requires IsReal(taskbar) && w != 0 && t0 <= t1 && !WaitOver(At(t0), RESUME_DELAY_MS, t1)
    ensures QuietHeld(taskbar, run, t0, t1)
  {
    hide Legal, Recall, Watch, Allowed, ThawedLast, WaitOver, MayEnd;
    var past, h := LookAfterScreenshot(taskbar, w, t0);
    ResumeReads(t0, t1);
    NeverIsOver(0, t1);
    ResumingEnds(h, t1);
    EndEffect(h, Resuming(t1));
    run, h := More(taskbar, past, h, PassEnded(Resuming(t1)));
    assert run[..|run| - 1] == past;
  }

  /** After a screenshot seen to be gone at `t0`, the overlay can be updated at `t1` if and only if 800 ms have
      passed or their end falls on tick 0, and can be left alone if and only if the wrapped clock reads the
      quiet time as not over then. */
  lemma QuietTimeIsExact(t0: nat, t1: nat)
    requires t0 <= t1
    ensures (exists start, run :: UpdatedAfterThaw(start, run, t0, t1))
            <==> t0 + RESUME_DELAY_MS <= t1 || TickOf(t0 + RESUME_DELAY_MS) == 0
    ensures (exists start, run :: QuietHeld(start, run, t0, t1)) <==> !WaitOver(At(t0), RESUME_DELAY_MS, t1)
  {
    hide UpdatedAfterThaw, QuietHeld, WaitOver;
    if start, run :| UpdatedAfterThaw(start, run, t0, t1) {
      UpdateNeedsTime(start, run, t0, t1);
    }
    if start, run :| QuietHeld(start, run, t0, t1) {
      QuietNeedsReading(start, run, t0, t1);
    }
    var taskbar := TaskbarIdentity(1, 1);
    if t0 + RESUME_DELAY_MS <= t1 || TickOf(t0 + RESUME_DELAY_MS) == 0 {
      var run := UpdateRun(taskbar, 1, t0, t1);
      assert UpdatedAfterThaw(taskbar, run, t0, t1);
    }
    if !WaitOver(At(t0), RESUME_DELAY_MS, t1) {
      var run := QuietHold(taskbar, 1, t0, t1);
      assert QuietHeld(taskbar, run, t0, t1);
    }
  }

  /** The quiet time can be cut short if and only if its end falls on tick 0. */
  lemma ResumedTooSoon(t0: nat, t1: nat)
    requires t0 <= t1 < t0 + RESUME_DELAY_MS
    ensures (exists start, run :: UpdatedAfterThaw(start, run, t0, t1)) <==> TickOf(t0 + RESUME_DELAY_MS) == 0
  {
    hide UpdatedAfterThaw, QuietHeld, WaitOver;
    QuietTimeIsExact(t0, t1);
  }

  /** It can last longer than its time if and only if the clock reads its missed end as one that lies ahead. */
  lemma ResumedTooLate(t0: nat, t1: nat)
    requires t0 + RESUME_DELAY_MS <= t1
    ensures (exists start, run :: QuietHeld(start, run, t0, t1))
            <==> TickOf(t0 + RESUME_DELAY_MS) != 0 && (t1 - (t0 + RESUME_DELAY_MS)) % TICK_MODULUS >= HALF_RANGE
  {
    hide UpdatedAfterThaw, QuietHeld, WaitOver;
    QuietTimeIsExact(t0, t1);
    LateMeansHalfway(t0, RESUME_DELAY_MS, t1);
  }

  // ---------------------------------------------------------------- a repair

  /** The latest repair began at time `t0`. */
  ghost predicate RepairedLast(run: seq<Event>, t0: nat) {
    exists i :: 0 <= i < |run| && RepairStands(run, i, t0)
  }

  ghost predicate RepairStands(run: seq<Event>, i: nat, t0: nat)
    requires i < |run|
  {
    run[i].RepairBegan? && run[i].at == t0 && Unrepaired(run, i)
  }

  /** After that, another repair begins at `t1`. */
  ghost predicate RepairedAgain(start: TaskbarIdentity, run: seq<Event>, t0: nat, t1: nat) {
    && Legal(start, run) && |run| > 0 && run[|run| - 1].RepairBegan? && run[|run| - 1].at == t1
    && RepairedLast(run[..|run| - 1], t0)
  }

  /** The pass that began at `b` has found at `k` that the overlay is broken, and has begun no repair. */
  ghost predicate BrokenSince(run: seq<Event>, b: nat, k: nat)
    requires k < |run|
  {
    b < k && run[k].Inspected? && NeedsRepair(run[k].found) && Unrepaired(run, b)
  }

  /** After that, a whole pass finds the overlay broken, and ends at `t1` without a repair. */
  ghost predicate LeftBroken(start: TaskbarIdentity, run: seq<Event>, t0: nat, t1: nat) {
    && Legal(start, run) && |run| > 0 && run[|run| - 1] == PassEnded(Steady(t1))
    && var past := run[..|run| - 1];
    && RepairedLast(past, t0)
    && exists b, k :: 0 <= b < k < |past| && PassSince(past, b) && BrokenSince(past, b, k)
  }

  lemma {:induction false} RepairIsLatest(start: TaskbarIdentity, run: seq<Event>, i: nat)
    requires i < |run| && run[i].RepairBegan? && Unrepaired(run, i)
    ensures Recall(start, run).pace.repaired == At(run[i].at)
  {
    hide Watch, WatchPace;
    var n := |run| - 1;
    var before := Recall(start, run[..n]);
    PaceIsWatched(before, run[n]);
    PaceEvents(before.pace, before.mind, run[n]);
    if i < n {
      RepairIsLatest(start, run[..n], i);
    }
  }

  lemma RepairAgainNeeds(start: TaskbarIdentity, run: seq<Event>, t0: nat, t1: nat)
    requires RepairedAgain(start, run, t0, t1)
    ensures t0 <= t1 && !RepairPends(t0, t1)
  {
    hide Legal, Recall, Watch, Allowed, RepairPends;
    var j := |run| - 1;
    var i :| 0 <= i < j && RepairStands(run[..j], i, t0);
    LegalAt(start, run, j);
    RepairNeeds(Recall(start, run[..j]), run[j]);
    RepairIsLatest(start, run[..j], i);
    ClockIsLatest(start, run[..j], i);
  }

  lemma SteadyNeeds(h: History, t1: nat)
    requires h.pass.Running? && MayEnd(h, Steady(t1))
    ensures h.pace.clock <= t1 && UpkeepComplete(h, t1) && h.pass.upkeep.Examined?
  {
  }

  lemma LeftBrokenNeeds(start: TaskbarIdentity, run: seq<Event>, t0: nat, t1: nat)
    requires LeftBroken(start, run, t0, t1)
    ensures t0 <= t1 && RepairPends(t0, t1)
  {
    hide Legal, Recall, Watch, Allowed, MayEnd, UpkeepComplete, NeedsRepair, RepairPends, Answered, Unrepaired;
    var j := |run| - 1;
    var past := run[..j];
    var h := Recall(start, past);
    var i :| 0 <= i < j && RepairStands(past, i, t0);
    var b, k :| 0 <= b < k < j && PassSince(past, b) && BrokenSince(past, b, k);
    LegalAt(start, run, j);
    EndNeeds(h, run[j]);
    SteadyNeeds(h, t1);
    SteadyPassRepairs(start, run, b, j, t1);
    var e :| b < e < j && Answered(past, b, e, t1);
    var l := UnansweredMeansPutOff(past, b, k, e, t1);
    RepairIsLatest(start, past, l);
    RepairIsLatest(start, past, i);
    ClockIsLatest(start, past, i);
  }

  lemma UnansweredMeansPutOff(run: seq<Event>, b: nat, k: nat, e: nat, t1: nat) returns (i: nat)
    requires b < k < |run| && b < e < |run| && BrokenSince(run, b, k) && Answered(run, b, e, t1)
    ensures i < |run| && PutOff(run, i, t1)
  {
    hide NeedsRepair, RepairPends;
    assert e == k;
    i :| 0 <= i < b && PutOff(run, i, t1);
  }

  /** An overlay that has lost its place on top. Its frame may be stale or not. */
  function Sunk(stale: bool): RepairObservation {
    RepairObservation(true, true, false, true, true, stale)
  }

  lemma SunkNeedsPlace(stale: bool)
    ensures NeedsRepair(Sunk(stale))
    ensures ComputeOverlayRepairIntent(Sunk(stale)) == RepairIntent(false, false, true, stale, false)
  {
  }

  /** A frame that was presented at time 0, which is stored as tick 1, reads as stale. */
  predicate FirstFrameIsStale(now: nat) {
    TicksSince(TickOf(now), NonZeroTick(0)) > STALE_THRESHOLD_MS
  }

  /** Between passes, with the overlay on the screen. */
  ghost predicate Shining(h: History, taskbar: TaskbarIdentity, w: Hwnd, repaired: Moment, clock: nat) {
    && Calm(h, taskbar) && h.mind.resumeAt.Never? && h.world == World({w}, {w}, {w}, true, 1, 0, 1) && h.owed == {}
    && h.call.Idle? && h.pass.NoPass? && h.pace == Pace(false, Never, Never, repaired, true, 0, Never, clock)
  }

  lemma InspectionAllowed(h: History, found: RepairObservation)
    requires Open(h) && h.call.Idle? && h.pass.upkeep.Keeping?
    ensures Allowed(h, Inspected(found))
  {
  }

  /** A pass at time `at` up to the inspection, which finds that the overlay is not on top. */
  lemma FindSunk(start: TaskbarIdentity, run: seq<Event>, h: History, taskbar: TaskbarIdentity, w: Hwnd,
                 repaired: Moment, before: nat, at: nat, stale: bool)
    returns (run': seq<Event>, h': History)
    requires Legal(start, run) && Recall(start, run) == h && Shining(h, taskbar, w, repaired, before) && before <= at
    ensures Legal(start, run') && Recall(start, run') == h'
    ensures run' == run + [Requested({}), PassBegan({}), TaskbarSeen(taskbar, at), TaskbarProbed(true), OverlayFound(w),
                           ForegroundSeen(false, at), SuppressionSeen(CLEAR_OBSERVATION, at), SawVisible,
                           Inspected(Sunk(stale))]
    ensures Open(h') && Equipped(h') && h'.call.Idle? && h'.pass.todo == {} && h'.owed == {} && NotExposed(h')
    ensures h'.pass.upkeep == Examined(Sunk(stale), false, {}) && h'.pass.show.NoShow? && h'.mind == h.mind
            && h'.world == h.world
    ensures h'.pace == Pace(false, Never, Never, repaired, true, 0, Never, at)
  {
    hide Legal, Recall, Watch, Allowed, HasReasonToShow, PassSince, Follows;
    CalmMeans(h, taskbar);
    run', h' := SecondLook(start, run, h, taskbar, w, at);
    UpkeepBegins(h');
    SawVisibleEffect(h');
    run', h' := More(start, run', h', SawVisible);
    InspectionAllowed(h', Sunk(stale));
    InspectEffect(h', Sunk(stale));
    run', h' := More(start, run', h', Inspected(Sunk(stale)));
  }

  lemma FrameIsTried(h: History)
    requires h.pass.Running? && h.call.Idle? && h.pass.upkeep.Examined?
    ensures Watch(h, RenderTried)
            == h.(pass := h.pass.(done := h.pass.done + {Render},
                                  upkeep := h.pass.upkeep.(fixed := h.pass.upkeep.fixed + {FixFrame})))
  {
  }

  lemma PlaceIsTried(h: History)
    requires h.pass.Running? && h.call.Idle? && h.pass.upkeep.Examined?
    ensures Watch(h, Placed)
            == h.(pass := h.pass.(done := h.pass.done + {Reposition},
                                  upkeep := h.pass.upkeep.(fixed := h.pass.upkeep.fixed + {FixPlace})))
  {
  }

  lemma SteadyEnds(h: History, at: nat, stale: bool)
    requires Open(h) && Equipped(h) && h.pace.clock <= at && h.pass.todo == {} && h.pass.upkeep.Examined?
    requires h.pass.upkeep.found == Sunk(stale) && h.pass.show.NoShow?
    requires if h.pass.upkeep.begun
             then {InSight, FixPlace} <= h.pass.upkeep.fixed && (stale ==> FixFrame in h.pass.upkeep.fixed)
             else RepairMustWait(h.pace, at)
    ensures MayEnd(h, Steady(at)) && NotExposed(h) && ShowSettled(h.pass)
  {
    SunkNeedsPlace(stale);
  }

  /** The steps of a repair: the overlay is placed, and a stale frame is to be replaced, but is missed. */
  lemma RepairSteps(start: TaskbarIdentity, run: seq<Event>, h: History, at: nat, stale: bool)
    returns (run': seq<Event>, h': History)
    requires Legal(start, run) && Recall(start, run) == h && Open(h) && h.call.Idle? && h.pace.clock == at
    requires h.pass.upkeep == Examined(Sunk(stale), false, {}) && !RepairMustWait(h.pace, at) && h.world.visible != {}
    ensures Legal(start, run') && Recall(start, run') == h' && run < run' && run'[|run|] == RepairBegan(at, true)
    ensures forall k :: |run| < k < |run'| ==> !run'[k].RepairBegan?
    ensures h'.pass.Running?
    ensures h' == h.(pace := h.pace.(repaired := At(at)),
                     pass := h.pass.(done := h'.pass.done, upkeep := h'.pass.upkeep))
    ensures h'.pass.upkeep == Examined(Sunk(stale), true, {InSight, FixPlace} + if stale then {FixFrame} else {})
  {
    hide Legal, Recall, Watch, Allowed, NeedsRepair, RepairMustWait;
    SunkNeedsPlace(stale);
    RepairAllowed(h, at);
    RepairEffect(h, at, true);
    run', h' := More(start, run, h, RepairBegan(at, true));
    OpenAllows(h');
    PlaceIsTried(h');
    run', h' := More(start, run', h', Placed);
    if stale {
      OpenAllows(h');
      FrameIsTried(h');
      run', h' := More(start, run', h', RenderTried);
      MissedAllowed(h');
      MissedEffect(h');
      run', h' := More(start, run', h', FrameMissed);
    }
  }

  /** A repair at time `at`, of an overlay whose frame was presented at time 0. */
  lemma RepairRun(taskbar: TaskbarIdentity, w: Hwnd, at: nat, stale: bool) returns (run: seq<Event>, h: History)
    requires IsReal(taskbar) && w != 0
    ensures Legal(taskbar, run) && Recall(taskbar, run) == h && Shining(h, taskbar, w, At(at), at)
    ensures RepairedLast(run, at)
  {
    hide Legal, Recall, Watch, Allowed, Follows, MayEnd;
    var seen;
    run, h, seen := FirstShow(taskbar, w);
    var shown := h;
    run, h := FindSunk(taskbar, run, h, taskbar, w, Never, 0, at, stale);
    var i := |run|;
    run, h := RepairSteps(taskbar, run, h, at, stale);
    SteadyEnds(h, at, stale);
    EndEffect(h, Steady(at));
    run, h := More(taskbar, run, h, PassEnded(Steady(at)));
    MendsMind(shown, h, taskbar);
    assert RepairStands(run, i, at);
  }

  lemma RepairStaysLast(run: seq<Event>, run': seq<Event>, t0: nat)
    requires RepairedLast(run, t0) && run <= run' && forall k :: |run| <= k < |run'| ==> !run'[k].RepairBegan?
    ensures RepairedLast(run', t0)
  {
    var i :| 0 <= i < |run| && RepairStands(run, i, t0);
    assert RepairStands(run', i, t0);
  }

  lemma RepairAgainRun(taskbar: TaskbarIdentity, w: Hwnd, t0: nat, t1: nat, stale0: bool, stale1: bool)
    returns (run: seq<Event>)
    requires IsReal(taskbar) && w != 0 && t0 <= t1 && !RepairPends(t0, t1)
    ensures RepairedAgain(taskbar, run, t0, t1)
  {
    hide Legal, Recall, Watch, Allowed, RepairPends, RepairedLast, Calm;
    var repaired, h := RepairRun(taskbar, w, t0, stale0);
    var found;
    found, h := FindSunk(taskbar, repaired, h, taskbar, w, At(t0), t0, t1, stale1);
    SunkNeedsPlace(stale1);
    RepairAllowed(h, t1);
    RepairStaysLast(repaired, found, t0);
    run, h := More(taskbar, found, h, RepairBegan(t1, true));
    assert run[..|run| - 1] == found;
  }

  lemma LeftBrokenRun(taskbar: TaskbarIdentity, w: Hwnd, t0: nat, t1: nat, stale0: bool, stale1: bool)
    returns (run: seq<Event>)
    requires IsReal(taskbar) && w != 0 && t0 <= t1 && RepairPends(t0, t1)
    ensures LeftBroken(taskbar, run, t0, t1)
  {
    hide Legal, Recall, Watch, Allowed, RepairPends, RepairedLast, Calm, MayEnd, NeedsRepair;
    var repaired, h := RepairRun(taskbar, w, t0, stale0);
    var found;
    found, h := FindSunk(taskbar, repaired, h, taskbar, w, At(t0), t0, t1, stale1);
    SunkNeedsPlace(stale1);
    RepairStaysLast(repaired, found, t0);
    SteadyEnds(h, t1, stale1);
    EndEffect(h, Steady(t1));
    run, h := More(taskbar, found, h, PassEnded(Steady(t1)));
    assert run[..|run| - 1] == found;
    assert PassSince(found, |repaired| + 1) && BrokenSince(found, |repaired| + 1, |found| - 1);
  }

  /** After a repair that began at `t0`, a broken overlay can be repaired at `t1` if and only if the wrapped
      clock reads the wait as over then, and can be left broken by a whole pass if and only if it does not. */
  lemma RepairWaitIsExact(t0: nat, t1: nat)
    requires t0 <= t1
    ensures (exists start, run :: RepairedAgain(start, run, t0, t1)) <==> !RepairPends(t0, t1)
    ensures (exists start, run :: LeftBroken(start, run, t0, t1)) <==> RepairPends(t0, t1)
  {
    hide RepairedAgain, LeftBroken, RepairPends;
    if start, run :| RepairedAgain(start, run, t0, t1) {
      RepairAgainNeeds(start, run, t0, t1);
    }
    if start, run :| LeftBroken(start, run, t0, t1) {
      LeftBrokenNeeds(start, run, t0, t1);
    }
    var taskbar := TaskbarIdentity(1, 1);
    if RepairPends(t0, t1) {
      var run := LeftBrokenRun(taskbar, 1, t0, t1, FirstFrameIsStale(t0), FirstFrameIsStale(t1));
      assert LeftBroken(taskbar, run, t0, t1);
    } else {
      var run := RepairAgainRun(taskbar, 1, t0, t1, FirstFrameIsStale(t0), FirstFrameIsStale(t1));
      assert RepairedAgain(taskbar, run, t0, t1);
    }
  }

  /** A broken overlay can be left broken although its five seconds are over if and only if the clock has gone
      on by more than half its range since then, not counting whole rounds. */
  lemma RepairTooLate(t0: nat, t1: nat)
    requires StoredDeadline(t0, REPAIR_INTERVAL_MS) <= t1
    ensures (exists start, run :: LeftBroken(start, run, t0, t1))
            <==> (t1 - StoredDeadline(t0, REPAIR_INTERVAL_MS)) % TICK_MODULUS >= HALF_RANGE
  {
    hide RepairedAgain, LeftBroken;
    RepairWaitIsExact(t0, t1);
    NotPassedMeansNonZero(t0, REPAIR_INTERVAL_MS, t1);
  }
}
