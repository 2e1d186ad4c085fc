/** A screenshot in the foreground freezes the overlay, and a while longer. */
module OverlaySilence {
  import opened OverlayPolicy
  import opened Ticks
  import opened OverlayProtocol
  import opened OverlayRuns
  import opened WorkIsServed
  import opened OverlayPacing

  ghost function SeesScreenshot(): Event -> bool { (e: Event) => e.ForegroundSeen? && e.screenshot }

  ghost function SeesNoScreenshot(): Event -> bool { (e: Event) => e.ForegroundSeen? && !e.screenshot }

  /** The last look at the foreground window saw a screenshot tool. */
  ghost predicate IsFrozen(run: seq<Event>) {
    Holds(run, SeesScreenshot(), SeesNoScreenshot())
  }

  /** The event samples for the overlay, places, fills or shows it, or begins to. Styling, hiding and
      raising it, and setting its owner, are not meant: those the reconciler does at other times too. */
  ghost predicate Updates(e: Event) {
    || e.Presented? || e.Shown? || e.Placed? || e.RenderTried? || e.SurfaceCleared? || e.ShowTried? || e.PrepareBegan?
    || e.PromoteBegan? || e.MetricsSampled? || e.RepairBegan?
  }

  lemma MindStep(mind: Mind, e: Event)
    ensures var after := WatchMind(mind, e);
            && after.frozen == (SeesScreenshot()(e) || (mind.frozen && !SeesNoScreenshot()(e)))
            && (!e.ForegroundSeen? && !e.ResumeFinished? ==> after.resumeAt == mind.resumeAt)
            && (e.ForegroundSeen? ==>
                  after.resumeAt == if e.screenshot == mind.frozen then mind.resumeAt
                  else if e.screenshot then Never else ResumeMoment(e.at))
            && (!e.SuppressionSeen? ==> after.suppression == mind.suppression)
  {
    hide SeeTaskbar, SeeSuppression;
  }

  lemma {:induction false} FrozenIsWhatHappened(start: TaskbarIdentity, run: seq<Event>)
    ensures Recall(start, run).mind.frozen <==> IsFrozen(run)
  {
    hide WatchMind, SeesScreenshot, SeesNoScreenshot, Holds;
    HoldsStep(run, SeesScreenshot(), SeesNoScreenshot());
    if |run| > 0 {
      var n := |run| - 1;
      FrozenIsWhatHappened(start, run[..n]);
      MindStep(Recall(start, run[..n]).mind, run[n]);
    }
  }

  lemma UpdateNeedsOpen(h: History, e: Event)
    requires Allowed(h, e) && Updates(e)
    ensures Open(h)
  {
    hide MayEnd, NotExposed, Forced, ReadyToPresent, Waited, WaitOver;
  }

  /** The overlay is placed, filled or shown only in a pass that has looked, found no screenshot, and has
      nothing to suppress. */
  lemma {:induction false} FrozenMeansSilent(start: TaskbarIdentity, run: seq<Event>, b: nat, j: nat)
    requires Legal(start, run) && b < j < |run| && PassSince(run[..j], b) && Updates(run[j])
    ensures !IsFrozen(run[..j]) && LookedSince(run[..j], b)
    ensures Recall(start, run[..j]).mind.suppression.committed.None?
  {
    hide Updates, Allowed, PassSince;
    LegalAt(start, run, j);
    UpdateNeedsOpen(Recall(start, run[..j]), run[j]);
    FrozenIsWhatHappened(start, run[..j]);
    PassIsWhatHappened(start, run[..j], b);
  }

  lemma {:induction false} UpdateIsInsideAPass(start: TaskbarIdentity, run: seq<Event>, j: nat)
    requires Legal(start, run) && j < |run| && Updates(run[j])
    ensures Holds(run[..j], Begins(), Ends()) && !IsFrozen(run[..j])
  {
    hide Updates, Allowed, Holds;
    LegalAt(start, run, j);
    UpdateNeedsOpen(Recall(start, run[..j]), run[j]);
    FrozenIsWhatHappened(start, run[..j]);
    PassIsRunning(start, run[..j]);
  }

  lemma RaiseNeeds(h: History, e: Event)
    requires Allowed(h, e) && e.Raised?
    ensures !h.mind.frozen && h.mind.suppression.committed.None? && e.hwnd in h.world.visible
    ensures h.pass.Running? && h.pass.view.decided && h.call.Idle?
  {
  }

  /** An overlay is raised for its own sake only when it is on the screen, no screenshot is in the
      foreground, and nothing is to be hidden. */
  lemma {:induction false} RaisedInSight(start: TaskbarIdentity, run: seq<Event>, j: nat)
    requires Legal(start, run) && j < |run| && run[j].Raised?
    ensures IsVisible(run[..j], run[j].hwnd) && !IsFrozen(run[..j])
    ensures Recall(start, run[..j]).mind.suppression.committed.None?
  {
    hide Allowed, Watch, Legal, Recall, IsFrozen, IsVisible, IsAlive, IsPresented;
    LegalAt(start, run, j);
    RaiseNeeds(Recall(start, run[..j]), run[j]);
    FrozenIsWhatHappened(start, run[..j]);
    WorldIsWhatHappened(start, run[..j], run[j].hwnd);
  }

  lemma UnknownKeepsReason(h: History, e: Event)
    requires Allowed(h, e) && h.mind.frozen
    ensures Watch(h, e).mind.suppression.committed == h.mind.suppression.committed
  {
    hide MayEnd, NotExposed, Forced, ReadyToPresent, Waited, WaitOver, Open, MayShow, SeeTaskbar;
    hide WatchMail, WatchOwed, WatchWorld, WatchPace, WatchPass, WatchCall, WatchFaults;
  }

  /** While a screenshot is in the foreground, the suppression decision stands. */
  lemma {:induction false} FrozenKeepsDecision(start: TaskbarIdentity, run: seq<Event>, i: nat)
    requires Legal(start, run) && i < |run| && SeesScreenshot()(run[i])
    requires forall k :: i < k < |run| ==> !SeesNoScreenshot()(run[k])
    ensures Recall(start, run).mind.suppression.committed == Recall(start, run[..i]).mind.suppression.committed
  {
    hide WatchMind, Allowed;
    var n := |run| - 1;
    LastStep(start, run);
    var before := Recall(start, run[..n]);
    MindStep(before.mind, run[n]);
    if i < n {
      assert run[..n][..i] == run[..i];
      FrozenKeepsDecision(start, run[..n], i);
      assert HoldsFrom(run[..n], i, SeesScreenshot(), SeesNoScreenshot());
      FrozenIsWhatHappened(start, run[..n]);
      UnknownKeepsReason(before, run[n]);
    }
  }

  // ---------------------------------------------------------------- the time after a screenshot

  /** The screenshot that was in the foreground is seen to be gone at step `i`. */
  ghost predicate Thaws(run: seq<Event>, i: nat) {
    i < |run| && SeesNoScreenshot()(run[i]) && IsFrozen(run[..i])
  }

  /** The quiet time that began at step `i` has been ended, not before its time. */
  ghost predicate ResumedSince(run: seq<Event>, i: nat)
    requires Thaws(run, i)
  {
    exists k :: i < k < |run| && run[k].ResumeFinished? && run[k].at >= run[i].at + RESUME_DELAY_MS
  }

  lemma ResumeNeedsDeadline(h: History, e: Event)
    requires Allowed(h, e) && e.ResumeFinished? && Dated(h)
    ensures h.mind.resumeAt.At? && (h.mind.resumeAt.ms <= e.at || TickOf(h.mind.resumeAt.ms) == 0)
  {
    hide Open, MayShow, MayEnd, NotExposed, Forced, ReadyToPresent;
    TickPassedIsExact(e.at, h.mind.resumeAt.ms);
  }

  lemma {:induction false} QuietAfterThaw(start: TaskbarIdentity, run: seq<Event>, i: nat)
    requires Legal(start, run) && Thaws(run, i) && forall k :: i < k < |run| ==> !SeesScreenshot()(run[k])
    ensures Recall(start, run).mind.resumeAt == ResumeMoment(run[i].at) || ResumedSince(run, i)
  {
    hide WatchMind, Allowed, IsFrozen, Dated;
    var n := |run| - 1;
    LastStep(start, run);
    var before := Recall(start, run[..n]);
    MindStep(before.mind, run[n]);
    FrozenIsWhatHappened(start, run[..n]);
    if i < n {
      assert run[..n][..i] == run[..i];
      QuietAfterThaw(start, run[..n], i);
      NotFrozenAfterThaw(run[..n], i);
      if ResumedSince(run[..n], i) {
        var k :| i < k < n && run[..n][k].ResumeFinished? && run[..n][k].at >= run[i].at + RESUME_DELAY_MS;
        assert run[k].ResumeFinished?;
      } else if run[n].ResumeFinished? {
        RunIsDated(start, run[..n]);
        ResumeNeedsDeadline(before, run[n]);
      }
    }
  }

  lemma NotFrozenAfterThaw(run: seq<Event>, i: nat)
    requires i < |run| && SeesNoScreenshot()(run[i]) && forall k :: i < k < |run| ==> !SeesScreenshot()(run[k])
    ensures !IsFrozen(run)
  {
    forall p | 0 <= p < |run| ensures !HoldsFrom(run, p, SeesScreenshot(), SeesNoScreenshot()) {
      assert p < i || p == i || !SeesScreenshot()(run[p]);
    }
  }

  /** After a screenshot the overlay is not placed, filled or shown until 800 ms have passed and a pass has
      noticed, unless the wrapped deadline is the tick that reads as none. */
  lemma {:induction false} SilentUntilResumed(start: TaskbarIdentity, run: seq<Event>, i: nat, j: nat)
    requires Legal(start, run) && j < |run| && i < j && Thaws(run[..j], i) && Updates(run[j])
    requires forall k :: i < k < j ==> !SeesScreenshot()(run[k])
    ensures ResumedSince(run[..j], i) || TickOf(run[i].at + RESUME_DELAY_MS) == 0
  {
    hide Updates, Allowed, IsFrozen;
    LegalAt(start, run, j);
    UpdateNeedsOpen(Recall(start, run[..j]), run[j]);
    QuietAfterThaw(start, run[..j], i);
  }
}
