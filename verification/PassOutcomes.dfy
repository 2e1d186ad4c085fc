/** Why a pass ends: each way out of a pass has its reason in the events of the run. */
module PassOutcomes {
  import opened OverlayPolicy
  import opened OverlayProtocol
  import opened OverlayRuns
  import opened WorkIsServed
  import opened OverlayPacing
  import opened OverlaySilence
  import opened OverlayDecisions

  /** An event of kind `on` has happened since `b`, and none of kind `off` after it. */
  ghost predicate LatestSince(run: seq<Event>, b: nat, on: Event -> bool, off: Event -> bool) {
    exists k :: b < k < |run| && HoldsFrom(run, k, on, off)
  }

  lemma LatestStep(run: seq<Event>, b: nat, on: Event -> bool, off: Event -> bool)
    requires b < |run|
    ensures var n := |run| - 1;
            LatestSince(run, b, on, off) <==>
              b < n && (on(run[n]) || (LatestSince(run[..n], b, on, off) && !off(run[n])))
  {
    var n := |run| - 1;
    if LatestSince(run, b, on, off) && !on(run[n]) {
      var k :| b < k < |run| && HoldsFrom(run, k, on, off);
      assert HoldsFrom(run[..n], k, on, off);
    }
    if b < n && on(run[n]) {
      assert HoldsFrom(run, n, on, off);
    } else if LatestSince(run[..n], b, on, off) && !off(run[n]) {
      var k :| b < k < n && HoldsFrom(run[..n], k, on, off);
      assert HoldsFrom(run, k, on, off);
    }
  }

  ghost function NoEvent(): Event -> bool { (e: Event) => false }

  ghost function TriesTeardown(): Event -> bool { (e: Event) => e.TeardownTried? }

  ghost function RefusesTeardown(): Event -> bool { (e: Event) => e.TeardownRefused? }

  ghost function RefusesOverlay(): Event -> bool { (e: Event) => e.OverlayRefused? }

  ghost function TriesShow(): Event -> bool { (e: Event) => e.ShowTried? }

  ghost function Concludes(): Event -> bool { (e: Event) => e.ShowGranted? || e.ShowRefused? }

  ghost function FindsTaskbar(): Event -> bool { (e: Event) => e == TaskbarProbed(true) }

  ghost function FindsNoTaskbar(): Event -> bool { (e: Event) => e == TaskbarProbed(false) }

  ghost function LooksAnew(): Event -> bool { (e: Event) => e.TaskbarSeen? || e.TaskbarProbed? }

  lemma LifeEvents(e: Event)
    ensures TriesTeardown()(e) <==> e.TeardownTried?
    ensures RefusesTeardown()(e) <==> e.TeardownRefused?
    ensures RefusesOverlay()(e) <==> e.OverlayRefused?
    ensures StyleFails()(e) <==> e.StyleTried? && !e.ok
    ensures StyleWorks()(e) <==> e.StyleTried? && e.ok
    ensures !NoEvent()(e)
  {
  }

  lemma OtherEvents(e: Event)
    ensures TriesShow()(e) <==> e.ShowTried?
    ensures Concludes()(e) <==> e.ShowGranted? || e.ShowRefused?
    ensures FindsTaskbar()(e) <==> e.TaskbarProbed? && e.ready
    ensures FindsNoTaskbar()(e) <==> e.TaskbarProbed? && !e.ready
    ensures LooksAnew()(e) <==> e.TaskbarSeen? || e.TaskbarProbed?
  {
  }

  lemma LifeGoesOn(life: Life, e: Event)
    ensures var after := WatchLife(life, e);
            && (after.teardown.Refused? <==> e.TeardownRefused? || (life.teardown.Refused? && !e.TeardownTried?))
            && (after.overlayRefused <==> e.OverlayRefused? || life.overlayRefused)
            && (after.styleRefused <==> (e.StyleTried? && !e.ok) || (life.styleRefused && !(e.StyleTried? && e.ok)))
  {
  }

  lemma ShowGoesOn(show: ShowWork, e: Event)
    ensures WatchShow(show, e).ShowConcluded? <==>
            e.ShowGranted? || e.ShowRefused? || (show.ShowConcluded? && !e.ShowTried?)
  {
  }

  lemma ViewGoesOn(view: View, mind: Mind, e: Event)
    ensures var after := WatchView(view, mind, e);
            && (after.taskbar.Ready? <==>
                  (e.TaskbarProbed? && e.ready) || (view.taskbar.Ready? && !e.TaskbarSeen? && !e.TaskbarProbed?))
            && (after.taskbar.Missing? <==>
                  (e.TaskbarProbed? && !e.ready) || (view.taskbar.Missing? && !e.TaskbarSeen? && !e.TaskbarProbed?))
            && (after.identityPending == if e.TaskbarSeen? then SeeTaskbar(mind, e).pending else view.identityPending)
  {
    hide SeeTaskbar, SeeSuppression;
  }

  /** The look at the taskbar at `k` left the identity undecided. */
  ghost predicate LeavesPending(start: TaskbarIdentity, run: seq<Event>, k: nat)
    requires k < |run|
  {
    run[k].TaskbarSeen? && SeeTaskbar(Recall(start, run[..k]).mind, run[k]).pending
  }

  /** The last look at the taskbar in the pass that began at `b` left the identity undecided. */
  ghost predicate PendingSince(start: TaskbarIdentity, run: seq<Event>, b: nat) {
    exists k :: b < k < |run| && LeavesPending(start, run, k) && forall l :: k < l < |run| ==> !run[l].TaskbarSeen?
  }

  lemma PendingStep(start: TaskbarIdentity, run: seq<Event>, b: nat)
    requires b < |run| - 1
    ensures var n := |run| - 1;
            (if run[n].TaskbarSeen? then LeavesPending(start, run, n) else PendingSince(start, run[..n], b))
            ==> PendingSince(start, run, b)
  {
    hide LeavesPending;
    var n := |run| - 1;
    if !run[n].TaskbarSeen? && PendingSince(start, run[..n], b) {
      var k :| b < k < n && LeavesPending(start, run[..n], k) && forall l :: k < l < n ==> !run[..n][l].TaskbarSeen?;
      SamePending(start, run, k);
      assert LeavesPending(start, run, k);
    }
  }

  lemma SamePending(start: TaskbarIdentity, run: seq<Event>, k: nat)
    requires k < |run| - 1
    ensures LeavesPending(start, run[..|run| - 1], k) == LeavesPending(start, run, k)
  {
    assert run[..|run| - 1][..k] == run[..k];
  }

  /** How far the pass got is what has happened since it began. */
  lemma {:induction false} ProgressIsWhatHappened(start: TaskbarIdentity, run: seq<Event>, b: nat)
    requires PassSince(run, b)
    ensures var pass := Recall(start, run).pass;
            && pass.Running?
            && (pass.life.teardown.Refused? <==> LatestSince(run, b, RefusesTeardown(), TriesTeardown()))
            && (pass.life.overlayRefused <==> LatestSince(run, b, RefusesOverlay(), NoEvent()))
            && (pass.life.styleRefused <==> LatestSince(run, b, StyleFails(), StyleWorks()))
  {
    hide WatchPass, WatchLife, WatchTodo, WatchDone, WatchView, WatchShow, WatchUpkeep, LatestSince;
    hide RefusesTeardown, TriesTeardown, RefusesOverlay, NoEvent, StyleFails, StyleWorks;
    var n := |run| - 1;
    var before := Recall(start, run[..n]);
    LatestStep(run, b, RefusesTeardown(), TriesTeardown());
    LatestStep(run, b, RefusesOverlay(), NoEvent());
    LatestStep(run, b, StyleFails(), StyleWorks());
    if b < n {
      assert PassSince(run[..n], b);
      ProgressIsWhatHappened(start, run[..n], b);
      PassStep(before.pass, before.owed, before.mind, run[n]);
      LifeGoesOn(before.pass.life, run[n]);
      LifeEvents(run[n]);
    } else {
      PassStarts(before, run[n]);
    }
  }

  lemma {:induction false} SightsAreWhatHappened(start: TaskbarIdentity, run: seq<Event>, b: nat)
    requires PassSince(run, b)
    ensures var pass := Recall(start, run).pass;
            && pass.Running?
            && (pass.show.ShowConcluded? <==> LatestSince(run, b, Concludes(), TriesShow()))
            && (pass.view.taskbar.Ready? <==> LatestSince(run, b, FindsTaskbar(), LooksAnew()))
            && (pass.view.taskbar.Missing? <==> LatestSince(run, b, FindsNoTaskbar(), LooksAnew()))
            && (pass.view.identityPending ==> PendingSince(start, run, b))
  {
    hide WatchPass, WatchLife, WatchTodo, WatchDone, WatchView, WatchShow, WatchUpkeep, LatestSince, PendingSince;
    hide Concludes, TriesShow, FindsTaskbar, FindsNoTaskbar, LooksAnew;
    var n := |run| - 1;
    var before := Recall(start, run[..n]);
    LatestStep(run, b, Concludes(), TriesShow());
    LatestStep(run, b, FindsTaskbar(), LooksAnew());
    LatestStep(run, b, FindsNoTaskbar(), LooksAnew());
    if b < n {
      assert PassSince(run[..n], b);
      SightsAreWhatHappened(start, run[..n], b);
      PassStep(before.pass, before.owed, before.mind, run[n]);
      ViewGoesOn(before.pass.view, before.mind, run[n]);
      ShowGoesOn(before.pass.show, run[n]);
      OtherEvents(run[n]);
      PendingStep(start, run, b);
    } else {
      PassStarts(before, run[n]);
    }
  }

  // ---------------------------------------------------------------- waits

  /** The teardown refused at `i` is the latest word on that matter. */
  ghost predicate TeardownWaits(start: TaskbarIdentity, run: seq<Event>, i: nat, at: nat)
    requires i < |run|
  {
    run[i] == TeardownRefused(at) && forall k :: i < k < |run| ==> !SettlesTeardown(start, run, k)
  }

  ghost predicate ShowWaitSince(run: seq<Event>, i: nat, at: nat)
    requires i < |run|
  {
    run[i] == ShowRefused(at) && forall k :: i < k < |run| ==> !SettlesShow(run[k])
  }

  /** The quiet time that began when the screenshot was seen to be gone at `i` lasts until `until`. */
  ghost predicate QuietWaits(run: seq<Event>, i: nat, until: nat)
    requires i < |run|
  {
    && Thaws(run, i) && run[i].at + RESUME_DELAY_MS == until
    && forall k :: i < k < |run| ==> !run[k].ResumeFinished?
  }

  lemma {:induction false} TeardownWaitIsReal(start: TaskbarIdentity, run: seq<Event>)
    requires Recall(start, run).pace.teardownRefused.At?
    ensures exists i :: 0 <= i < |run| && TeardownWaits(start, run, i, Recall(start, run).pace.teardownRefused.ms)
  {
    hide Watch, WatchPace;
    if |run| > 0 {
      var n := |run| - 1;
      var before := Recall(start, run[..n]);
      PaceIsWatched(before, run[n]);
      PaceEvents(before.pace, before.mind, run[n]);
      if run[n].TeardownRefused? {
        assert TeardownWaits(start, run, n, run[n].at);
      } else {
        TeardownWaitIsReal(start, run[..n]);
        var at := before.pace.teardownRefused.ms;
        var i :| 0 <= i < n && TeardownWaits(start, run[..n], i, at);
        forall k | i < k < |run| ensures !SettlesTeardown(start, run, k) {
          if k < n {
            SameCommit(start, run, k);
            assert !SettlesTeardown(start, run[..n], k);
          }
        }
        assert TeardownWaits(start, run, i, at);
      }
    }
  }

  lemma {:induction false} ShowWaitIsReal(start: TaskbarIdentity, run: seq<Event>)
    requires Recall(start, run).pace.showRefused.At?
    ensures exists i :: 0 <= i < |run| && ShowWaitSince(run, i, Recall(start, run).pace.showRefused.ms)
  {
    hide Watch, WatchPace;
    if |run| > 0 {
      var n := |run| - 1;
      var before := Recall(start, run[..n]);
      PaceIsWatched(before, run[n]);
      PaceEvents(before.pace, before.mind, run[n]);
      if run[n].ShowRefused? {
        assert ShowWaitSince(run, n, run[n].at);
      } else {
        ShowWaitIsReal(start, run[..n]);
        var at := before.pace.showRefused.ms;
        var i :| 0 <= i < n && ShowWaitSince(run[..n], i, at);
        assert ShowWaitSince(run, i, at);
      }
    }
  }

  /** A quiet time that is not over began when a screenshot was seen to be gone. */
  lemma {:induction false} QuietWaitIsReal(start: TaskbarIdentity, run: seq<Event>)
    requires Recall(start, run).mind.resumeAt.At?
    ensures exists i :: 0 <= i < |run| && QuietWaits(run, i, Recall(start, run).mind.resumeAt.ms)
  {
    hide Watch, WatchMind, IsFrozen;
    if |run| > 0 {
      var n := |run| - 1;
      var before := Recall(start, run[..n]);
      MindIsWatched(before, run[n]);
      MindEvents(before.mind, run[n]);
      FrozenIsWhatHappened(start, run[..n]);
      if run[n].ForegroundSeen? && before.mind.frozen && !run[n].screenshot {
        assert Thaws(run, n);
        assert QuietWaits(run, n, run[n].at + RESUME_DELAY_MS);
      } else {
        QuietWaitIsReal(start, run[..n]);
        var until := before.mind.resumeAt.ms;
        var i :| 0 <= i < n && QuietWaits(run[..n], i, until);
        assert run[..n][..i] == run[..i];
        assert Thaws(run, i);
        assert QuietWaits(run, i, until);
      }
    }
  }

  // ---------------------------------------------------------------- the reasons

  /** No overlay is visible, or the last attempt to hide it failed. */
  ghost predicate AllHidden(run: seq<Event>) {
    (forall w :: !IsVisible(run, w)) || Holds(run, HideFails(), HideWorks())
  }

  /** The taskbar was found ready when the pass that began at `b` last asked. */
  ghost predicate TaskbarReady(run: seq<Event>, b: nat) {
    LatestSince(run, b, FindsTaskbar(), LooksAnew())
  }

  ghost predicate TaskbarMissing(run: seq<Event>, b: nat) {
    LatestSince(run, b, FindsNoTaskbar(), LooksAnew())
  }

  /** At `k` no overlay could be had: the taskbar, found ready before, has gone, or no window could be made
      where there was none. */
  ghost predicate RefusedAt(run: seq<Event>, b: nat, k: nat)
    requires k < |run|
  {
    && run[k].OverlayRefused? && TaskbarReady(run[..k], b)
    && (run[k].why.CreationFailed? ==> forall w :: !IsAlive(run[..k], w))
  }

  /** Every request of the pass that began at `b` has been served, other than key sampling. */
  ghost predicate AllServed(run: seq<Event>, b: nat)
    requires b < |run| && run[b].PassBegan?
  {
    forall f :: f in run[b].flags && f != SampleKeys ==> ServedSince(run, b, f)
  }

  /** What must have happened for a pass that began at `b` to end like this. */
  ghost predicate Reason(start: TaskbarIdentity, run: seq<Event>, b: nat, outcome: Outcome)
    requires b < |run| && run[b].PassBegan?
  {
    match outcome
    case AwaitingIdentity => PendingSince(start, run, b) && (TaskbarReady(run, b) || AllHidden(run))
    case AwaitingTeardown(at) =>
      && (exists w :: IsAlive(run, w))
      && exists i, t: nat ::
           0 <= i < |run| && TeardownWaits(start, run, i, t) && !WaitOver(At(t), REPAIR_INTERVAL_MS, at)
    case TeardownFailed => LatestSince(run, b, RefusesTeardown(), TriesTeardown()) && AllHidden(run)
    case NoTaskbar => TaskbarMissing(run, b) && AllHidden(run)
    case NoOverlay => exists k :: b < k < |run| && RefusedAt(run, b, k)
    case StyleRefused => LatestSince(run, b, StyleFails(), StyleWorks())
    case Suppressed => !Recall(start, run).mind.suppression.committed.None? && AllHidden(run)
    case Frozen => IsFrozen(run)
    case Resuming(at) =>
      && !IsFrozen(run)
      && exists i, until: nat :: 0 <= i < |run| && QuietWaits(run, i, until) && !WaitOver(At(until), 0, at)
    case BackingOff(at) =>
      && ResetSurface !in run[b].flags
      && exists i, t: nat :: 0 <= i < |run| && ShowWaitSince(run, i, t) && !WaitOver(At(t), REPAIR_INTERVAL_MS, at)
    case ShowAttempted => LatestSince(run, b, Concludes(), TriesShow())
    case Steady(_) => AllServed(run, b)
  }

  lemma EndNeeds(h: History, e: Event)
    requires Allowed(h, e) && e.PassEnded?
    ensures h.pass.Running? && MayEnd(h, e.outcome)
  {
  }

  lemma NobodyVisible(start: TaskbarIdentity, run: seq<Event>)
    ensures HiddenOrRefused(Recall(start, run)) ==> AllHidden(run)
    ensures Recall(start, run).world.alive != {} ==> exists w :: IsAlive(run, w)
  {
    hide Recall, Holds, IsVisible, IsAlive, IsPresented;
    FaultsAreWhatHappened(start, run);
    forall w ensures (w in Recall(start, run).world.visible <==> IsVisible(run, w))
                     && (w in Recall(start, run).world.alive <==> IsAlive(run, w)) {
      WorldIsWhatHappened(start, run, w);
    }
    if Recall(start, run).world.alive != {} {
      var w :| w in Recall(start, run).world.alive;
      assert IsAlive(run, w);
    }
  }

  /** Every wait that a pass ends for is on record. */
  lemma TeardownWaitsAreReal(start: TaskbarIdentity, run: seq<Event>, b: nat, outcome: Outcome)
    requires PassSince(run, b) && Recall(start, run).pass.Running? && MayEnd(Recall(start, run), outcome)
    requires outcome.AwaitingTeardown?
    ensures Reason(start, run, b, outcome)
  {
    hide Recall, PassSince, IsAlive, TeardownWaits, MayEnd, WaitOver, AllHidden, HiddenOrRefused;
    var h := Recall(start, run);
    NobodyVisible(start, run);
    WaitingNeeds(h, outcome);
    TeardownWaitIsReal(start, run);
    hide Reason;
    BeginsAt(run, b);
    var i :| 0 <= i < |run| && TeardownWaits(start, run, i, h.pace.teardownRefused.ms);
    ReasonToWait(start, run, b, outcome, i, h.pace.teardownRefused.ms);
  }

  lemma ReasonToWait(start: TaskbarIdentity, run: seq<Event>, b: nat, outcome: Outcome, i: nat, at: nat)
    requires b < |run| && run[b].PassBegan? && outcome.AwaitingTeardown? && i < |run|
    requires TeardownWaits(start, run, i, at) && !WaitOver(At(at), REPAIR_INTERVAL_MS, outcome.at)
    requires exists w :: IsAlive(run, w)
    ensures Reason(start, run, b, outcome)
  {
    hide TeardownWaits, WaitOver, IsAlive;
  }

  lemma WaitingNeeds(h: History, outcome: Outcome)
    requires h.pass.Running? && MayEnd(h, outcome) && outcome.AwaitingTeardown?
    ensures h.world.alive != {} && h.pace.teardownRefused.At?
    ensures !WaitOver(At(h.pace.teardownRefused.ms), REPAIR_INTERVAL_MS, outcome.at)
  {
  }

  lemma QuietWaitsAreReal(start: TaskbarIdentity, run: seq<Event>, b: nat, outcome: Outcome)
    requires PassSince(run, b) && Recall(start, run).pass.Running? && MayEnd(Recall(start, run), outcome)
    requires outcome.Resuming?
    ensures Reason(start, run, b, outcome)
  {
    hide Recall, PassSince, IsFrozen, QuietWaits;
    FrozenIsWhatHappened(start, run);
    QuietWaitIsReal(start, run);
  }

  lemma ShowWaitsAreReal(start: TaskbarIdentity, run: seq<Event>, b: nat, outcome: Outcome)
    requires PassSince(run, b) && Recall(start, run).pass.Running? && MayEnd(Recall(start, run), outcome)
    requires outcome.BackingOff?
    ensures Reason(start, run, b, outcome)
  {
    hide Recall, PassSince, ShowWaitSince;
    PassIsWhatHappened(start, run, b);
    ShowWaitIsReal(start, run);
  }

  /** What a pass ends for because of its overlay has happened in it. */
  lemma LifeReasonsAreReal(start: TaskbarIdentity, run: seq<Event>, b: nat, outcome: Outcome)
    requires PassSince(run, b) && Recall(start, run).pass.Running? && MayEnd(Recall(start, run), outcome)
    requires outcome.TeardownFailed? || outcome.StyleRefused?
    ensures Reason(start, run, b, outcome)
  {
    hide Recall, PassSince, AllHidden, LatestSince;
    ProgressIsWhatHappened(start, run, b);
    NobodyVisible(start, run);
    match outcome {
      case TeardownFailed =>
      case StyleRefused =>
    }
  }

  lemma RefusalNeeds(h: History, e: Event)
    requires Allowed(h, e) && e.OverlayRefused?
    ensures h.pass.Running? && h.pass.view.taskbar.Ready? && (e.why.CreationFailed? ==> h.world.alive == {})
  {
  }

  lemma RefusalIsReal(start: TaskbarIdentity, run: seq<Event>, b: nat, k: nat)
    requires Legal(start, run) && b < k < |run| && PassSince(run, b) && run[k].OverlayRefused?
    ensures RefusedAt(run, b, k)
  {
    hide Allowed, Watch, Legal, Recall, LatestSince, PendingSince, IsAlive, IsVisible, IsPresented, PassSince;
    LegalAt(start, run, k);
    RefusalNeeds(Recall(start, run[..k]), run[k]);
    StillInPass(run, b, k);
    SightsAreWhatHappened(start, run[..k], b);
    forall w ensures w in Recall(start, run[..k]).world.alive <==> IsAlive(run[..k], w) {
      WorldIsWhatHappened(start, run[..k], w);
    }
  }

  lemma StillInPass(run: seq<Event>, b: nat, k: nat)
    requires b < k < |run| && PassSince(run, b)
    ensures PassSince(run[..k], b)
  {
  }

  lemma RefusalsAreReal(start: TaskbarIdentity, run: seq<Event>, b: nat)
    requires Legal(start, run) && PassSince(run, b) && Recall(start, run).pass.Running?
    requires MayEnd(Recall(start, run), NoOverlay)
    ensures exists k :: b < k < |run| && RefusedAt(run, b, k)
  {
    hide Legal, Recall, PassSince, RefusedAt, LatestSince, MayEnd, PendingSince;
    NoOverlayWasRefused(Recall(start, run));
    ProgressIsWhatHappened(start, run, b);
    var k := LatestRefusal(run, b);
    RefusalIsReal(start, run, b, k);
  }

  lemma NoOverlayWasRefused(h: History)
    requires h.pass.Running? && MayEnd(h, NoOverlay)
    ensures h.pass.life.overlayRefused
  {
  }

  lemma LatestRefusal(run: seq<Event>, b: nat) returns (k: nat)
    requires LatestSince(run, b, RefusesOverlay(), NoEvent())
    ensures b < k < |run| && run[k].OverlayRefused?
  {
    k :| b < k < |run| && HoldsFrom(run, k, RefusesOverlay(), NoEvent());
  }

  /** What a pass ends for because of the taskbar, or of its show, has happened in it. */
  lemma SightReasonsAreReal(start: TaskbarIdentity, run: seq<Event>, b: nat, outcome: Outcome)
    requires PassSince(run, b) && Recall(start, run).pass.Running? && MayEnd(Recall(start, run), outcome)
    requires outcome.AwaitingIdentity? || outcome.NoTaskbar? || outcome.ShowAttempted?
    ensures Reason(start, run, b, outcome)
  {
    hide Recall, PassSince, AllHidden, LatestSince, PendingSince;
    SightsAreWhatHappened(start, run, b);
    NobodyVisible(start, run);
    match outcome {
      case AwaitingIdentity =>
      case NoTaskbar =>
      case ShowAttempted =>
    }
  }

  lemma OtherReasonsAreReal(start: TaskbarIdentity, run: seq<Event>, b: nat, outcome: Outcome)
    requires PassSince(run, b) && Recall(start, run).pass.Running? && MayEnd(Recall(start, run), outcome)
    requires outcome.Suppressed? || outcome.Frozen?
    ensures Reason(start, run, b, outcome)
  {
    hide Recall, PassSince, AllHidden, IsFrozen;
    NobodyVisible(start, run);
    FrozenIsWhatHappened(start, run);
    match outcome {
      case Suppressed =>
      case Frozen =>
    }
  }

  lemma SteadyReasonIsReal(start: TaskbarIdentity, run: seq<Event>, b: nat)
    requires PassSince(run, b) && Recall(start, run).pass.Running?
    requires exists at :: MayEnd(Recall(start, run), Steady(at))
    ensures AllServed(run, b)
  {
    hide Recall, ServedSince, MayEnd;
    var at :| MayEnd(Recall(start, run), Steady(at));
    SteadyMeansAllDone(Recall(start, run), Steady(at));
    PassIsWhatHappened(start, run, b);
  }

  lemma SteadyMeansAllDone(h: History, outcome: Outcome)
    requires h.pass.Running? && MayEnd(h, outcome) && outcome.Steady?
    ensures forall f :: f in h.pass.todo && f != SampleKeys ==> f in h.pass.done
  {
    hide UpkeepComplete, Open;
  }

  /** Whatever a pass ends for has happened. */
  lemma {:induction false} PassEndsForItsReason(start: TaskbarIdentity, run: seq<Event>, b: nat, j: nat)
    requires Legal(start, run) && b < j < |run| && PassSince(run[..j], b) && run[j].PassEnded?
    ensures Reason(start, run[..j], b, run[j].outcome)
  {
    hide Allowed, Watch, Legal, Recall, MayEnd, LatestSince, PendingSince, AllHidden, IsFrozen, IsAlive, AllServed,
         RefusedAt;
    var past, outcome := run[..j], run[j].outcome;
    LegalAt(start, run, j);
    EndNeeds(Recall(start, past), run[j]);
    match outcome {
      case AwaitingTeardown(_) => TeardownWaitsAreReal(start, past, b, outcome);
      case Resuming(_) => QuietWaitsAreReal(start, past, b, outcome);
      case BackingOff(_) => ShowWaitsAreReal(start, past, b, outcome);
      case TeardownFailed => LifeReasonsAreReal(start, past, b, outcome);
      case NoOverlay => RefusalsAreReal(start, past, b);
      case StyleRefused => LifeReasonsAreReal(start, past, b, outcome);
      case AwaitingIdentity => SightReasonsAreReal(start, past, b, outcome);
      case NoTaskbar => SightReasonsAreReal(start, past, b, outcome);
      case ShowAttempted => SightReasonsAreReal(start, past, b, outcome);
      case Suppressed => OtherReasonsAreReal(start, past, b, outcome);
      case Frozen => OtherReasonsAreReal(start, past, b, outcome);
      case Steady(_) => SteadyReasonIsReal(start, past, b);
    }
  }
}
