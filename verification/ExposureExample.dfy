/** When a suppressed overlay stays on the screen: exactly when the last attempt to hide it or to set its style
    has failed. */
module ExposureExample {
  import opened OverlayPolicy
  import opened OverlayObservation
  import opened OverlayProtocol
  import opened OverlaySteps
  import opened OverlayRuns
  import opened OverlayDecisions
  import opened OverlayExamples
  import opened PromotionExample

  /** The run ends with a pass that leaves a suppressed overlay visible. */
  ghost predicate Exposed(start: TaskbarIdentity, run: seq<Event>) {
    && Legal(start, run) && |run| > 0 && run[|run| - 1].PassEnded?
    && (exists w :: IsVisible(run, w)) && !Recall(start, run).mind.suppression.committed.None?
  }

  /** Whether the last attempt to hide the overlay, and to set its style, failed. */
  ghost predicate FailedAs(run: seq<Event>, faults: Faults) {
    && (faults.hideFailed <==> Holds(run, HideFails(), HideWorks()))
    && (faults.styleFailed <==> Holds(run, StyleFails(), StyleWorks()))
  }

  lemma FailedAsRecalled(start: TaskbarIdentity, run: seq<Event>)
    ensures FailedAs(run, Recall(start, run).faults)
  {
    hide Recall, Holds, HideFails, HideWorks, StyleFails, StyleWorks;
    FaultsAreWhatHappened(start, run);
  }

  lemma EndChangesNothing(h: History, e: Event)
    requires Allowed(h, e) && e.PassEnded?
    ensures NotExposed(h) && Watch(h, e).world == h.world && Watch(h, e).mind == h.mind
            && Watch(h, e).faults == h.faults
  {
  }

  lemma ExposureNeedsFailure(start: TaskbarIdentity, run: seq<Event>, faults: Faults)
    requires Exposed(start, run) && FailedAs(run, faults)
    ensures faults.hideFailed || faults.styleFailed
  {
    hide Legal, Recall, Watch, Allowed, Holds, IsVisible, IsAlive, IsPresented, HideFails, HideWorks, StyleFails,
         StyleWorks;
    var n := |run| - 1;
    LegalAt(start, run, n);
    assert run[..n + 1] == run;
    EndChangesNothing(Recall(start, run[..n]), run[n]);
    FailedAsRecalled(start, run);
    var w :| IsVisible(run, w);
    WorldIsWhatHappened(start, run, w);
  }

  // ---------------------------------------------------------------- the runs

  /** Between passes: the overlay `w` is on the screen, and there is a slide show if `suppressed`. */
  ghost predicate InSightOf(h: History, taskbar: TaskbarIdentity, w: Hwnd, suppressed: bool) {
    && Follows(h, taskbar) && h.pass.NoPass? && h.call.Idle? && !h.pace.recreate
    && h.world.alive == {w} && h.world.visible == {w}
    && h.mind.suppression == Settled(if suppressed then FullscreenPresentation else None)
  }

  /** A pass that sees a slide show, and has not acted on it. */
  ghost predicate SlideshowSeen(h: History, taskbar: TaskbarIdentity, w: Hwnd) {
    && Follows(h, taskbar) && h.pass.Running? && h.call.Idle? && Unstarted(h.pass) && Equipped(h)
    && h.world.alive == {w} && h.world.visible == {w} && h.mind.suppression == Settled(FullscreenPresentation)
  }

  lemma SeesSlideshow(start: TaskbarIdentity, run: seq<Event>, h: History, taskbar: TaskbarIdentity, w: Hwnd,
                      suppressed: bool, flags: set<Flag>)
    returns (run': seq<Event>, h': History)
    requires Legal(start, run) && Recall(start, run) == h && InSightOf(h, taskbar, w, suppressed)
    ensures Legal(start, run') && Recall(start, run') == h' && SlideshowSeen(h', taskbar, w) && h'.faults == h.faults
  {
    hide Legal, Recall, Watch, Allowed, ReduceSuppressionPolicy, SlowToHide;
    run', h' := PassOpens(start, run, h, flags);
    run', h' := TaskbarAgain(start, run', h', taskbar, h.pace.clock);
    run', h' := OverlayAgain(start, run', h', w);
    SlideshowHides(h'.mind.suppression, h.pace.clock);
    run', h' := DesktopSeen(start, run', h', SLIDESHOW, h.pace.clock);
  }

  lemma RefusedHideAllowed(h: History)
    requires h.pass.Running?
    ensures Allowed(h, HideTried(false))
  {
  }

  lemma SuppressedEnds(h: History)
    requires h.pass.Running? && Equipped(h) && Unstarted(h.pass)
    requires !h.mind.suppression.committed.None? && h.faults.hideFailed
    ensures MayEnd(h, Suppressed) && NotExposed(h) && ShowSettled(h.pass)
  {
  }

  /** The overlay cannot be hidden. */
  lemma HideFailsInPass(start: TaskbarIdentity, run: seq<Event>, h: History, taskbar: TaskbarIdentity, w: Hwnd,
                        suppressed: bool)
    returns (run': seq<Event>, h': History)
    requires Legal(start, run) && Recall(start, run) == h && InSightOf(h, taskbar, w, suppressed)
    ensures Legal(start, run') && Recall(start, run') == h' && |run'| > 0 && run'[|run'| - 1].PassEnded?
    ensures InSightOf(h', taskbar, w, true) && h'.faults == h.faults.(hideFailed := true)
  {
    hide Legal, Recall, Watch, Allowed, MayEnd;
    run', h' := SeesSlideshow(start, run, h, taskbar, w, suppressed, {});
    RefusedHideAllowed(h');
    HideEffect(h', false);
    run', h' := More(start, run', h', HideTried(false));
    SuppressedEnds(h');
    EndEffect(h', Suppressed);
    run', h' := More(start, run', h', PassEnded(Suppressed));
  }

  lemma StyleRefusedEnds(h: History)
    requires h.pass.Running? && Equipped(h) && ShowSettled(h.pass) && h.pass.life.styleRefused && h.faults.styleFailed
    ensures MayEnd(h, StyleRefused) && NotExposed(h)
  {
  }

  /** The style of the overlay cannot be set, which ends a pass that was asked to before it hides anything. */
  lemma StyleFailsInPass(start: TaskbarIdentity, run: seq<Event>, h: History, taskbar: TaskbarIdentity, w: Hwnd,
                         suppressed: bool)
    returns (run': seq<Event>, h': History)
    requires Legal(start, run) && Recall(start, run) == h && InSightOf(h, taskbar, w, suppressed)
    ensures Legal(start, run') && Recall(start, run') == h' && |run'| > 0 && run'[|run'| - 1].PassEnded?
    ensures InSightOf(h', taskbar, w, true) && h'.faults == h.faults.(styleFailed := true)
  {
    hide Legal, Recall, Watch, Allowed, MayEnd;
    run', h' := SeesSlideshow(start, run, h, taskbar, w, suppressed, {ApplyStyle});
    StyleAllowed(h', false);
    StyleEffect(h', false);
    run', h' := More(start, run', h', StyleTried(false));
    StyleRefusedEnds(h');
    EndEffect(h', StyleRefused);
    run', h' := More(start, run', h', PassEnded(StyleRefused));
  }

  lemma ShownIsInSight(h: History, taskbar: TaskbarIdentity, w: Hwnd)
    requires AtRest(h, taskbar, World({w}, {w}, {w}, true, 1, 0, 1)) && h.pass.NoPass?
    ensures InSightOf(h, taskbar, w, false)
  {
  }

  /** For any taskbar and window, and whichever of the two calls fail, the overlay stays in sight. */
  lemma StaysInSight(taskbar: TaskbarIdentity, w: Hwnd, faults: Faults) returns (run: seq<Event>)
    requires IsReal(taskbar) && w != 0 && (faults.hideFailed || faults.styleFailed)
    ensures Exposed(taskbar, run) && FailedAs(run, faults) && IsVisible(run, w)
  {
    hide Legal, Recall, Watch, Allowed, AtRest, Follows, FailedAs, IsVisible, IsAlive, IsPresented;
    var h, seen;
    run, h, seen := FirstShow(taskbar, w);
    ShownIsInSight(h, taskbar, w);
    if faults.hideFailed {
      run, h := HideFailsInPass(taskbar, run, h, taskbar, w, false);
    }
    if faults.styleFailed {
      run, h := StyleFailsInPass(taskbar, run, h, taskbar, w, faults.hideFailed);
    }
    FailedAsRecalled(taskbar, run);
    WorldIsWhatHappened(taskbar, run, w);
  }

  /** A pass can leave a suppressed overlay on the screen if and only if the last attempt to hide the overlay
      or to set its style failed. */
  lemma ExposureIsExact(faults: Faults)
    ensures (exists start, run :: Exposed(start, run) && FailedAs(run, faults))
            <==> faults.hideFailed || faults.styleFailed
  {
    hide Exposed, FailedAs;
    if start, run :| Exposed(start, run) && FailedAs(run, faults) {
      ExposureNeedsFailure(start, run, faults);
    }
    if faults.hideFailed || faults.styleFailed {
      var taskbar := TaskbarIdentity(1, 1);
      var run := StaysInSight(taskbar, 1, faults);
      assert Exposed(taskbar, run) && FailedAs(run, faults);
    }
  }
}
