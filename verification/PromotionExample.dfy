/** Which passes can show an overlay that they have not presented: those that are asked to promote it and
    not to reset its surface. The promotion raises the overlay with a call that also shows it, so an
    overlay that is hidden under that call comes back without a new frame. */
module PromotionExample {
  import opened OverlayPolicy
  import opened OverlayProtocol
  import opened OverlaySteps
  import opened OverlayRuns
  import opened WorkIsServed
  import opened PresentBeforeShow
  import opened OverlayExamples

  /** The run ends with an overlay becoming visible outside every show, in a pass that received `flags`. */
  ghost predicate UnpreparedShow(start: TaskbarIdentity, run: seq<Event>, flags: set<Flag>) {
    && Legal(start, run) && |run| > 0 && run[|run| - 1].Shown?
    && var before := run[..|run| - 1];
    && !Prepared(before, run[|run| - 1].hwnd)
    && exists b :: 0 <= b < |before| && PassSince(before, b) && before[b].flags == flags
  }

  /** A pass shows an overlay that it has not presented only if it was asked for a promotion and for no
      reset of the surface; and whenever it was asked so, wherever the run began, that can happen. */
  lemma UnpreparedShowsAreAskedFor(start: TaskbarIdentity, flags: set<Flag>)
    ensures (exists run :: UnpreparedShow(start, run, flags))
            <==> PromoteForTaskView in flags && ResetSurface !in flags
  {
    hide Legal, Prepared;
    if run: seq<Event> :| UnpreparedShow(start, run, flags) {
      var i := |run| - 1;
      var b: nat :| b < i && PassSince(run[..i], b) && run[..i][b].flags == flags;
      if !(PromoteForTaskView in flags && ResetSurface !in flags) {
        UnaskedShowsArePrepared(start, run, b, i);
      }
    }
    if PromoteForTaskView in flags && ResetSurface !in flags {
      var run := ShownWithoutPrepare(start, 1, flags);
      assert UnpreparedShow(start, run, flags);
    }
  }

  // ---------------------------------------------------------------- the run

  /** A call on the overlay that nobody interferes with. */
  lemma Quietly(start: TaskbarIdentity, run: seq<Event>, h: History, e: Event)
    returns (run': seq<Event>, h': History)
    requires Legal(start, run) && Recall(start, run) == h && Allowed(h, e) && IsQuiet(e) && h.pass.Running?
    ensures Legal(start, run') && Recall(start, run') == h' && run' == run + [e]
    ensures QuietStep(h, e, h') && h'.world == h.world && h'.pace == h.pace
  {
    hide Legal, Recall, Watch, Allowed, IsQuiet, Disturbed, QuietStep;
    run', h' := More(start, run, h, e);
    DisturbedNot(h');
    QuietlyDone(h, e, h');
    WorldIsWatched(h, e);
    PaceIsWatched(h, e);
    QuietWorld(h, e);
  }

  /** Between passes: the overlay `w` exists in the state `world`, and nothing is owed or waited for. */
  ghost predicate AtRest(h: History, taskbar: TaskbarIdentity, world: World) {
    && Calm(h, taskbar) && h.mind.resumeAt.Never? && h.world == world && h.owed == {} && h.call.Idle?
    && h.pace == Pace(false, Never, Never, Never, true, 0, Never, h.pace.clock)
  }

  ghost predicate AtWork(h: History, taskbar: TaskbarIdentity, world: World, call: Call) {
    && AtRest(h.(call := Idle), taskbar, world) && h.call == call && Open(h)
    && h.pass.view.taskbar.Ready? && h.pass.life.ensured
  }

  /** The step of a show that is under way. */
  lemma ShowStep(start: TaskbarIdentity, run: seq<Event>, h: History, taskbar: TaskbarIdentity, world: World,
                 call: Call, e: Event)
    returns (run': seq<Event>, h': History)
    requires Legal(start, run) && Recall(start, run) == h && AtWork(h, taskbar, world, call) && Allowed(h, e)
    requires call.Preparing? && (e == StyleTried(true) || e == Placed || e == RenderTried)
    ensures Legal(start, run') && Recall(start, run') == h' && run' == run + [e]
    ensures AtWork(h', taskbar, world, WatchCall(call, e)) && h'.pass.show == h.pass.show && h'.pace == h.pace
    ensures h'.faults == WatchFaults(h.faults, e)
  {
    hide Legal, Recall, Watch, Allowed;
    run', h' := Quietly(start, run, h, e);
  }

  lemma ShowStepAllowed(h: History)
    requires Open(h) && h.call.Preparing?
    ensures Allowed(h, StyleTried(true))
    ensures h.call.styled ==> Allowed(h, Placed)
    ensures ReadyToPresent(h.call) ==> Allowed(h, RenderTried)
  {
  }

  lemma PresentAllowed(h: History, hwnd: Hwnd)
    requires Open(h) && h.call.Preparing? && ReadyToPresent(h.call) && h.call.hwnd == hwnd
    requires hwnd in h.world.alive && h.world.current
    ensures Allowed(h, Presented(hwnd))
  {
  }

  lemma CalmStays(h: History, h': History, taskbar: TaskbarIdentity)
    requires h'.mind == h.mind
    ensures Calm(h, taskbar) <==> Calm(h', taskbar)
  {
  }

  lemma WorkGoesOn(h: History, taskbar: TaskbarIdentity, world: World, call: Call)
    requires AtWork(h, taskbar, world, call)
    ensures Open(h) && h.call == call && h.world == world && h.pass.Running?
  {
  }

  /** An overlay `w` that exists out of sight and has not been presented. */
  ghost predicate IsBlank(world: World, w: Hwnd) {
    world.alive == {w} && world.visible == {} && world.presented == {} && world.current
  }

  /** The first half of a show: style and placement. */
  lemma Places(start: TaskbarIdentity, run: seq<Event>, h: History, taskbar: TaskbarIdentity, world: World, w: Hwnd)
    returns (run': seq<Event>, h': History)
    requires Legal(start, run) && Recall(start, run) == h && AtWork(h, taskbar, world, Idle) && IsBlank(world, w)
    requires Forced(h.pass) && Unstarted(h.pass)
    ensures Legal(start, run') && Recall(start, run') == h'
    ensures run' == run + [ShowTried(h.pace.clock), PrepareBegan(w, false), StyleTried(true), Placed]
    ensures AtWork(h', taskbar, world, Preparing(w, false, true, true, false, false, false, false, false, Unasked))
    ensures h'.pass.show.ShowPending? && h'.pace == h.pace && h'.faults == h.faults.(styleFailed := false)
  {
    hide Legal, Recall, Watch, Allowed, Calm;
    run', h' := ShowStarts(start, run, h, w, h.pace.clock);
    var begun := h';
    CalmStays(h, h'.(call := Idle), taskbar);
    assert AtWork(begun, taskbar, world, begun.call);
    hide AtWork;
    ShowStepAllowed(h');
    run', h' := ShowStep(start, run', h', taskbar, world, h'.call, StyleTried(true));
    WorkGoesOn(h', taskbar, world, WatchCall(begun.call, StyleTried(true)));
    ShowStepAllowed(h');
    run', h' := ShowStep(start, run', h', taskbar, world, h'.call, Placed);
  }

  /** A frame for the overlay that is about to be shown. */
  lemma Fills(start: TaskbarIdentity, run: seq<Event>, h: History, taskbar: TaskbarIdentity, world: World, w: Hwnd)
    returns (run': seq<Event>, h': History)
    requires Legal(start, run) && Recall(start, run) == h && IsBlank(world, w) && h.pass.Running?
    requires AtWork(h, taskbar, world, Preparing(w, false, true, true, false, false, false, false, false, Unasked))
    ensures Legal(start, run') && Recall(start, run') == h' && run' == run + [RenderTried, Presented(w)]
    ensures AtWork(h', taskbar, world.(presented := {w}, presents := world.presents + 1),
                   Preparing(w, false, true, true, false, true, true, false, false, Unasked))
    ensures h'.pass.Running? && h'.pass.show == h.pass.show && h'.pace == h.pace && h'.faults == h.faults
  {
    hide Legal, Recall, Watch, Allowed, Calm;
    ShowStepAllowed(h);
    run', h' := ShowStep(start, run, h, taskbar, world, h.call, RenderTried);
    PresentAllowed(h', w);
    PresentChangesLittle(h', w);
    var rendered := h';
    run', h' := More(start, run', h', Presented(w));
    CalmStays(rendered.(call := Idle), h'.(call := Idle), taskbar);
  }

  lemma ShownAllowed(h: History, w: Hwnd)
    requires MayShow(h, w)
    ensures Allowed(h, Shown(w)) && h.pass.Running?
  {
  }

  lemma AnswerAllowed(h: History)
    requires Open(h) && MayAsk(h.call)
    ensures Allowed(h, ShowCalled(true))
  {
  }

  lemma PrepareEndAllowed(h: History)
    requires h.call.Preparing? && h.call.verdict.Worked? && h.call.hwnd in h.world.visible
    ensures Allowed(h, PrepareEnded(true))
  {
  }

  /** The overlay becomes visible, and the pass ends. */
  lemma Reveals(start: TaskbarIdentity, run: seq<Event>, h: History, taskbar: TaskbarIdentity, world: World, w: Hwnd)
    returns (run': seq<Event>, h': History)
    requires Legal(start, run) && Recall(start, run) == h && h.pass.Running? && h.pass.show.ShowPending?
    requires AtWork(h, taskbar, world, Preparing(w, false, true, true, false, true, true, false, false, Unasked))
    requires world.alive == {w} == world.presented && world.visible == {} && world.current
    ensures Legal(start, run') && Recall(start, run') == h'
    ensures run' == run + [Shown(w), ShowCalled(true), PrepareEnded(true), ShowGranted, PassEnded(ShowAttempted)]
    ensures var asked := Recall(start, run'[..|run| + 1]);
            asked.call.Preparing? && asked.call.hwnd == w && w in asked.world.visible
    ensures AtRest(h', taskbar, world.(visible := {w})) && h'.pass.NoPass? && h'.pace == h.pace
    ensures h'.faults == h.faults
  {
    hide Legal, Recall, Watch, Allowed;
    ShownAllowed(h, w);
    ShownEffect(h, w);
    run', h' := More(start, run, h, Shown(w));
    var shown := run';
    AnswerAllowed(h');
    AnswerEffect(h', true);
    run', h' := More(start, run', h', ShowCalled(true));
    PrepareEndAllowed(h');
    PrepareEndedEffect(h', true);
    run', h' := More(start, run', h', PrepareEnded(true));
    ConclusionAllowed(h', h'.pace.clock);
    ShowConcludedEffect(h', h'.pace.clock);
    run', h' := More(start, run', h', ShowGranted);
    ShowAttemptEnds(h');
    EndEffect(h', ShowAttempted);
    run', h' := More(start, run', h', PassEnded(ShowAttempted));
    assert run'[..|run| + 1] == shown;
  }

  /** The events of a show that nobody hinders, up to the end of its pass. */
  function ShowEvents(w: Hwnd, at: nat): seq<Event> {
    [ShowTried(at), PrepareBegan(w, false), StyleTried(true), Placed]
    + [RenderTried, Presented(w)]
    + [Shown(w), ShowCalled(true), PrepareEnded(true), ShowGranted, PassEnded(ShowAttempted)]
  }

  /** A whole show. */
  lemma ShowRuns(start: TaskbarIdentity, run: seq<Event>, h: History, taskbar: TaskbarIdentity, world: World, w: Hwnd)
    returns (run': seq<Event>, h': History)
    requires Legal(start, run) && Recall(start, run) == h && AtWork(h, taskbar, world, Idle) && IsBlank(world, w)
    requires Forced(h.pass) && Unstarted(h.pass)
    ensures Legal(start, run') && Recall(start, run') == h' && run' == run + ShowEvents(w, h.pace.clock)
    ensures var asked := Recall(start, run'[..|run| + 7]);
            asked.call.Preparing? && asked.call.hwnd == w && w in asked.world.visible
    ensures AtRest(h', taskbar, world.(visible := {w}, presented := {w}, presents := world.presents + 1))
    ensures h'.pass.NoPass? && h'.pace == h.pace && h'.faults == h.faults.(styleFailed := false)
  {
    hide Legal, Recall, Watch, Allowed, AtRest;
    var placed, hp := Places(start, run, h, taskbar, world, w);
    var filled, hf := Fills(start, placed, hp, taskbar, world, w);
    run', h' := Reveals(start, filled, hf, taskbar, world.(presented := {w}, presents := world.presents + 1), w);
  }

  /** A first pass that shows the overlay. */
  lemma FirstShow(start: TaskbarIdentity, w: Hwnd)
    returns (run: seq<Event>, h: History, taskbar: TaskbarIdentity)
    requires w != 0
    ensures Legal(start, run) && Recall(start, run) == h
    ensures AtRest(h, taskbar, World({w}, {w}, {w}, true, 1, 0, 1)) && h.pass.NoPass?
            && h.faults == Faults(false, false)
    ensures IsReal(start) ==> taskbar == start && h.pace.clock == 0
  {
    hide Legal, Recall, Watch, Allowed, Calm;
    run, h, taskbar := FindTaskbar(start);
    run, h := FirstPass(start, run, h, taskbar, w, {Reposition, Render}, h.pace.clock);
    CalmStays(h, h.(call := Idle), taskbar);
    run, h := ShowRuns(start, run, h, taskbar, World({w}, {}, {}, true, 1, 0, 0), w);
  }

  /** A pass that has served what it must before upkeep: the tray icon and the style. */
  lemma SecondPass(start: TaskbarIdentity, w: Hwnd, flags: set<Flag>)
    returns (run: seq<Event>, h: History, taskbar: TaskbarIdentity)
    requires w != 0 && ResetSurface !in flags
    ensures Legal(start, run) && Recall(start, run) == h
    ensures AtWork(h, taskbar, World({w}, {w}, {w}, true, 1, 0, 1), Idle) && !Forced(h.pass)
    ensures h.pass.incoming == flags <= h.pass.todo && Unstarted(h.pass)
  {
    hide Legal, Recall, Watch, Allowed;
    run, h, taskbar := FirstShow(start, w);
    run, h := PassOpens(start, run, h, flags);
    run, h := TaskbarAgain(start, run, h, taskbar, h.pace.clock);
    if RefreshTrayIcon in flags {
      StyleAllowed(h, true);
      run, h := Quietly(start, run, h, TrayRefreshed);
    }
    run, h := OverlayAgain(start, run, h, w);
    run, h := DesktopClear(start, run, h, h.pace.clock);
    if ApplyStyle in flags {
      StyleAllowed(h, true);
      run, h := Quietly(start, run, h, StyleTried(true));
    }
  }

  /** The overlay is being promoted, as asked. */
  lemma Promotes(start: TaskbarIdentity, w: Hwnd, flags: set<Flag>)
    returns (run: seq<Event>, h: History, taskbar: TaskbarIdentity)
    requires w != 0 && PromoteForTaskView in flags && ResetSurface !in flags
    ensures Legal(start, run) && Recall(start, run) == h
    ensures AtWork(h, taskbar, World({w}, {w}, {w}, true, 1, 0, 1), Promoting(w, false)) && h.pass.incoming == flags
  {
    hide Legal, Recall, Watch, Allowed;
    run, h, taskbar := SecondPass(start, w, flags);
    UpkeepBegins(h);
    SawVisibleEffect(h);
    run, h := More(start, run, h, SawVisible);
    if SampleMetrics in flags {
      OpenAllows(h);
      run, h := Quietly(start, run, h, MetricsSampled);
    }
    PromotionAllowed(h, w);
    PromoteEffect(h, w);
    run, h := More(start, run, h, PromoteBegan(w));
  }

  /** The overlay is hidden by someone else while it is being promoted. */
  lemma HiddenWhilePromoted(start: TaskbarIdentity, w: Hwnd, flags: set<Flag>)
    returns (run: seq<Event>, h: History, taskbar: TaskbarIdentity)
    requires w != 0 && PromoteForTaskView in flags && ResetSurface !in flags
    ensures Legal(start, run) && Recall(start, run) == h
    ensures h.call == Promoting(w, true) && MayShow(h, w) && w in h.world.alive && h.pass.incoming == flags
  {
    hide Legal, Recall, Watch, Allowed, Calm;
    run, h, taskbar := Promotes(start, w, flags);
    VanishDisturbs(h, w);
    run, h := More(start, run, h, Vanished(w));
  }

  /** A legal run, in the order in which the reconciler records it, in which the overlay becomes visible
      outside every show: it is hidden by someone else while it is being promoted. */
  lemma ShownWithoutPrepare(start: TaskbarIdentity, w: Hwnd, flags: set<Flag>) returns (run: seq<Event>)
    requires w != 0 && PromoteForTaskView in flags && ResetSurface !in flags
    ensures UnpreparedShow(start, run, flags) && run[|run| - 1] == Shown(w)
  {
    hide Legal, Recall, Watch, Allowed, Prepared, HiddenUnderPromotion, CallIsWhatHappened, MayShow;
    hide IsVisible, IsAlive, IsPresented;
    var promoting, h, taskbar := HiddenWhilePromoted(start, w, flags);
    ShownAllowed(h, w);
    run, h := More(start, promoting, h, Shown(w));
    assert run[..|run| - 1] == promoting;
    ShownOnlyAfterPresent(start, run, |run| - 1);
    LostMeansHidden(start, promoting, w);
    var b := PassBeganAt(start, promoting);
    PassIsWhatHappened(start, promoting, b);
  }

  lemma LostMeansHidden(start: TaskbarIdentity, run: seq<Event>, w: Hwnd)
    requires Legal(start, run) && Recall(start, run).call == Promoting(w, true)
    requires w in Recall(start, run).world.alive
    ensures HiddenUnderPromotion(run, w)
  {
    hide Legal, Recall, HiddenUnderPromotion, CallIsWhatHappened;
    CallsAreWhatHappened(start, run);
    ShowMeans(run, Recall(start, run).call, Recall(start, run).world.alive, w);
  }
}
