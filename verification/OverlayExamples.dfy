/** Legal runs built step by step, in the order in which the reconciler records its events. */
module OverlayExamples {
  import opened OverlayPolicy
  import opened OverlayObservation
  import opened OverlayProtocol
  import opened OverlaySteps
  import opened OverlayRuns

  lemma EmptyRun(start: TaskbarIdentity, run: seq<Event>)
    requires run == []
    ensures Legal(start, run) && Recall(start, run) == Beginning(start)
  {
  }

  lemma More(start: TaskbarIdentity, run: seq<Event>, h: History, e: Event) returns (run': seq<Event>, h': History)
    requires Legal(start, run) && Recall(start, run) == h && Allowed(h, e)
    ensures run' == run + [e] && h' == Watch(h, e) && Legal(start, run') && Recall(start, run') == h'
  {
    hide Legal, Recall, Watch, Allowed;
    OneMore(start, run, e);
    run', h' := run + [e], Watch(h, e);
  }

  /** The taskbar `taskbar` is committed, and no other has been seen since. */
  ghost predicate Follows(h: History, taskbar: TaskbarIdentity) {
    IsReal(taskbar) && h.mind.identity == TaskbarIdentityState(taskbar, taskbar, 0, false)
  }

  /** Also, nothing is known to hide or freeze the overlay for. */
  ghost predicate Calm(h: History, taskbar: TaskbarIdentity) {
    Follows(h, taskbar) && h.mind.suppression == Settled(None) && !h.mind.frozen
  }

  lemma BeginningIsCalm(taskbar: TaskbarIdentity)
    requires IsReal(taskbar)
    ensures Calm(Beginning(taskbar), taskbar)
  {
  }

  /** A pass that has just begun, with these flags. */
  function Fresh(flags: set<Flag>, todo: set<Flag>): Pass {
    Running(flags, todo, {}, UNSEEN, UNTOUCHED, NoShow, NoUpkeep)
  }

  /** Work is requested, and a pass begins with it. */
  lemma PassOpens(start: TaskbarIdentity, run: seq<Event>, h: History, flags: set<Flag>)
    returns (run': seq<Event>, h': History)
    requires Legal(start, run) && Recall(start, run) == h && h.pass.NoPass? && h.call.Idle?
    ensures Legal(start, run') && Recall(start, run') == h'
    ensures run' == run + [Requested(flags), PassBegan(flags)]
    ensures h' == h.(mail := h'.mail, owed := h.owed + flags * DURABLE, pass := Fresh(flags, flags + h.owed))
  {
    hide Legal, Recall, Watch, Allowed;
    RequestEffect(h, flags);
    run', h' := More(start, run, h, Requested(flags));
    BeginAllowed(h', flags);
    run', h' := More(start, run', h', PassBegan(flags));
  }

  lemma SameSighting(h: History, taskbar: TaskbarIdentity, at: nat)
    requires Follows(h, taskbar)
    ensures ReduceTaskbarIdentity(h.mind.identity, taskbar, at, IDENTITY_SETTLE_MS)
            == TaskbarIdentityResult(h.mind.identity, 0, false, false)
  {
  }

  const LOOKED_UP := UNSEEN.(taskbar := Ready)

  /** The taskbar is still the same, and ready. */
  lemma TaskbarAgain(start: TaskbarIdentity, run: seq<Event>, h: History, taskbar: TaskbarIdentity, at: nat)
    returns (run': seq<Event>, h': History)
    requires Legal(start, run) && Recall(start, run) == h && Follows(h, taskbar) && h.pace.clock <= at
    requires h.pass.Running? && h.call.Idle? && h.pass.view == UNSEEN && Unstarted(h.pass)
    ensures Legal(start, run') && Recall(start, run') == h' && run <= run'
    ensures run'[|run|..] == [TaskbarSeen(taskbar, at), TaskbarProbed(true)]
    ensures h' == h.(pace := h.pace.(clock := at), pass := h.pass.(view := LOOKED_UP))
  {
    hide Legal, Recall, Watch, Allowed, ReduceTaskbarIdentity;
    LookAllowed(h, taskbar, at);
    TaskbarSeenEffect(h, taskbar, at);
    SameSighting(h, taskbar, at);
    run', h' := More(start, run, h, TaskbarSeen(taskbar, at));
    ProbeEffect(h', true);
    run', h' := More(start, run', h', TaskbarProbed(true));
  }

  lemma UpkeepUntouched(h: History, e: Event)
    requires h.pass.Running? && h.pass.upkeep.NoUpkeep? && Watch(h, e).pass.Running?
    requires !e.SawVisible? && !e.Inspected? && !e.PassBegan?
    ensures Watch(h, e).pass.upkeep.NoUpkeep?
  {
  }

  lemma ClearSight(h: History, at: nat)
    requires h.mind.suppression == Settled(None)
    ensures ReduceSuppressionPolicy(h.mind.suppression, CLEAR_OBSERVATION, at, SHIPPED_CONFIG)
            == SuppressionPolicyResult(h.mind.suppression, 0, 0, false)
    ensures SlowToHide(CLEAR_OBSERVATION)
  {
  }

  /** No screenshot, and `seen` as to whether the overlay should be hidden. */
  lemma DesktopSeen(start: TaskbarIdentity, run: seq<Event>, h: History, seen: SuppressionObservation, at: nat)
    returns (run': seq<Event>, h': History)
    requires Legal(start, run) && Recall(start, run) == h && SlowToHide(seen)
    requires h.pass.Running? && !h.pass.view.looked && !h.pass.view.decided
    requires h.pass.view.taskbar.Ready? && h.pass.life.ensured && !h.pace.recreate
    requires h.pace.clock <= at && Unstarted(h.pass)
    ensures Legal(start, run') && Recall(start, run') == h'
    ensures run' == run + [ForegroundSeen(false, at), SuppressionSeen(seen, at)]
    ensures var step := ReduceSuppressionPolicy(h.mind.suppression, seen, at, SHIPPED_CONFIG);
            h' == h.(pace := h.pace.(clock := at),
                     mind := h.mind.(frozen := false, resumeAt := h'.mind.resumeAt, suppression := step.state,
                                     decisions := h.mind.decisions + if step.committedChanged then 1 else 0),
                     pass := h.pass.(view := h.pass.view.(
                                       looked := true, decided := true,
                                       restored := step.committedChanged && step.state.committed.None?)))
    ensures h'.mind.resumeAt == if h.mind.frozen then ResumeMoment(at) else h.mind.resumeAt
  {
    hide Legal, Recall, Watch, Allowed, ReduceSuppressionPolicy, ResumeMoment, SlowToHide;
    ForegroundAllowed(h, false, at);
    ForegroundEffect(h, false, at);
    run', h' := More(start, run, h, ForegroundSeen(false, at));
    SuppressionAllowed(h', seen, at);
    SuppressionEffect(h', seen, at);
    run', h' := More(start, run', h', SuppressionSeen(seen, at));
  }

  /** No screenshot, and nothing to hide the overlay for. */
  lemma DesktopClear(start: TaskbarIdentity, run: seq<Event>, h: History, at: nat)
    returns (run': seq<Event>, h': History)
    requires Legal(start, run) && Recall(start, run) == h && h.mind.suppression == Settled(None)
    requires h.pass.Running? && !h.pass.view.looked && !h.pass.view.decided && !h.pass.view.restored
    requires h.pass.view.taskbar.Ready? && h.pass.life.ensured && !h.pace.recreate
    requires h.pace.clock <= at && Unstarted(h.pass)
    ensures Legal(start, run') && Recall(start, run') == h' && run <= run'
    ensures run'[|run|..] == [ForegroundSeen(false, at), SuppressionSeen(CLEAR_OBSERVATION, at)]
    ensures h' == h.(pace := h.pace.(clock := at),
                     mind := h.mind.(frozen := false, resumeAt := h'.mind.resumeAt),
                     pass := h.pass.(view := h.pass.view.(looked := true, decided := true)))
    ensures h'.mind.resumeAt == if h.mind.frozen then ResumeMoment(at) else h.mind.resumeAt
  {
    hide Legal, Recall, ReduceSuppressionPolicy, ResumeMoment, SlowToHide;
    ClearSight(h, at);
    run', h' := DesktopSeen(start, run, h, CLEAR_OBSERVATION, at);
  }

  /** A slide show hides the overlay at once. */
  const SLIDESHOW := SuppressionObservation(true, FullscreenPresentation, Fast)

  lemma SlideshowHides(state: SuppressionPolicyState, at: nat)
    requires state == Settled(None) || state == Settled(FullscreenPresentation)
    ensures var result := ReduceSuppressionPolicy(state, SLIDESHOW, at, SHIPPED_CONFIG);
            result.state == Settled(FullscreenPresentation)
    ensures SlowToHide(SLIDESHOW)
  {
  }

  lemma CreatedAllowed(h: History, w: Hwnd, owner: Hwnd)
    requires h.pass.Running? && h.call.Idle? && h.pass.view.taskbar.Ready? && !h.pace.recreate && h.world.alive == {}
    requires w != 0 && owner != 0 && owner == h.mind.identity.committed.hwnd
    ensures Allowed(h, Created(w, owner))
  {
  }

  /** An event that only tells of the style of the overlay, outside every show. */
  lemma StyleEffect(h: History, ok: bool)
    requires h.pass.Running? && !h.call.Preparing?
    ensures var h' := Watch(h, StyleTried(ok));
            h' == h.(faults := h.faults.(styleFailed := !ok),
                     owed := if ok && h.pass.view.decided then h.owed - {ApplyStyle} else h.owed,
                     pass := h.pass.(
                       done := if ok && h.pass.view.decided then h.pass.done + {ApplyStyle} else h.pass.done,
                       life := h.pass.life.(styleRefused := !ok), upkeep := h'.pass.upkeep))
  {
  }

  /** A window is created, styled and armed for verification. */
  lemma OverlayMade(start: TaskbarIdentity, run: seq<Event>, h: History, taskbar: TaskbarIdentity, w: Hwnd)
    returns (run': seq<Event>, h': History)
    requires Legal(start, run) && Recall(start, run) == h && Follows(h, taskbar) && w != 0
    requires h.pass.Running? && h.call.Idle? && !h.pace.recreate && h.world.alive == {}
    requires h.pass.view.taskbar.Ready? && !h.pass.view.decided && Unstarted(h.pass)
    ensures Legal(start, run') && Recall(start, run') == h' && run <= run'
    ensures run'[|run|..] == [Created(w, taskbar.hwnd), StyleTried(true), Armed]
    ensures h' == h.(world := WatchWorld(h.world, h.mind, Created(w, taskbar.hwnd)),
                     faults := h.faults.(styleFailed := false),
                     pace := h.pace.(armed := true, ownerSets := 0, ownerSetAt := Never),
                     pass := h.pass.(life := h.pass.life.(ensured := true, created := true, styleRefused := false)))
  {
    hide Legal, Recall, Watch, Allowed;
    CreatedAllowed(h, w, taskbar.hwnd);
    CreationEffect(h, w, taskbar.hwnd);
    UpkeepUntouched(h, Created(w, taskbar.hwnd));
    WorldIsWatched(h, Created(w, taskbar.hwnd));
    run', h' := More(start, run, h, Created(w, taskbar.hwnd));
    StyleAllowed(h', true);
    StyleEffect(h', true);
    UpkeepUntouched(h', StyleTried(true));
    run', h' := More(start, run', h', StyleTried(true));
    ArmEffect(h');
    run', h' := More(start, run', h', Armed);
  }

  /** The overlay that exists already is found. */
  lemma OverlayAgain(start: TaskbarIdentity, run: seq<Event>, h: History, w: Hwnd)
    returns (run': seq<Event>, h': History)
    requires Legal(start, run) && Recall(start, run) == h && h.pass.Running? && h.call.Idle? && !h.pace.recreate
    requires h.pass.view.taskbar.Ready? && h.world.alive == {w}
    ensures Legal(start, run') && Recall(start, run') == h' && run' == run + [OverlayFound(w)]
    ensures h' == h.(pass := h.pass.(life := h.pass.life.(ensured := true)))
  {
    hide Legal, Recall, Watch, Allowed, Ensured;
    EnsuredByFinding(h, w);
    FoundEffect(h, w);
    run', h' := More(start, run, h, OverlayFound(w));
  }

  /** A show is tried, and prepared. */
  lemma ShowStarts(start: TaskbarIdentity, run: seq<Event>, h: History, w: Hwnd, at: nat)
    returns (run': seq<Event>, h': History)
    requires Legal(start, run) && Recall(start, run) == h && Open(h) && Unstarted(h.pass) && h.call.Idle?
    requires h.pass.life.ensured && h.world.alive <= {w}
    requires h.pace.clock <= at && (Forced(h.pass) || WaitOver(h.pace.showRefused, REPAIR_INTERVAL_MS, at))
    ensures Legal(start, run') && Recall(start, run') == h' && run <= run'
    ensures run'[|run|..] == [ShowTried(at), PrepareBegan(w, false)]
    ensures h' == h.(pace := h.pace.(clock := at), pass := h.pass.(show := ShowPending),
                     call := Begun(w, false))
  {
    hide Legal, Recall, Watch, Allowed;
    ShowMayBeTried(h, at);
    ShowTriedEffect(h, at);
    run', h' := More(start, run, h, ShowTried(at));
    ShowBegins(h', w, false);
    PrepareEffect(h', w, false);
    UpkeepUntouched(h', PrepareBegan(w, false));
    run', h' := More(start, run', h', PrepareBegan(w, false));
  }

  lemma MendsMind(h: History, h': History, taskbar: TaskbarIdentity)
    requires Calm(h, taskbar) && h'.mind == h.mind
    ensures Calm(h', taskbar)
  {
  }

  /** What a look at another taskbar concludes: at first it waits, and a settle delay later it commits. */
  lemma OtherSighting(state: TaskbarIdentityState, first: TaskbarIdentity, next: TaskbarIdentity, at: nat)
    requires IsReal(next) && first != next
    ensures state == TaskbarIdentityState(first, first, 0, false) ==>
              ReduceTaskbarIdentity(state, next, at, IDENTITY_SETTLE_MS)
              == TaskbarIdentityResult(TaskbarIdentityState(first, next, at, true), 0, false, true)
    ensures at >= IDENTITY_SETTLE_MS && state == TaskbarIdentityState(first, next, at - IDENTITY_SETTLE_MS, true) ==>
              ReduceTaskbarIdentity(state, next, at, IDENTITY_SETTLE_MS)
              == TaskbarIdentityResult(TaskbarIdentityState(next, next, 0, false), IDENTITY_SETTLE_MS, true, false)
  {
  }

  /** A pass that looks at the taskbar `next`, and finds it ready. */
  lemma LookAtTaskbar(start: TaskbarIdentity, run: seq<Event>, h: History, next: TaskbarIdentity, at: nat)
    returns (run': seq<Event>, h': History)
    requires Legal(start, run) && Recall(start, run) == h && h.pass.NoPass? && h.call.Idle? && h.pace.clock <= at
    ensures Legal(start, run') && Recall(start, run') == h'
    ensures run' == run + [Requested({}), PassBegan({}), TaskbarSeen(next, at), TaskbarProbed(true)]
    ensures var result := ReduceTaskbarIdentity(h.mind.identity, next, at, IDENTITY_SETTLE_MS);
            && h'.mind == h.mind.(identity := result.state) && h'.call == h.call && h'.faults == h.faults
            && h'.pass.Running? && h'.pass.life == UNTOUCHED && Unstarted(h'.pass)
            && h'.pass.view == UNSEEN.(taskbar := Ready, identityChanged := result.committedChanged,
                                       identityPending := result.pending)
            && h'.owed == h.owed
            && h'.world == (if result.committedChanged then h.world.(current := false) else h.world)
            && h'.pace == (if result.committedChanged
                           then h.pace.(recreate := true, teardownRefused := Never, clock := at)
                           else h.pace.(clock := at))
  {
    hide Legal, Recall, Watch, Allowed, ReduceTaskbarIdentity;
    run', h' := PassOpens(start, run, h, {});
    LookAllowed(h', next, at);
    TaskbarSeenEffect(h', next, at);
    run', h' := More(start, run', h', TaskbarSeen(next, at));
    ProbeEffect(h', true);
    run', h' := More(start, run', h', TaskbarProbed(true));
  }

  /** Nobody can see the overlay, so a pass may end with it out of sight. */
  lemma OutOfSight(h: History)
    requires h.pass.Running? && h.pass.view.taskbar.Ready? && h.world.visible == {}
    ensures NotExposed(h)
    ensures h.pass.view.identityPending ==> MayEnd(h, AwaitingIdentity)
    ensures h.pace.recreate && h.pass.life.teardown.Refused? ==> MayEnd(h, TeardownFailed)
  {
  }

  /** Before the first overlay: the taskbar `taskbar` is committed, and nothing is owed or waited for. */
  ghost predicate Unused(h: History, taskbar: TaskbarIdentity) {
    && Calm(h, taskbar) && h.mind.resumeAt.Never? && h.pass.NoPass? && h.call.Idle? && h.owed == {}
    && h.world == World({}, {}, {}, h.world.current, 0, 0, 0) && h.faults == Faults(false, false)
    && h.pace == Pace(false, Never, Never, Never, false, 0, Never, h.pace.clock)
  }

  lemma BeginningIsUnused(taskbar: TaskbarIdentity)
    requires IsReal(taskbar)
    ensures Unused(Beginning(taskbar), taskbar)
  {
  }

  /** A first pass up to its show: it finds the taskbar, makes an overlay, and sees a clear desktop. */
  lemma FirstPass(start: TaskbarIdentity, run: seq<Event>, h: History, taskbar: TaskbarIdentity, w: Hwnd,
                  flags: set<Flag>, at: nat)
    returns (run': seq<Event>, h': History)
    requires Legal(start, run) && Recall(start, run) == h && Unused(h, taskbar) && h.pace.clock <= at
    requires w != 0 && flags * DURABLE == {}
    ensures Legal(start, run') && Recall(start, run') == h' && Calm(h', taskbar)
    ensures Open(h') && Forced(h'.pass) && Unstarted(h'.pass) && h'.call.Idle? && h'.owed == {}
    ensures h'.pass.view.taskbar.Ready? && h'.pass.life.ensured && !h'.pass.view.identityPending
    ensures h'.world == World({w}, {}, {}, true, 1, 0, 0) && h'.faults == Faults(false, false)
    ensures h'.pace == Pace(false, Never, Never, Never, true, 0, Never, at) && h'.mind.resumeAt.Never?
  {
    hide Legal, Recall, Watch, Allowed, Follows;
    run', h' := PassOpens(start, run, h, flags);
    MendsMind(h, h', taskbar);
    run', h' := TaskbarAgain(start, run', h', taskbar, at);
    MendsMind(h, h', taskbar);
    run', h' := OverlayMade(start, run', h', taskbar, w);
    MendsMind(h, h', taskbar);
    run', h' := DesktopClear(start, run', h', at);
    MendsMind(h, h', taskbar);
  }

  /** The same, when the taskbar was there from the start. */
  lemma FirstPassAt(taskbar: TaskbarIdentity, w: Hwnd, flags: set<Flag>, at: nat)
    returns (run: seq<Event>, h: History)
    requires IsReal(taskbar) && w != 0 && flags * DURABLE == {}
    ensures Legal(taskbar, run) && Recall(taskbar, run) == h && Calm(h, taskbar)
    ensures Open(h) && Forced(h.pass) && Unstarted(h.pass) && h.call.Idle? && h.owed == {}
    ensures h.pass.view.taskbar.Ready? && h.pass.life.ensured && !h.pass.view.identityPending
    ensures h.world == World({w}, {}, {}, true, 1, 0, 0) && h.faults == Faults(false, false)
    ensures h.pace == Pace(false, Never, Never, Never, true, 0, Never, at) && h.mind.resumeAt.Never?
  {
    hide Legal, Recall, Watch, Allowed, Calm;
    run, h := [], Beginning(taskbar);
    EmptyRun(taskbar, run);
    BeginningIsUnused(taskbar);
    run, h := FirstPass(taskbar, run, h, taskbar, w, flags, at);
  }

  // ---------------------------------------------------------------- when the taskbar comes later

  lemma NewTaskbarMeans(h: History, taskbar: TaskbarIdentity)
    requires h.mind.suppression == Settled(None) && !h.mind.frozen && IsReal(taskbar)
    requires h.mind.identity == TaskbarIdentityState(taskbar, taskbar, 0, false)
    ensures Calm(h, taskbar)
  {
  }

  lemma TornDownAllowed(h: History)
    requires h.pass.Running? && h.pace.recreate && h.pass.life.teardown.Tried? && !h.pass.life.ensured
    requires h.world.alive == {}
    ensures Allowed(h, TornDown)
  {
  }

  /** The taskbar `taskbar` has been committed, while there was none at the start. */
  lemma TaskbarCommitted(start: TaskbarIdentity, taskbar: TaskbarIdentity) returns (run: seq<Event>, h: History)
    requires !IsReal(start) && IsReal(taskbar)
    ensures Legal(start, run) && Recall(start, run) == h && h.call.Idle? && h.owed == {} && h.pass.Running?
    ensures h.mind == Beginning(start).mind.(identity := TaskbarIdentityState(taskbar, taskbar, 0, false))
    ensures h.world == World({}, {}, {}, false, 0, 0, 0) && h.faults == Faults(false, false)
    ensures h.pace == Pace(true, Never, Never, Never, false, 0, Never, IDENTITY_SETTLE_MS)
    ensures h.pass.life == UNTOUCHED && h.pass.view.taskbar.Ready? && Unstarted(h.pass)
  {
    hide Legal, Recall, Watch, Allowed, ReduceTaskbarIdentity;
    run, h := [], Beginning(start);
    EmptyRun(start, run);
    OtherSighting(h.mind.identity, start, taskbar, 0);
    run, h := LookAtTaskbar(start, run, h, taskbar, 0);
    OutOfSight(h);
    EndEffect(h, AwaitingIdentity);
    run, h := More(start, run, h, PassEnded(AwaitingIdentity));
    OtherSighting(h.mind.identity, start, taskbar, IDENTITY_SETTLE_MS);
    run, h := LookAtTaskbar(start, run, h, taskbar, IDENTITY_SETTLE_MS);
  }

  /** There is nothing to replace, the tray icon is refreshed, and no overlay can be made yet. */
  lemma TaskbarTakenOver(start: TaskbarIdentity, taskbar: TaskbarIdentity) returns (run: seq<Event>, h: History)
    requires !IsReal(start) && IsReal(taskbar)
    ensures Legal(start, run) && Recall(start, run) == h && Unused(h, taskbar)
  {
    hide Legal, Recall, Watch, Allowed;
    run, h := TaskbarCommitted(start, taskbar);
    TeardownAllowed(h, IDENTITY_SETTLE_MS);
    TeardownTriedEffect(h, IDENTITY_SETTLE_MS);
    run, h := More(start, run, h, TeardownTried(IDENTITY_SETTLE_MS));
    TornDownAllowed(h);
    TornDownEffect(h);
    run, h := More(start, run, h, TornDown);
    StyleAllowed(h, true);
    TrayEffect(h);
    run, h := More(start, run, h, TrayRefreshed);
    RefusalAllowed(h, CreationFailed);
    RefusalEffect(h, CreationFailed);
    run, h := More(start, run, h, OverlayRefused(CreationFailed));
    RefusedMayEndPass(h);
    EndEffect(h, NoOverlay);
    run, h := More(start, run, h, PassEnded(NoOverlay));
    NewTaskbarMeans(h, taskbar);
  }

  lemma TrayEffect(h: History)
    requires h.pass.Running?
    ensures var h' := Watch(h, TrayRefreshed);
            h' == h.(owed := h.owed - {RefreshTrayIcon},
                     pass := h.pass.(done := h.pass.done + {RefreshTrayIcon}, upkeep := h'.pass.upkeep))
  {
  }

  lemma RefusedMayEndPass(h: History)
    requires h.pass.Running? && h.pass.life.overlayRefused && h.pass.view.taskbar.Ready?
    requires h.mind.suppression.committed.None?
    ensures MayEnd(h, NoOverlay) && NotExposed(h)
  {
  }

  /** Whatever the start, a taskbar can be found. */
  lemma FindTaskbar(start: TaskbarIdentity) returns (run: seq<Event>, h: History, taskbar: TaskbarIdentity)
    ensures Legal(start, run) && Recall(start, run) == h && Unused(h, taskbar) && IsReal(taskbar)
    ensures IsReal(start) ==> taskbar == start && h.pace.clock == 0
  {
    hide Legal, Recall, Watch, Allowed, Unused;
    if IsReal(start) {
      run, h, taskbar := [], Beginning(start), start;
      EmptyRun(start, run);
      BeginningIsUnused(start);
    } else {
      taskbar := TaskbarIdentity(1, 1);
      run, h := TaskbarTakenOver(start, taskbar);
    }
  }
}
