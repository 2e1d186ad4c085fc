/** Recovery happens: an overlay of another taskbar, hidden for a slide show, is replaced and comes back. */
module RecoveryExample {
  import opened OverlayPolicy
  import opened OverlayObservation
  import opened Ticks
  import opened OverlayProtocol
  import opened OverlaySteps
  import opened OverlayRuns
  import opened WorkIsServed
  import opened OverlayPacing
  import opened OverlayExamples
  import opened PromotionExample
  import opened Recovery

  // ---------------------------------------------------------------- before the three passes

  /** Between passes: `w` exists out of sight, and nothing is owed or waited for. */
  ghost predicate OutOfTheWay(h: History, world: World, recreate: bool, at: nat) {
    && h.pass.NoPass? && h.call.Idle? && h.owed == {} && h.world == world && world.visible == {}
    && !h.mind.frozen && h.mind.resumeAt.Never?
    && h.pace == Pace(recreate, Never, Never, Never, true, 0, Never, at)
  }

  /** With nothing on the screen a pass may stop for a slide show. */
  lemma SuppressedEnds(h: History)
    requires h.pass.Running? && Equipped(h) && !h.mind.suppression.committed.None? && h.world.visible == {}
    ensures MayEnd(h, Suppressed) && NotExposed(h)
  {
  }

  /** A first pass makes an overlay while a slide show is on, and keeps it out of sight. */
  lemma HiddenAtFirst(taskbar: TaskbarIdentity, w: Hwnd, at: nat) returns (run: seq<Event>, h: History)
    requires IsReal(taskbar) && w != 0
    ensures Legal(taskbar, run) && Recall(taskbar, run) == h && Follows(h, taskbar)
    ensures OutOfTheWay(h, World({w}, {}, {}, true, 1, 0, 0), false, at)
    ensures h.mind.suppression == Settled(FullscreenPresentation)
  {
    hide Legal, Recall, Watch, Allowed, MayEnd, ReduceSuppressionPolicy, SlowToHide;
    run, h := [], Beginning(taskbar);
    EmptyRun(taskbar, run);
    run, h := PassOpens(taskbar, run, h, {});
    run, h := TaskbarAgain(taskbar, run, h, taskbar, at);
    run, h := OverlayMade(taskbar, run, h, taskbar, w);
    SlideshowHides(h.mind.suppression, at);
    run, h := DesktopSeen(taskbar, run, h, SLIDESHOW, at);
    SuppressedEnds(h);
    EndEffect(h, Suppressed);
    run, h := More(taskbar, run, h, PassEnded(Suppressed));
  }

  // ---------------------------------------------------------------- the first calm pass

  function FirstEvents(next: TaskbarIdentity, at: nat): seq<Event> {
    [Requested({}), PassBegan({}), TaskbarSeen(next, at), TaskbarProbed(true), PassEnded(AwaitingIdentity)]
  }

  /** The new taskbar is seen for the first time. */
  lemma FirstPassRuns(start: TaskbarIdentity, run: seq<Event>, h: History, first: TaskbarIdentity,
                      next: TaskbarIdentity, world: World, at: nat)
    returns (run': seq<Event>, h': History)
    requires Legal(start, run) && Recall(start, run) == h && Follows(h, first) && OutOfTheWay(h, world, false, at)
    requires IsReal(next) && first != next
    ensures Legal(start, run') && Recall(start, run') == h' && run' == run + FirstEvents(next, at)
    ensures OutOfTheWay(h', world, false, at) && h'.mind.suppression == h.mind.suppression
    ensures h'.mind.identity == TaskbarIdentityState(first, next, at, true)
  {
    hide Legal, Recall, Watch, Allowed, MayEnd, ReduceTaskbarIdentity;
    OtherSighting(h.mind.identity, first, next, at);
    run', h' := LookAtTaskbar(start, run, h, next, at);
    OutOfSight(h');
    EndEffect(h', AwaitingIdentity);
    run', h' := More(start, run', h', PassEnded(AwaitingIdentity));
  }

  // ---------------------------------------------------------------- the second calm pass

  function SecondEvents(next: TaskbarIdentity, w: Hwnd, w': Hwnd, at: nat): seq<Event> {
    [Requested({}), PassBegan({}), TaskbarSeen(next, at), TaskbarProbed(true)]
    + [TeardownTried(at), Destroyed(w), TornDown, TrayRefreshed]
    + [Created(w', next.hwnd), StyleTried(true), Armed]
    + [ForegroundSeen(false, at), SuppressionSeen(CLEAR_OBSERVATION, at), PassEnded(Suppressed)]
  }

  lemma NextIsCommitted(state: TaskbarIdentityState, first: TaskbarIdentity, next: TaskbarIdentity, at: nat)
    requires IsReal(next) && first != next && state == TaskbarIdentityState(first, next, at, true)
    ensures var result := ReduceTaskbarIdentity(state, next, at + REPAIR_INTERVAL_MS, IDENTITY_SETTLE_MS);
            result.state == TaskbarIdentityState(next, next, 0, false) && result.committedChanged && !result.pending
  {
  }

  /** The overlay of the old taskbar is destroyed, and the tray icon refreshed. */
  lemma OldOverlayGoes(start: TaskbarIdentity, run: seq<Event>, h: History, w: Hwnd, at: nat)
    returns (run': seq<Event>, h': History)
    requires Legal(start, run) && Recall(start, run) == h && h.pass.Running? && h.call.Idle? && h.owed == {}
    requires h.pass.view.taskbar.Ready? && h.pass.life == UNTOUCHED && Unstarted(h.pass)
    requires h.world == World({w}, {}, {}, false, 1, 0, 0)
    requires h.pace == Pace(true, Never, Never, Never, true, 0, Never, at)
    ensures Legal(start, run') && Recall(start, run') == h'
    ensures run' == run + [TeardownTried(at), Destroyed(w), TornDown, TrayRefreshed]
    ensures Recall(start, run'[..|run| + 1]).pace.recreate
    ensures h'.mind == h.mind && h'.call.Idle? && h'.owed == {} && h'.pass.Running? && h'.pass.view == h.pass.view
    ensures Unstarted(h'.pass) && h'.world == World({}, {}, {}, false, 1, 1, 0)
    ensures h'.pace == Pace(false, Never, Never, Never, true, 0, Never, at)
  {
    hide Legal, Recall, Watch, Allowed;
    TeardownAllowed(h, at);
    TeardownTriedEffect(h, at);
    run', h' := More(start, run, h, TeardownTried(at));
    var tried := run';
    DestroyDisturbs(h', w);
    run', h' := More(start, run', h', Destroyed(w));
    TornDownAllowed(h');
    TornDownEffect(h');
    run', h' := More(start, run', h', TornDown);
    StyleAllowed(h', true);
    TrayEffect(h');
    UpkeepUntouched(h', TrayRefreshed);
    run', h' := More(start, run', h', TrayRefreshed);
    assert run'[..|run| + 1] == tried;
  }

  lemma ClearWaits(state: SuppressionPolicyState, at: nat)
    requires state == Settled(FullscreenPresentation)
    ensures var result := ReduceSuppressionPolicy(state, CLEAR_OBSERVATION, at, SHIPPED_CONFIG);
            && result.state == SuppressionPolicyState(FullscreenPresentation, None, at, true, Default)
            && !result.committedChanged
    ensures SlowToHide(CLEAR_OBSERVATION)
  {
  }

  /** The new taskbar is settled, so its overlay takes the place of the old one. The slide show is over, but
      has not been for long enough. */
  lemma SecondPassRuns(start: TaskbarIdentity, run: seq<Event>, h: History, first: TaskbarIdentity,
                       next: TaskbarIdentity, w: Hwnd, w': Hwnd, before: nat, at: nat)
    returns (run': seq<Event>, h': History)
    requires Legal(start, run) && Recall(start, run) == h && w' != 0 && at == before + REPAIR_INTERVAL_MS
    requires OutOfTheWay(h, World({w}, {}, {}, true, 1, 0, 0), false, before)
    requires h.mind.identity == TaskbarIdentityState(first, next, before, true) && IsReal(next) && first != next
    requires h.mind.suppression == Settled(FullscreenPresentation)
    ensures Legal(start, run') && Recall(start, run') == h' && run' == run + SecondEvents(next, w, w', at)
    ensures Recall(start, run'[..|run| + 5]).pace.recreate && Follows(h', next)
    ensures OutOfTheWay(h', World({w'}, {}, {}, true, 2, 1, 0), false, at)
    ensures h'.mind.suppression == SuppressionPolicyState(FullscreenPresentation, None, at, true, Default)
  {
    hide Legal, Recall, Watch, Allowed, MayEnd, ReduceTaskbarIdentity, ReduceSuppressionPolicy, SlowToHide;
    NextIsCommitted(h.mind.identity, first, next, before);
    run', h' := LookAtTaskbar(start, run, h, next, at);
    run', h' := OldOverlayGoes(start, run', h', w, at);
    var torn := run';
    run', h' := OverlayMade(start, run', h', next, w');
    ClearWaits(h'.mind.suppression, at);
    run', h' := DesktopSeen(start, run', h', CLEAR_OBSERVATION, at);
    SuppressedEnds(h');
    EndEffect(h', Suppressed);
    run', h' := More(start, run', h', PassEnded(Suppressed));
    assert run'[..|run| + 5] == torn[..|run| + 5];
  }

  // ---------------------------------------------------------------- the third calm pass

  function ThirdEvents(next: TaskbarIdentity, w: Hwnd, at: nat): seq<Event> {
    [Requested({}), PassBegan({}), TaskbarSeen(next, at), TaskbarProbed(true), OverlayFound(w),
     ForegroundSeen(false, at), SuppressionSeen(CLEAR_OBSERVATION, at)]
    + ShowEvents(w, at)
  }

  lemma ClearIsCommitted(state: SuppressionPolicyState, before: nat)
    requires state == SuppressionPolicyState(FullscreenPresentation, None, before, true, Default)
    ensures var result := ReduceSuppressionPolicy(state, CLEAR_OBSERVATION, before + REPAIR_INTERVAL_MS,
                                                  SHIPPED_CONFIG);
            result.state == Settled(None) && result.committedChanged
    ensures SlowToHide(CLEAR_OBSERVATION)
  {
  }

  /** The slide show has been over for long enough, so the overlay comes back. */
  lemma ThirdPassRuns(start: TaskbarIdentity, run: seq<Event>, h: History, next: TaskbarIdentity, w: Hwnd, world: World,
                      before: nat, at: nat)
    returns (run': seq<Event>, h': History)
    requires Legal(start, run) && Recall(start, run) == h && Follows(h, next) && at == before + REPAIR_INTERVAL_MS
    requires IsBlank(world, w) && OutOfTheWay(h, world, false, before)
    requires h.mind.suppression == SuppressionPolicyState(FullscreenPresentation, None, before, true, Default)
    ensures Legal(start, run') && Recall(start, run') == h' && run' == run + ThirdEvents(next, w, at)
    ensures var asked := Recall(start, run'[..|run| + 14]);
            asked.call.Preparing? && asked.call.hwnd == w && w in asked.world.visible
    ensures h'.world.visible == {w} && h'.pace.clock == at
  {
    hide Legal, Recall, Watch, Allowed, MayEnd, ReduceTaskbarIdentity, ReduceSuppressionPolicy, SlowToHide;
    run', h' := PassOpens(start, run, h, {});
    run', h' := TaskbarAgain(start, run', h', next, at);
    run', h' := OverlayAgain(start, run', h', w);
    ClearIsCommitted(h'.mind.suppression, before);
    run', h' := DesktopSeen(start, run', h', CLEAR_OBSERVATION, at);
    assert |run'| == |run| + 7;
    run', h' := ShowRuns(start, run', h', next, world, w);
  }

  // ---------------------------------------------------------------- all of it is calm

  /** An event that is calm whatever came before. */
  predicate IsPeaceful(e: Event, taskbar: TaskbarIdentity) {
    match e
    case TaskbarSeen(identity, _) => identity == taskbar
    case TaskbarProbed(ready) => ready
    case TeardownRefused(_) => false
    case OverlayRefused(_) => false
    case Destroyed(_) => false
    case ForegroundSeen(screenshot, _) => !screenshot
    case SuppressionSeen(seen, _) => seen == CLEAR_OBSERVATION
    case StyleTried(ok) => ok
    case HideTried(ok) => ok
    case FrameMissed => false
    case ShowCalled(_) => false
    case Vanished(_) => false
    case _ => true
  }

  lemma PeacefulIsCalm(h: History, e: Event, taskbar: TaskbarIdentity)
    requires IsPeaceful(e, taskbar)
    ensures CalmStep(h, e, taskbar)
  {
  }

  /** A calm run goes on with peaceful events, but for the one at `m`. */
  lemma CalmGoesOn(start: TaskbarIdentity, run: seq<Event>, run': seq<Event>, i: nat, m: nat, taskbar: TaskbarIdentity)
    requires i <= |run| && run <= run' && IsCalm(start, run, i, |run|, taskbar)
    requires m < |run'| && CalmStep(Recall(start, run'[..m]), run'[m], taskbar)
    requires forall k :: |run| <= k < |run'| && k != m ==> IsPeaceful(run'[k], taskbar)
    ensures IsCalm(start, run', i, |run'|, taskbar)
  {
    hide CalmStep, Recall, IsPeaceful;
    forall k | i <= k < |run'| ensures CalmStep(Recall(start, run'[..k]), run'[k], taskbar) {
      if k < |run| {
        assert run'[..k] == run[..k];
      } else if k != m {
        PeacefulIsCalm(Recall(start, run'[..k]), run'[k], taskbar);
      }
    }
  }

  /** A request, a pass that goes on at time `at` to its end, and nothing else. */
  ghost predicate OnePass(part: seq<Event>, at: nat) {
    var n := |part| - 1;
    && n > 1 && part[1].PassBegan? && part[n].PassEnded? && EndsBy(part[n].outcome, 0)
    && forall k :: 1 < k < n ==> !part[k].PassBegan? && !part[k].PassEnded? && NotBefore(part[k], at)
  }

  /** Where the events of such a pass stand in a run. */
  lemma PassStands(run: seq<Event>, i: nat, part: seq<Event>, at: nat)
    requires i + |part| <= |run| && run[i..i + |part|] == part && OnePass(part, at)
    ensures var b, e := i + 1, i + |part| - 1;
            && b < e < |run| && PassSince(run[..e], b) && LaterThan(run, b, e, at)
            && run[e].PassEnded? && EndsBy(run[e].outcome, 0)
  {
    hide NotBefore, EndsBy;
    assert forall k :: 0 <= k < |part| ==> run[i + k] == part[k];
    var b, e := i + 1, i + |part| - 1;
    forall k | b < k < e ensures !run[k].PassBegan? && !run[k].PassEnded? && NotBefore(run[k], at) {
      assert run[k] == part[k - i];
    }
  }

  lemma EndKeeps(h: History, e: Event)
    requires e.PassEnded?
    ensures Watch(h, e).pace == h.pace && Watch(h, e).world == h.world
  {
  }

  /** Such a pass is calm as a whole if the clock goes with it. */
  lemma PassInRun(start: TaskbarIdentity, run: seq<Event>, i: nat, part: seq<Event>, past: seq<Event>, h: History,
                  at: nat, limit: nat)
    requires Legal(start, run) && past <= run && i + |part| == |past| && past[i..] == part && OnePass(part, at)
    requires |part| > 2 && Recall(start, past) == h && h.pace.clock == at < UINT64_MODULUS
    ensures var b, e := i + 1, |past| - 1;
            && CalmPass(start, run, b, e, limit) && LaterThan(run, b, e, at)
            && Recall(start, run[..e]).pace.clock == at && Recall(start, run[..e]).world == h.world
  {
    hide Legal, Recall, Watch, Allowed, OnePass, LaterThan, PassSince, EndsBy;
    var e := |past| - 1;
    assert run[i..i + |part|] == part;
    PassStands(run, i, part, at);
    EndsAnyTime(run[e].outcome, limit);
    LegalAt(start, run, e);
    EndKeeps(Recall(start, run[..e]), run[e]);
    assert run[..e + 1] == past;
  }

  lemma EndsAnyTime(outcome: Outcome, limit: nat)
    requires EndsBy(outcome, 0)
    ensures EndsBy(outcome, limit)
  {
  }

  lemma FirstIsPeaceful(next: TaskbarIdentity, at: nat)
    ensures var part := FirstEvents(next, at);
            && |part| == 5 && part[0] == Requested({}) && OnePass(part, at)
            && forall k :: 0 <= k < 5 ==> IsPeaceful(part[k], next)
  {
  }

  lemma SecondIsPeaceful(next: TaskbarIdentity, w: Hwnd, w': Hwnd, at: nat)
    ensures var part := SecondEvents(next, w, w', at);
            && |part| == 14 && OnePass(part, at) && part[5] == Destroyed(w)
            && forall k :: 0 <= k < 14 && k != 5 ==> IsPeaceful(part[k], next)
  {
  }

  lemma ThirdIsPeaceful(next: TaskbarIdentity, w: Hwnd, at: nat)
    ensures var part := ThirdEvents(next, w, at);
            && |part| == 18 && part[14] == ShowCalled(true)
            && forall k :: 0 <= k < 18 && k != 14 ==> IsPeaceful(part[k], next)
  {
  }

  lemma ThirdIsOnePass(next: TaskbarIdentity, w: Hwnd, at: nat)
    ensures OnePass(ThirdEvents(next, w, at), at)
  {
  }

  /** The beginning of the first pass: nothing is waited for. */
  lemma RequestAtRest(start: TaskbarIdentity, run: seq<Event>, h: History, world: World, at: nat)
    requires Recall(start, run) == h && OutOfTheWay(h, world, false, at)
    ensures var asked := Recall(start, run + [Requested({})]);
            ClockCanTell(asked, at + 10_000) && asked.world == world && asked.mind == h.mind
  {
    hide Recall, Watch, Legal;
    OneMore(start, run, Requested({}));
    RequestEffect(h, {});
  }

  /** For any two taskbars and at any time: an overlay that belongs to the one and is suppressed comes back as
      an overlay of the other, in three passes that nobody hinders. Two of them do not bring it back. */
  lemma RecoveryCanHappen(first: TaskbarIdentity, next: TaskbarIdentity, w: Hwnd, w': Hwnd, at: nat)
    returns (run: seq<Event>, b1: nat, e1: nat, b2: nat, e2: nat, b3: nat, e3: nat)
    requires IsReal(first) && IsReal(next) && first != next && w != 0 && w' != 0 && at + 10_000 < UINT64_MODULUS
    ensures Legal(first, run) && ThreeCalmPasses(first, run, next, b1, e1, b2, e2, b3, e3, at + 10_000)
    ensures var before := Recall(first, run[..b1]);
            && before.world.alive == {w} && before.world.visible == {}
            && before.mind.identity.committed == first && before.mind.suppression.committed.FullscreenPresentation?
    ensures Recall(first, run[..e2]).world.visible == {}
    ensures Recall(first, run[..e3]).world.visible == {w'}
  {
    hide Legal, Recall, Watch, Allowed, CalmStep, IsCalm, CalmPass, LaterThan, ClockCanTell, OnePass, IsPeaceful,
         FirstEvents, SecondEvents, ThirdEvents;
    var hidden, h := HiddenAtFirst(first, w, at);
    var world := World({w}, {}, {}, true, 1, 0, 0);
    RequestAtRest(first, hidden, h, world, at);
    var one, h1 := FirstPassRuns(first, hidden, h, first, next, world, at);
    var two, h2 := SecondPassRuns(first, one, h1, first, next, w, w', at, at + 5000);
    var h3;
    run, h3 := ThirdPassRuns(first, two, h2, next, w', World({w'}, {}, {}, true, 2, 1, 0), at + 5000, at + 10_000);
    var p1, p2, p3 := FirstEvents(next, at), SecondEvents(next, w, w', at + 5000), ThirdEvents(next, w', at + 10_000);
    FirstIsPeaceful(next, at);
    SecondIsPeaceful(next, w, w', at + 5000);
    ThirdIsPeaceful(next, w', at + 10_000);
    ThirdIsOnePass(next, w', at + 10_000);
    b1, e1 := |hidden| + 1, |hidden| + 4;
    b2, e2 := |one| + 1, |one| + 13;
    b3, e3 := |two| + 1, |two| + 17;
    PassInRun(first, run, |hidden|, p1, one, h1, at, at + 10_000);
    PassInRun(first, run, |one|, p2, two, h2, at + 5000, at + 10_000);
    PassInRun(first, run, |two|, p3, run, h3, at + 10_000, at + 10_000);
    AllIsCalm(first, hidden, one, two, run, p1, p2, p3, next, w);
    assert run[..b1] == hidden + [Requested({})];
    assert run[..e3] <= run;
    CalmUpTo(first, run, b1, e3, next);
  }

  lemma CalmUpTo(start: TaskbarIdentity, run: seq<Event>, b: nat, e: nat, taskbar: TaskbarIdentity)
    requires 0 < b <= e <= |run| && IsCalm(start, run, b - 1, |run|, taskbar)
    ensures IsCalm(start, run, b, e, taskbar)
  {
    hide CalmStep, Recall;
  }

  /** The three passes one after the other. */
  lemma AllIsCalm(start: TaskbarIdentity, hidden: seq<Event>, one: seq<Event>, two: seq<Event>, run: seq<Event>,
                  p1: seq<Event>, p2: seq<Event>, p3: seq<Event>, next: TaskbarIdentity, w: Hwnd)
    requires one == hidden + p1 && two == one + p2 && run == two + p3 && |p1| == 5 && |p2| == 14 && |p3| == 18
    requires forall k :: 0 <= k < 5 ==> IsPeaceful(p1[k], next)
    requires forall k :: 0 <= k < 14 && k != 5 ==> IsPeaceful(p2[k], next)
    requires forall k :: 0 <= k < 18 && k != 14 ==> IsPeaceful(p3[k], next)
    requires p2[5] == Destroyed(w) && Recall(start, two[..|one| + 5]).pace.recreate
    requires p3[14] == ShowCalled(true)
    requires var asked := Recall(start, run[..|two| + 14]);
             asked.call.Preparing? && asked.call.hwnd in asked.world.visible
    ensures IsCalm(start, run, |hidden|, |run|, next)
  {
    hide Recall, IsPeaceful, IsCalm, CalmStep;
    NothingIsCalm(start, hidden, next);
    PeacefulIsCalm(Recall(start, one[..|hidden|]), p1[0], next);
    CalmGoesOn(start, hidden, one, |hidden|, |hidden|, next);
    DestroyedIsCalm(Recall(start, two[..|one| + 5]), w, next);
    CalmGoesOn(start, one, two, |hidden|, |one| + 5, next);
    AnswerIsCalm(Recall(start, run[..|two| + 14]), next);
    CalmGoesOn(start, two, run, |hidden|, |two| + 14, next);
  }

  lemma NothingIsCalm(start: TaskbarIdentity, run: seq<Event>, taskbar: TaskbarIdentity)
    ensures IsCalm(start, run, |run|, |run|, taskbar)
  {
  }

  lemma DestroyedIsCalm(h: History, w: Hwnd, taskbar: TaskbarIdentity)
    requires h.pace.recreate
    ensures CalmStep(h, Destroyed(w), taskbar)
  {
  }

  lemma AnswerIsCalm(h: History, taskbar: TaskbarIdentity)
    requires h.call.Preparing? && h.call.hwnd in h.world.visible
    ensures CalmStep(h, ShowCalled(true), taskbar)
  {
  }
}
