/** Nothing becomes visible that was not presented first. */
module PresentBeforeShow {
  import opened OverlayPolicy
  import opened OverlayProtocol
  import opened OverlayRuns
  import opened WorkIsServed
  import opened UpkeepRepairs

  ghost predicate Boundary(e: Event) {
    e.PrepareBegan? || e.PrepareEnded? || e.PromoteBegan? || e.PromoteEnded?
  }

  /** The show or promotion that began at `b` is still under way. */
  ghost predicate UnderWay(run: seq<Event>, b: nat) {
    b < |run| && forall k :: b < k < |run| ==> !Boundary(run[k])
  }

  /** The style of the overlay was set after `b`. */
  ghost predicate StyledSince(run: seq<Event>, b: nat) {
    exists s :: b < s < |run| && run[s] == StyleTried(true)
  }

  /** After that, it was placed. */
  ghost predicate PlacedSince(run: seq<Event>, b: nat) {
    exists l :: b < l < |run| && run[l] == Placed && StyledSince(run[..l], b)
  }

  /** After that, its surface was cleared. */
  ghost predicate ClearedSince(run: seq<Event>, b: nat) {
    exists c :: b < c < |run| && run[c] == SurfaceCleared && PlacedSince(run[..c], b)
  }

  /** After all of that, it was presented, and it still is the same window. */
  ghost predicate PresentedSince(run: seq<Event>, b: nat, w: Hwnd, reset: bool) {
    exists p :: b < p < |run| && PresentedAt(run, b, p, w, reset)
  }

  ghost predicate PresentedAt(run: seq<Event>, b: nat, p: nat, w: Hwnd, reset: bool)
    requires p < |run|
  {
    && PlacedSince(run[..p], b) && (reset ==> ClearedSince(run[..p], b))
    && HoldsFrom(run, p, Presents(w), Renews(w))
  }

  ghost predicate VanishedSince(run: seq<Event>, b: nat, w: Hwnd) {
    exists v :: b < v < |run| && run[v] == Vanished(w)
  }

  /** `w` has just gone through the steps of a show. */
  ghost predicate Prepared(run: seq<Event>, w: Hwnd) {
    exists b, reset :: 0 <= b < |run| && UnderWay(run, b) && run[b] == PrepareBegan(w, reset)
      && PresentedSince(run, b, w, reset)
  }

  /** `w` is being promoted, was visible when that began, and has been hidden by others since. */
  ghost predicate HiddenUnderPromotion(run: seq<Event>, w: Hwnd) {
    exists b :: 0 <= b < |run| && UnderWay(run, b) && run[b] == PromoteBegan(w) && IsVisible(run[..b], w)
      && VanishedSince(run, b, w)
  }

  lemma StyledLonger(run: seq<Event>, m: nat, b: nat)
    requires m <= |run| && StyledSince(run[..m], b)
    ensures StyledSince(run, b)
  {
    var s :| b < s < m && run[..m][s] == StyleTried(true);
    assert run[s] == StyleTried(true);
  }

  lemma PlacedLonger(run: seq<Event>, m: nat, b: nat)
    requires m <= |run| && PlacedSince(run[..m], b)
    ensures PlacedSince(run, b)
  {
    var l :| b < l < m && run[..m][l] == Placed && StyledSince(run[..m][..l], b);
    assert run[..m][..l] == run[..l] && run[l] == Placed;
  }

  lemma ClearedLonger(run: seq<Event>, m: nat, b: nat)
    requires m <= |run| && ClearedSince(run[..m], b)
    ensures ClearedSince(run, b)
  {
    var c :| b < c < m && run[..m][c] == SurfaceCleared && PlacedSince(run[..m][..c], b);
    assert run[..m][..c] == run[..c] && run[c] == SurfaceCleared;
  }

  /** One more event that does not end the life of the window. */
  lemma PresentedLonger(run: seq<Event>, b: nat, w: Hwnd, reset: bool)
    requires |run| > 0 && PresentedSince(run[..|run| - 1], b, w, reset) && !Renews(w)(run[|run| - 1])
    ensures PresentedSince(run, b, w, reset)
  {
    hide PlacedSince, ClearedSince, Presents, Renews;
    var n := |run| - 1;
    var p :| b < p < n && PresentedAt(run[..n], b, p, w, reset);
    assert run[..n][..p] == run[..p];
    assert PresentedAt(run, b, p, w, reset);
  }

  /** The call under way is what the summary says it is. */
  ghost predicate CallIsWhatHappened(run: seq<Event>, call: Call, alive: set<Hwnd>) {
    match call
    case Idle => true
    case Preparing(w, reset, styled, placed, cleared, presented, _, _, _, _) =>
      exists b :: 0 <= b < |run| && UnderWay(run, b) && run[b] == PrepareBegan(w, reset)
                  && (styled ==> StyledSince(run, b)) && (placed ==> PlacedSince(run, b))
                  && (cleared ==> ClearedSince(run, b))
                  && (presented && w in alive ==> PresentedSince(run, b, w, reset))
    case Promoting(w, lost) =>
      exists b :: 0 <= b < |run| && UnderWay(run, b) && run[b] == PromoteBegan(w) && IsVisible(run[..b], w)
                  && (lost ==> VanishedSince(run, b, w))
  }

  lemma {:induction false} CallsAreWhatHappened(start: TaskbarIdentity, run: seq<Event>)
    requires Legal(start, run)
    ensures CallIsWhatHappened(run, Recall(start, run).call, Recall(start, run).world.alive)
  {
    if |run| > 0 {
      var n := |run| - 1;
      LastStep(start, run);
      CallsAreWhatHappened(start, run[..n]);
      var before, now := Recall(start, run[..n]), Recall(start, run);
      CallStep(start, run, before, now);
    }
  }

  /** Where a show or promotion begins or ends. */
  lemma CallBoundary(before: History, e: Event, now: History)
    requires Allowed(before, e) && now == Watch(before, e)
    ensures e.PrepareBegan? ==> now.call == Begun(e.hwnd, e.reset)
    ensures e.PromoteBegan? ==> now.call == Promoting(e.hwnd, false) && e.hwnd in before.world.visible
    ensures e.PrepareEnded? || e.PromoteEnded? ==> now.call.Idle?
    ensures !Boundary(e) && before.call.Idle? ==> now.call.Idle?
  {
    hide WatchMail, WatchOwed, WatchWorld, WatchMind, WatchPace, WatchFaults, WatchPass;
  }

  lemma CallStep(start: TaskbarIdentity, run: seq<Event>, before: History, now: History)
    requires |run| > 0 && before == Recall(start, run[..|run| - 1])
    requires Allowed(before, run[|run| - 1]) && now == Watch(before, run[|run| - 1])
    requires CallIsWhatHappened(run[..|run| - 1], before.call, before.world.alive)
    ensures CallIsWhatHappened(run, now.call, now.world.alive)
  {
    hide Watch, Allowed, Recall, StyledSince, PlacedSince, ClearedSince, PresentedSince;
    var n := |run| - 1;
    var e := run[n];
    CallBoundary(before, e, now);
    if Boundary(e) {
      assert UnderWay(run, n);
      if e.PromoteBegan? {
        WorldIsWhatHappened(start, run[..n], e.hwnd);
      }
    } else if before.call.Preparing? {
      PrepareStep(run, before, now);
    } else if before.call.Promoting? {
      PromoteStep(run, before, now);
    }
  }

  /** What one event does to a promotion under way. */
  lemma PromotionGoesOn(before: History, e: Event, now: History)
    requires before.call.Promoting? && !Boundary(e) && now == Watch(before, e)
    ensures now.call.Promoting? && now.call.hwnd == before.call.hwnd
    ensures now.call.lost ==> before.call.lost || e == Vanished(before.call.hwnd)
  {
  }

  lemma PromoteStep(run: seq<Event>, before: History, now: History)
    requires |run| > 0 && before.call.Promoting? && !Boundary(run[|run| - 1]) && now == Watch(before, run[|run| - 1])
    requires CallIsWhatHappened(run[..|run| - 1], before.call, before.world.alive)
    ensures CallIsWhatHappened(run, now.call, now.world.alive)
  {
    hide Watch, IsVisible, VanishedSince, UnderWay, Boundary;
    var n := |run| - 1;
    PromotionGoesOn(before, run[n], now);
    var w, lost := before.call.hwnd, before.call.lost;
    var b :| 0 <= b < n && UnderWay(run[..n], b) && run[..n][b] == PromoteBegan(w) && IsVisible(run[..n][..b], w)
             && (lost ==> VanishedSince(run[..n], b, w));
    assert run[..n][..b] == run[..b];
    StillUnderWay(run, b);
    VanishedStays(run, b, w);
  }

  lemma StillUnderWay(run: seq<Event>, b: nat)
    requires |run| > 0 && b < |run| - 1 && UnderWay(run[..|run| - 1], b) && !Boundary(run[|run| - 1])
    ensures UnderWay(run, b)
  {
    var n := |run| - 1;
    assert forall k :: 0 <= k < n ==> run[..n][k] == run[k];
  }

  lemma VanishedStays(run: seq<Event>, b: nat, w: Hwnd)
    requires |run| > 0 && b < |run| - 1
    ensures VanishedSince(run[..|run| - 1], b, w) || run[|run| - 1] == Vanished(w) ==> VanishedSince(run, b, w)
  {
    var n := |run| - 1;
    assert forall k :: 0 <= k < n ==> run[..n][k] == run[k];
  }

  /** What one event does to a show under way. */
  lemma ShowGoesOn(before: History, e: Event, now: History)
    requires before.call.Preparing? && !Boundary(e) && Allowed(before, e) && now == Watch(before, e)
    ensures now.call.Preparing? && now.call.hwnd == before.call.hwnd && now.call.reset == before.call.reset
    ensures now.call.styled ==> before.call.styled || e == StyleTried(true)
    ensures now.call.placed ==> before.call.placed || (e == Placed && before.call.styled)
    ensures now.call.cleared ==> before.call.cleared || (e == SurfaceCleared && before.call.placed)
    ensures now.call.presented && !before.call.presented ==>
              e == Presented(now.call.hwnd) && before.call.placed && (before.call.reset ==> before.call.cleared)
  {
    StepsNeed(before, e);
    CallIsWatched(before, e);
    CallRemembers(before.call, e);
    CallRemembersMore(before.call, e);
    hide Watch, Allowed, WatchCall;
  }

  /** What a show remembers of an event. */
  lemma CallRemembers(call: Call, e: Event)
    requires call.Preparing? && !Boundary(e)
    ensures var after := WatchCall(call, e);
            && after.Preparing? && after.hwnd == call.hwnd && after.reset == call.reset
            && (after.styled ==> call.styled || e == StyleTried(true))
            && (after.placed ==> call.placed || e.Placed?)
  {
  }

  lemma CallRemembersMore(call: Call, e: Event)
    requires call.Preparing? && !Boundary(e)
    ensures var after := WatchCall(call, e);
            && after.Preparing?
            && (after.cleared ==> call.cleared || e.SurfaceCleared?)
            && (after.presented ==> call.presented || e == Presented(call.hwnd))
  {
  }

  lemma CallIsWatched(h: History, e: Event)
    ensures Watch(h, e).call == WatchCall(h.call, e)
  {
  }

  /** The order of the steps of a show. */
  lemma StepsNeed(h: History, e: Event)
    requires Allowed(h, e) && h.call.Preparing?
    ensures e.Placed? ==> h.call.styled
    ensures e.SurfaceCleared? ==> h.call.placed
    ensures e.Presented? ==> h.call.placed && (h.call.reset ==> h.call.cleared)
  {
  }

  lemma CreationNeedsIdle(before: History, e: Event)
    requires Allowed(before, e)
    ensures e.Created? ==> before.call.Idle?
  {
  }

  /** During a show no window comes to life. */
  lemma ShowCreatesNothing(before: History, e: Event, now: History, w: Hwnd)
    requires before.call.Preparing? && Allowed(before, e) && now == Watch(before, e) && w in now.world.alive
    ensures w in before.world.alive && !Renews(w)(e)
  {
    hide Allowed, WatchPass, WatchMind, WatchPace, WatchOwed, WatchMail, WatchCall, SeeTaskbar;
    assert !e.Created? by { CreationNeedsIdle(before, e); }
  }

  lemma PrepareStep(run: seq<Event>, before: History, now: History)
    requires |run| > 0 && before.call.Preparing? && !Boundary(run[|run| - 1])
    requires Allowed(before, run[|run| - 1]) && now == Watch(before, run[|run| - 1])
    requires CallIsWhatHappened(run[..|run| - 1], before.call, before.world.alive)
    ensures CallIsWhatHappened(run, now.call, now.world.alive)
  {
    hide Watch, Allowed, StyledSince, PlacedSince, ClearedSince, PresentedSince, Renews;
    var n := |run| - 1;
    var e := run[n];
    ShowGoesOn(before, e, now);
    var w, reset := before.call.hwnd, before.call.reset;
    var b :| 0 <= b < n && UnderWay(run[..n], b) && run[..n][b] == PrepareBegan(w, reset)
             && (before.call.styled ==> StyledSince(run[..n], b)) && (before.call.placed ==> PlacedSince(run[..n], b))
             && (before.call.cleared ==> ClearedSince(run[..n], b))
             && (before.call.presented && w in before.world.alive ==> PresentedSince(run[..n], b, w, reset));
    StepsGoOn(run, b, before.call, now.call);
    if now.call.presented && w in now.world.alive {
      ShowCreatesNothing(before, e, now, w);
      if !before.call.presented {
        PresentedNow(run, b, w, reset);
      } else {
        PresentedLonger(run, b, w, reset);
      }
    }
    assert UnderWay(run, b) && run[b] == PrepareBegan(w, reset);
  }

  lemma PresentedNow(run: seq<Event>, b: nat, w: Hwnd, reset: bool)
    requires |run| > 0 && b < |run| - 1 && run[|run| - 1] == Presented(w)
    requires PlacedSince(run[..|run| - 1], b) && (reset ==> ClearedSince(run[..|run| - 1], b))
    ensures PresentedSince(run, b, w, reset)
  {
    hide PlacedSince, ClearedSince;
    assert PresentedAt(run, b, |run| - 1, w, reset);
  }

  lemma StepsGoOn(run: seq<Event>, b: nat, before: Call, now: Call)
    requires |run| > 0 && b < |run| - 1 && before.Preparing? && now.Preparing?
    requires var past := run[..|run| - 1];
             && (before.styled ==> StyledSince(past, b)) && (before.placed ==> PlacedSince(past, b))
             && (before.cleared ==> ClearedSince(past, b))
    requires var e := run[|run| - 1];
             && (now.styled ==> before.styled || e == StyleTried(true))
             && (now.placed ==> before.placed || (e == Placed && before.styled))
             && (now.cleared ==> before.cleared || (e == SurfaceCleared && before.placed))
    ensures now.styled ==> StyledSince(run, b)
    ensures now.placed ==> PlacedSince(run, b)
    ensures now.cleared ==> ClearedSince(run, b)
  {
    var n := |run| - 1;
    if before.styled { StyledLonger(run, n, b); }
    if before.placed { PlacedLonger(run, n, b); }
    if before.cleared { ClearedLonger(run, n, b); }
  }

  lemma ShowNeedsCall(h: History, e: Event)
    requires Allowed(h, e) && e.Shown?
    ensures e.hwnd in h.world.alive && e.hwnd in h.world.presented && e.hwnd !in h.world.visible
    ensures || (h.call.Preparing? && h.call.hwnd == e.hwnd && h.call.presented)
            || (h.call.Promoting? && h.call.hwnd == e.hwnd && h.call.lost)
  {
  }

  /** A show that has presented, and a promotion that has lost its window. */
  lemma ShowMeans(run: seq<Event>, call: Call, alive: set<Hwnd>, w: Hwnd)
    requires CallIsWhatHappened(run, call, alive) && w in alive
    ensures call.Preparing? && call.hwnd == w && call.presented ==> Prepared(run, w)
    ensures call.Promoting? && call.hwnd == w && call.lost ==> HiddenUnderPromotion(run, w)
  {
    hide StyledSince, PlacedSince, ClearedSince, PresentedSince, UnderWay, IsVisible;
  }

  lemma OneCallAtATime(run: seq<Event>, b: nat, c: nat)
    requires UnderWay(run, b) && Boundary(run[b]) && UnderWay(run, c) && Boundary(run[c])
    ensures b == c
  {
  }

  /** A show is either prepared or part of a promotion. */
  lemma CallsDoNotOverlap(run: seq<Event>, w: Hwnd)
    requires HiddenUnderPromotion(run, w)
    ensures !Prepared(run, w)
  {
    hide PresentedSince, IsVisible, VanishedSince, UnderWay;
    var c :| 0 <= c < |run| && UnderWay(run, c) && run[c] == PromoteBegan(w);
    forall b | 0 <= b < |run| && UnderWay(run, b) && run[b].PrepareBegan? ensures b == c {
      OneCallAtATime(run, b, c);
    }
  }

  /** Present before show. A window becomes visible only in a show that styled, placed, if asked
      cleared, and then presented it; or else, and exactly then, in a promotion that found it visible,
      when it was hidden under that promotion. Either way it was presented since it was created. */
  lemma {:induction false} ShownOnlyAfterPresent(start: TaskbarIdentity, run: seq<Event>, i: nat)
    requires Legal(start, run) && i < |run| && run[i].Shown?
    ensures var w := run[i].hwnd;
            && !IsVisible(run[..i], w) && IsAlive(run[..i], w) && IsPresented(run[..i], w)
            && (!Prepared(run[..i], w) <==> HiddenUnderPromotion(run[..i], w))
  {
    hide Allowed, Watch, Legal, Recall, Prepared, HiddenUnderPromotion, CallIsWhatHappened, IsAlive, IsVisible,
         IsPresented;
    var h := Recall(start, run[..i]);
    LegalAt(start, run, i);
    ShowNeedsCall(h, run[i]);
    CallsAreWhatHappened(start, run[..i]);
    ShowMeans(run[..i], h.call, h.world.alive, run[i].hwnd);
    WorldIsWhatHappened(start, run[..i], run[i].hwnd);
    if HiddenUnderPromotion(run[..i], run[i].hwnd) {
      CallsDoNotOverlap(run[..i], run[i].hwnd);
    }
  }

  // ---------------------------------------------------------------- the request behind a promotion

  lemma PromotionNeeds(h: History, e: Event)
    requires Allowed(h, e)
    ensures e.PromoteBegan? ==>
              h.pass.Running? && h.pass.upkeep.Keeping? && PromoteForTaskView in h.pass.todo
    ensures e.PassBegan? ==> h.call.Idle?
  {
  }

  lemma {:induction false} PromotionStays(start: TaskbarIdentity, run: seq<Event>, c: nat)
    requires Legal(start, run) && UnderWay(run, c) && run[c].PromoteBegan?
    ensures Recall(start, run).call.Promoting?
  {
    hide Watch, Allowed;
    var n := |run| - 1;
    var before := Recall(start, run[..n]);
    LastStep(start, run);
    if c < n {
      assert UnderWay(run[..n], c);
      PromotionStays(start, run[..n], c);
      PromotionGoesOn(before, run[n], Recall(start, run));
    } else {
      CallBoundary(before, run[n], Recall(start, run));
    }
  }

  /** A promotion is part of a pass that was handed the request for it, and not asked to reset the surface. */
  lemma {:induction false} PromotionsAreAskedFor(start: TaskbarIdentity, run: seq<Event>, b: nat, c: nat)
    requires Legal(start, run) && PassSince(run, b) && c < |run| && UnderWay(run, c) && run[c].PromoteBegan?
    ensures PromoteForTaskView in run[b].flags && ResetSurface !in run[b].flags
  {
    hide Watch, Allowed, Legal, Recall;
    LegalAt(start, run, b);
    LegalAt(start, run, c);
    PromotionNeeds(Recall(start, run[..b]), run[b]);
    PromotionNeeds(Recall(start, run[..c]), run[c]);
    if c < b {
      assert UnderWay(run[..b], c);
      PromotionStays(start, run[..b], c);
    } else {
      assert b != c && PassSince(run[..c], b);
      PassIsWhatHappened(start, run[..c], b);
      UpkeepIsWhatHappened(start, run[..c], b);
    }
  }

  /** A pass that is not handed `PromoteForTaskView`, or is asked to reset the surface, shows the overlay
      only after presenting it in the same show. */
  lemma {:induction false} UnaskedShowsArePrepared(start: TaskbarIdentity, run: seq<Event>, b: nat, i: nat)
    requires Legal(start, run) && i < |run| && run[i].Shown? && PassSince(run[..i], b)
    requires PromoteForTaskView !in run[b].flags || ResetSurface in run[b].flags
    ensures Prepared(run[..i], run[i].hwnd)
  {
    hide Watch, Allowed, Legal, Recall, Prepared, IsVisible, VanishedSince, IsAlive, IsPresented;
    var w := run[i].hwnd;
    ShownOnlyAfterPresent(start, run, i);
    if !Prepared(run[..i], w) {
      var c :| 0 <= c < i && UnderWay(run[..i], c) && run[..i][c] == PromoteBegan(w);
      LegalAt(start, run, i);
      PromotionsAreAskedFor(start, run[..i], b, c);
    }
  }

  lemma ClearingNeedsHidden(h: History, e: Event)
    requires Allowed(h, e) && e.SurfaceCleared?
    ensures h.world.visible == {}
  {
  }

  /** The surface of the overlay is cleared only while nothing is on the screen. */
  lemma {:induction false} ClearedOutOfSight(start: TaskbarIdentity, run: seq<Event>, i: nat, w: Hwnd)
    requires Legal(start, run) && i < |run| && run[i].SurfaceCleared?
    ensures !IsVisible(run[..i], w)
  {
    hide Allowed, Watch, Legal, Recall, IsVisible, IsAlive, IsPresented;
    LegalAt(start, run, i);
    ClearingNeedsHidden(Recall(start, run[..i]), run[i]);
    WorldIsWhatHappened(start, run[..i], w);
  }

  // ---------------------------------------------------------------- how a show ends

  ghost function Misses(): Event -> bool { (e: Event) => e.FrameMissed? }

  ghost function Refuses(): Event -> bool { (e: Event) => e == StyleTried(false) || e == HideTried(false) }

  ghost function Answers(ok: bool): Event -> bool { (e: Event) => e == ShowCalled(ok) }

  ghost function Bounds(): Event -> bool { (e: Event) => Boundary(e) }

  /** The events a show remembers, and those that begin or end a call. */
  lemma EffortEvents(e: Event)
    ensures Misses()(e) <==> e.FrameMissed?
    ensures Refuses()(e) <==> (e.StyleTried? && !e.ok) || (e.HideTried? && !e.ok)
    ensures forall ok :: Answers(ok)(e) <==> e.ShowCalled? && e.ok == ok
    ensures Bounds()(e) <==> e.PrepareBegan? || e.PrepareEnded? || e.PromoteBegan? || e.PromoteEnded?
  {
  }

  lemma EffortStep(call: Call, e: Event)
    requires call.Preparing? && !Bounds()(e)
    ensures var after := WatchCall(call, e);
            && after.Preparing? && (after.missed <==> e.FrameMissed? || call.missed)
            && (after.refused <==> (e.StyleTried? && !e.ok) || (e.HideTried? && !e.ok) || call.refused)
            && after.verdict == if e.ShowCalled? then (if e.ok then Worked else Failed) else call.verdict
  {
  }

  lemma CallBegins(call: Call, e: Event)
    requires WatchCall(call, e).Preparing? && (Bounds()(e) || !call.Preparing?)
    ensures Bounds()(e) && e.PrepareBegan? && WatchCall(call, e) == Begun(e.hwnd, e.reset)
  {
  }

  /** What a show under way remembers of its calls has happened since it began. */
  lemma {:induction false} EffortIsWhatHappened(start: TaskbarIdentity, run: seq<Event>)
    ensures var call := Recall(start, run).call;
            call.Preparing? ==>
              && (call.missed ==> Holds(run, Misses(), Bounds()))
              && (call.refused ==> Holds(run, Refuses(), Bounds()))
              && (call.verdict.Failed? ==> Holds(run, Answers(false), Bounds()))
              && (call.verdict.Worked? ==> Holds(run, Answers(true), Bounds()))
  {
    hide Holds, Watch, WatchCall, Misses, Refuses, Answers, Bounds;
    HoldsStep(run, Misses(), Bounds());
    HoldsStep(run, Refuses(), Bounds());
    HoldsStep(run, Answers(false), Bounds());
    HoldsStep(run, Answers(true), Bounds());
    if |run| > 0 {
      EffortIsWhatHappened(start, run[..|run| - 1]);
      var h, e := Recall(start, run[..|run| - 1]), run[|run| - 1];
      CallIsWatched(h, e);
      EffortEvents(e);
      if h.call.Preparing? && !Bounds()(e) {
        EffortStep(h.call, e);
      } else if WatchCall(h.call, e).Preparing? {
        CallBegins(h.call, e);
      }
    }
  }

  lemma EndNeedsReason(h: History, e: Event)
    requires Allowed(h, e) && e.PrepareEnded?
    ensures h.call.Preparing? && ShowMayEnd(h, e.shown)
  {
  }

  /** The show of `w` that is under way may end like this: shown if the call that shows it worked and it is
      visible; else for a refused hide or style, a frame that was missed, a failure of that call, a window
      that is gone, or one that was hidden after all. */
  ghost predicate EndsLike(run: seq<Event>, w: Hwnd, shown: bool) {
    if shown then Holds(run, Answers(true), Bounds()) && IsVisible(run, w)
    else
      || Holds(run, Refuses(), Bounds()) || Holds(run, Misses(), Bounds()) || Holds(run, Answers(false), Bounds())
      || !IsAlive(run, w) || (Holds(run, Answers(true), Bounds()) && !IsVisible(run, w))
  }

  /** A show ends for a reason, whichever way it ends. */
  lemma {:induction false} ShowEndsForAReason(start: TaskbarIdentity, run: seq<Event>, i: nat)
    requires Legal(start, run) && i < |run| && run[i].PrepareEnded?
    ensures exists b :: 0 <= b < i && UnderWay(run[..i], b) && run[b].PrepareBegan?
                        && EndsLike(run[..i], run[b].hwnd, run[i].shown)
  {
    hide Holds, Allowed, Watch, Legal, Recall, UnderWay, IsAlive, IsVisible, IsPresented;
    LegalAt(start, run, i);
    EndNeedsReason(Recall(start, run[..i]), run[i]);
    EffortIsWhatHappened(start, run[..i]);
    var b := ShowBegan(start, run[..i]);
    WorldIsWhatHappened(start, run[..i], run[b].hwnd);
  }

  lemma ShowBegan(start: TaskbarIdentity, run: seq<Event>) returns (b: nat)
    requires Legal(start, run) && Recall(start, run).call.Preparing?
    ensures b < |run| && UnderWay(run, b) && run[b].PrepareBegan? && run[b].hwnd == Recall(start, run).call.hwnd
  {
    hide Legal, Recall, StyledSince, PlacedSince, ClearedSince, PresentedSince;
    CallsAreWhatHappened(start, run);
    var call := Recall(start, run).call;
    b :| b < |run| && UnderWay(run, b) && run[b] == PrepareBegan(call.hwnd, call.reset);
  }
}
