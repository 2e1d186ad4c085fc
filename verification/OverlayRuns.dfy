/** What every legal run of the overlay reconciler is worth, said about the events themselves. */
module OverlayRuns {
  import opened OverlayPolicy
  import opened OverlayProtocol

  lemma LastStep(start: TaskbarIdentity, run: seq<Event>)
    requires Legal(start, run) && |run| > 0
    ensures var before := run[..|run| - 1];
            && Legal(start, before)
            && Allowed(Recall(start, before), run[|run| - 1])
            && Recall(start, run) == Watch(Recall(start, before), run[|run| - 1])
  {
  }

  /** An event of kind `on` has happened, and none of kind `off` since. */
  ghost predicate Holds(run: seq<Event>, on: Event -> bool, off: Event -> bool) {
    exists p :: 0 <= p < |run| && HoldsFrom(run, p, on, off)
  }

  ghost predicate HoldsFrom(run: seq<Event>, p: nat, on: Event -> bool, off: Event -> bool)
    requires p < |run|
  {
    on(run[p]) && forall k :: p < k < |run| ==> !off(run[k])
  }

  lemma HoldsStep(run: seq<Event>, on: Event -> bool, off: Event -> bool)
    ensures var n := |run| - 1;
            Holds(run, on, off) <==> n >= 0 && (on(run[n]) || (Holds(run[..n], on, off) && !off(run[n])))
  {
    var n := |run| - 1;
    if n < 0 {
      return;
    }
    if Holds(run, on, off) && !on(run[n]) {
      var p :| 0 <= p < |run| && HoldsFrom(run, p, on, off);
      assert HoldsFrom(run[..n], p, on, off);
    }
    if on(run[n]) {
      assert HoldsFrom(run, n, on, off);
    } else if Holds(run[..n], on, off) && !off(run[n]) {
      var p :| 0 <= p < n && HoldsFrom(run[..n], p, on, off);
      assert HoldsFrom(run, p, on, off);
    }
  }

  ghost function Creates(w: Hwnd): Event -> bool { (e: Event) => e.Created? && e.hwnd == w }

  ghost function Destroys(w: Hwnd): Event -> bool { (e: Event) => e == Destroyed(w) }

  ghost function Renews(w: Hwnd): Event -> bool { (e: Event) => e == Destroyed(w) || (e.Created? && e.hwnd == w) }

  ghost function Shows(w: Hwnd): Event -> bool { (e: Event) => e == Shown(w) }

  ghost function Hides(w: Hwnd): Event -> bool { (e: Event) => e == Vanished(w) || e == Destroyed(w)
                                                || (e.Created? && e.hwnd == w) }

  ghost function Presents(w: Hwnd): Event -> bool { (e: Event) => e == Presented(w) }

  /** The window exists: created, and not destroyed since. */
  ghost predicate IsAlive(run: seq<Event>, w: Hwnd) {
    Holds(run, Creates(w), Destroys(w))
  }

  /** The window is on the screen: shown, and neither hidden nor destroyed since. */
  ghost predicate IsVisible(run: seq<Event>, w: Hwnd) {
    Holds(run, Shows(w), Hides(w))
  }

  /** The window has been presented since it was created. */
  ghost predicate IsPresented(run: seq<Event>, w: Hwnd) {
    Holds(run, Presents(w), Renews(w))
  }

  lemma WorldStep(world: World, mind: Mind, e: Event)
    ensures var after := WatchWorld(world, mind, e);
            && after.alive == (if e.Created? then world.alive + {e.hwnd}
                               else if e.Destroyed? then world.alive - {e.hwnd} else world.alive)
            && after.visible == (if e.Created? || e.Destroyed? || e.Vanished? then world.visible - {e.hwnd}
                                 else if e.Shown? then world.visible + {e.hwnd} else world.visible)
            && after.presented == (if e.Created? || e.Destroyed? then world.presented - {e.hwnd}
                                   else if e.Presented? then world.presented + {e.hwnd} else world.presented)
  {
    hide SeeTaskbar;
  }

  /** The kinds of event that begin and end the life, the sight and the presentation of a window. */
  lemma WindowEvents(e: Event, w: Hwnd)
    ensures Creates(w)(e) <==> e.Created? && e.hwnd == w
    ensures Destroys(w)(e) <==> e.Destroyed? && e.hwnd == w
    ensures Shows(w)(e) <==> e.Shown? && e.hwnd == w
    ensures Presents(w)(e) <==> e.Presented? && e.hwnd == w
    ensures Hides(w)(e) <==> (e.Vanished? || e.Destroyed? || e.Created?) && e.hwnd == w
    ensures Renews(w)(e) <==> (e.Destroyed? || e.Created?) && e.hwnd == w
  {
  }

  lemma WindowStep(world: World, mind: Mind, e: Event, w: Hwnd)
    ensures var after := WatchWorld(world, mind, e);
            && (w in after.alive <==> Creates(w)(e) || (w in world.alive && !Destroys(w)(e)))
            && (w in after.visible <==> Shows(w)(e) || (w in world.visible && !Hides(w)(e)))
            && (w in after.presented <==> Presents(w)(e) || (w in world.presented && !Renews(w)(e)))
  {
    WorldStep(world, mind, e);
    WindowEvents(e, w);
    hide WatchWorld, Creates, Destroys, Shows, Presents, Hides, Renews;
  }

  /** The summary of a run says exactly which windows exist, are visible and have been presented. */
  lemma {:induction false} WorldIsWhatHappened(start: TaskbarIdentity, run: seq<Event>, w: Hwnd)
    ensures var world := Recall(start, run).world;
            && (w in world.alive <==> IsAlive(run, w))
            && (w in world.visible <==> IsVisible(run, w))
            && (w in world.presented <==> IsPresented(run, w))
  {
    hide Holds, WatchWorld, Creates, Destroys, Shows, Hides, Presents, Renews;
    HoldsStep(run, Creates(w), Destroys(w));
    HoldsStep(run, Shows(w), Hides(w));
    HoldsStep(run, Presents(w), Renews(w));
    if |run| > 0 {
      var n := |run| - 1;
      WorldIsWhatHappened(start, run[..n], w);
      WindowStep(Recall(start, run[..n]).world, Recall(start, run[..n]).mind, run[n], w);
    }
  }

  /** A visible overlay exists, and has been presented in its own lifetime. */
  lemma {:induction false} VisibleWasPresented(start: TaskbarIdentity, run: seq<Event>, w: Hwnd)
    requires Legal(start, run) && IsVisible(run, w)
    ensures IsAlive(run, w) && IsPresented(run, w)
  {
    VisibleIsPresented(start, run);
    WorldIsWhatHappened(start, run, w);
  }

  lemma SightNeeds(h: History, e: Event)
    requires Allowed(h, e)
    ensures e.Shown? ==> e.hwnd in h.world.presented
    ensures e.Presented? ==> e.hwnd in h.world.alive
  {
  }

  lemma PaceIsWatched(h: History, e: Event)
    ensures Watch(h, e).pace == WatchPace(h.pace, h.mind, e)
  {
  }

  lemma MindIsWatched(h: History, e: Event)
    ensures Watch(h, e).mind == WatchMind(h.mind, e)
  {
  }

  lemma WorldIsWatched(h: History, e: Event)
    ensures Watch(h, e).world == WatchWorld(h.world, h.mind, e)
  {
  }

  lemma {:induction false} VisibleIsPresented(start: TaskbarIdentity, run: seq<Event>)
    requires Legal(start, run)
    ensures var world := Recall(start, run).world;
            world.visible <= world.presented <= world.alive
  {
    hide Watch, Allowed;
    if |run| > 0 {
      var n := |run| - 1;
      LastStep(start, run);
      VisibleIsPresented(start, run[..n]);
      var before := Recall(start, run[..n]);
      SightNeeds(before, run[n]);
      WorldIsWatched(before, run[n]);
      WorldStep(before.world, before.mind, run[n]);
    }
  }

  // ---------------------------------------------------------------- one overlay

  /** At most one overlay exists: creations less destructions is 0 or 1, and is the number of live overlays. */
  lemma {:induction false} OneOverlay(start: TaskbarIdentity, run: seq<Event>)
    requires Legal(start, run)
    ensures var world := Recall(start, run).world;
            |world.alive| == world.created - world.destroyed <= 1
  {
    hide Watch, Allowed;
    if |run| > 0 {
      var n := |run| - 1;
      LastStep(start, run);
      OneOverlay(start, run[..n]);
      CountStep(Recall(start, run[..n]), run[n], Recall(start, run));
    }
  }

  lemma LifeNeeds(h: History, e: Event)
    requires Allowed(h, e)
    ensures e.Created? ==> h.world.alive == {}
    ensures e.Destroyed? ==> e.hwnd in h.world.alive
  {
  }

  lemma CountStep(before: History, e: Event, now: History)
    requires Allowed(before, e) && now == Watch(before, e)
    requires |before.world.alive| == before.world.created - before.world.destroyed <= 1
    ensures |now.world.alive| == now.world.created - now.world.destroyed <= 1
  {
    LifeNeeds(before, e);
    hide Allowed, WatchMail, WatchOwed, WatchMind, WatchPace, WatchFaults, WatchPass, WatchCall, SeeTaskbar;
    match e {
      case Created(w, _) =>
        assert now.world.alive == {w};
      case Destroyed(w) =>
        assert |before.world.alive - {w}| == |before.world.alive| - 1;
      case _ =>
    }
  }

  lemma OnlyElement<T>(s: set<T>, a: T, b: T)
    requires |s| <= 1 && a in s && b in s
    ensures a == b
  {
    assert |s - {a}| == |s| - 1;
    assert s - {a} == {};
  }

  lemma {:induction false} OverlaysAreUnique(start: TaskbarIdentity, run: seq<Event>, v: Hwnd, w: Hwnd)
    requires Legal(start, run) && IsAlive(run, v) && IsAlive(run, w)
    ensures v == w
  {
    OneOverlay(start, run);
    WorldIsWhatHappened(start, run, v);
    WorldIsWhatHappened(start, run, w);
    OnlyElement(Recall(start, run).world.alive, v, w);
  }

  /** The look at the taskbar that ends the run committed a new identity. */
  ghost predicate CommitsIdentity(start: TaskbarIdentity, run: seq<Event>, k: nat)
    requires k < |run|
  {
    run[k].TaskbarSeen? && SeeTaskbar(Recall(start, run[..k]).mind, run[k]).committedChanged
  }

  /** The overlay `w` was created for the taskbar that is committed now. */
  ghost predicate OfThisTaskbar(start: TaskbarIdentity, run: seq<Event>, w: Hwnd) {
    exists c :: 0 <= c < |run| && CreatedForLatest(start, run, c, w)
  }

  ghost predicate CreatedForLatest(start: TaskbarIdentity, run: seq<Event>, c: nat, w: Hwnd)
    requires c < |run|
  {
    && run[c] == Created(w, Recall(start, run).mind.identity.committed.hwnd)
    && (forall k :: c < k < |run| ==> run[k] != Destroyed(w))
    && (forall k :: c < k < |run| ==> !CommitsIdentity(start, run, k))
  }

  lemma CurrentStep(before: History, e: Event, now: History)
    requires Allowed(before, e) && now == Watch(before, e)
    ensures if e.Created? then before.world.alive == {} && now.world.alive == {e.hwnd}
                               && e.owner == now.mind.identity.committed.hwnd
            else now.world.alive <= before.world.alive && (now.world.current ==> before.world.current)
    ensures e.TaskbarSeen? && SeeTaskbar(before.mind, e).committedChanged ==> !now.world.current
    ensures !(e.TaskbarSeen? && SeeTaskbar(before.mind, e).committedChanged) ==>
              now.mind.identity.committed == before.mind.identity.committed
    ensures now.world.alive != {} ==> !e.Destroyed? || e.hwnd !in now.world.alive
  {
    hide WatchMail, WatchOwed, WatchPace, WatchFaults, WatchPass, WatchCall, SeeSuppression;
    hide Open, MayShow, MayEnd, NotExposed, Forced, ReadyToPresent;
  }

  /** An overlay that is marked as current was created for the committed taskbar. */
  lemma {:induction false} CurrentIsOfThisTaskbar(start: TaskbarIdentity, run: seq<Event>, w: Hwnd)
    requires Legal(start, run) && w in Recall(start, run).world.alive && Recall(start, run).world.current
    ensures OfThisTaskbar(start, run, w)
  {
    hide Watch, Allowed;
    if |run| > 0 {
      var n := |run| - 1;
      LastStep(start, run);
      CurrentStep(Recall(start, run[..n]), run[n], Recall(start, run));
      if run[n].Created? {
        assert CreatedForLatest(start, run, n, w);
      } else {
        CurrentIsOfThisTaskbar(start, run[..n], w);
        var c :| 0 <= c < n && CreatedForLatest(start, run[..n], c, w);
        forall k | c < k < |run| ensures !CommitsIdentity(start, run, k) {
          if k < n {
            assert run[..n][..k] == run[..k];
            assert !CommitsIdentity(start, run[..n], k);
          }
        }
        assert CreatedForLatest(start, run, c, w);
      }
    }
  }

  /** Another taskbar was committed, and no overlay has been torn down for it since. */
  ghost predicate ReplacementPending(start: TaskbarIdentity, run: seq<Event>) {
    exists k :: 0 <= k < |run| && UnansweredCommit(start, run, k)
  }

  ghost predicate UnansweredCommit(start: TaskbarIdentity, run: seq<Event>, k: nat)
    requires k < |run|
  {
    CommitsIdentity(start, run, k) && forall l :: k < l < |run| ==> !run[l].TornDown?
  }

  /** A commit is a commit in every longer run. */
  lemma SameCommit(start: TaskbarIdentity, run: seq<Event>, k: nat)
    requires k < |run| - 1
    ensures CommitsIdentity(start, run, k) <==> CommitsIdentity(start, run[..|run| - 1], k)
  {
    assert run[..|run| - 1][..k] == run[..k];
  }

  lemma RecreateStep(h: History, e: Event)
    ensures Watch(h, e).pace.recreate
            <==> (e.TaskbarSeen? && SeeTaskbar(h.mind, e).committedChanged) || (h.pace.recreate && !e.TornDown?)
    ensures Watch(h, e).world.current
            <==> e.Created? || (h.world.current && !(e.TaskbarSeen? && SeeTaskbar(h.mind, e).committedChanged))
  {
    hide SeeTaskbar, SeeSuppression, WatchMail, WatchOwed, WatchMind, WatchFaults, WatchPass, WatchCall;
  }

  lemma {:induction false} RecreateIsWhatHappened(start: TaskbarIdentity, run: seq<Event>)
    ensures Recall(start, run).pace.recreate <==> ReplacementPending(start, run)
  {
    hide Watch;
    if |run| > 0 {
      var n := |run| - 1;
      var before := Recall(start, run[..n]);
      RecreateStep(before, run[n]);
      RecreateIsWhatHappened(start, run[..n]);
      PendingGoesOn(start, run);
    }
  }

  lemma PendingGoesOn(start: TaskbarIdentity, run: seq<Event>)
    requires |run| > 0
    ensures var n := |run| - 1;
            ReplacementPending(start, run)
            <==> CommitsIdentity(start, run, n) || (ReplacementPending(start, run[..n]) && !run[n].TornDown?)
  {
    hide Recall, CommitsIdentity;
    var n := |run| - 1;
    forall k | 0 <= k < n ensures CommitsIdentity(start, run, k) <==> CommitsIdentity(start, run[..n], k) {
      SameCommit(start, run, k);
    }
    if CommitsIdentity(start, run, n) {
      assert UnansweredCommit(start, run, n);
    }
    if k :| 0 <= k < n && UnansweredCommit(start, run[..n], k) {
      assert !run[n].TornDown? ==> UnansweredCommit(start, run, k);
    }
    if k :| 0 <= k < n && UnansweredCommit(start, run, k) {
      assert forall l :: 0 <= l < n ==> run[..n][l] == run[l];
      assert UnansweredCommit(start, run[..n], k);
    }
  }

  lemma LifetimeNeeds(h: History, e: Event)
    requires Allowed(h, e)
    ensures e.TornDown? ==> h.world.alive == {}
    ensures e.Created? ==> !h.pace.recreate
  {
  }

  /** An overlay is younger than the committed taskbar exactly if it does not wait to be replaced. */
  lemma {:induction false} CurrentMeansKept(start: TaskbarIdentity, run: seq<Event>)
    requires Legal(start, run)
    ensures var h := Recall(start, run);
            h.world.alive != {} ==> (h.world.current <==> !h.pace.recreate)
  {
    hide Watch, Allowed;
    if |run| > 0 {
      var n := |run| - 1;
      var h, e := Recall(start, run[..n]), run[n];
      LastStep(start, run);
      CurrentMeansKept(start, run[..n]);
      LifetimeNeeds(h, e);
      RecreateStep(h, e);
      WorldIsWatched(h, e);
      WorldStep(h.world, h.mind, e);
      hide WatchWorld, SeeTaskbar;
    }
  }

  /** An overlay created for the committed taskbar, and not destroyed since, is marked as current. */
  lemma {:induction false} OfThisTaskbarIsCurrent(start: TaskbarIdentity, run: seq<Event>, c: nat, w: Hwnd)
    requires Legal(start, run) && c < |run| && CreatedForLatest(start, run, c, w)
    ensures Recall(start, run).world.current
  {
    hide Watch, Allowed, WatchWorld, SeeTaskbar;
    var n := |run| - 1;
    var h, e := Recall(start, run[..n]), run[n];
    LastStep(start, run);
    RecreateStep(h, e);
    if c < n {
      CreatedEarlier(start, run, c, w);
      OfThisTaskbarIsCurrent(start, run[..n], c, w);
      assert !CommitsIdentity(start, run, n);
    }
  }

  lemma CreatedEarlier(start: TaskbarIdentity, run: seq<Event>, c: nat, w: Hwnd)
    requires Legal(start, run) && c < |run| - 1 && CreatedForLatest(start, run, c, w)
    ensures CreatedForLatest(start, run[..|run| - 1], c, w)
  {
    hide Watch, Allowed, Legal, SeeTaskbar;
    var n := |run| - 1;
    LastStep(start, run);
    CurrentStep(Recall(start, run[..n]), run[n], Recall(start, run));
    assert !CommitsIdentity(start, run, n);
    forall k | c < k < n ensures !CommitsIdentity(start, run[..n], k) {
      SameCommit(start, run, k);
    }
  }

  /** The overlay that exists was created after the latest identity commit, for that very taskbar, if and only
      if no replacement is pending. */
  lemma {:induction false} OverlayIsOfThisTaskbar(start: TaskbarIdentity, run: seq<Event>, w: Hwnd)
    requires Legal(start, run) && IsAlive(run, w)
    ensures OfThisTaskbar(start, run, w) <==> !ReplacementPending(start, run)
  {
    hide Legal, Recall, IsAlive, ReplacementPending, CreatedForLatest;
    WorldIsWhatHappened(start, run, w);
    RecreateIsWhatHappened(start, run);
    CurrentMeansKept(start, run);
    if Recall(start, run).world.current {
      CurrentIsOfThisTaskbar(start, run, w);
    } else if OfThisTaskbar(start, run, w) {
      var c :| 0 <= c < |run| && CreatedForLatest(start, run, c, w);
      OfThisTaskbarIsCurrent(start, run, c, w);
    }
  }

  lemma UseNeedsCurrent(h: History, e: Event)
    requires Allowed(h, e) && (e.Presented? || e.Shown?)
    ensures e.hwnd in h.world.alive && h.world.current
  {
  }

  /** Only an overlay of the committed taskbar is ever presented or shown. */
  lemma {:induction false} OnlyTheCurrentOverlayIsUsed(start: TaskbarIdentity, run: seq<Event>, i: nat)
    requires Legal(start, run) && i < |run| && (run[i].Presented? || run[i].Shown?)
    ensures OfThisTaskbar(start, run[..i], run[i].hwnd)
  {
    hide Allowed, Watch, Legal, Recall, OfThisTaskbar;
    LegalAt(start, run, i);
    UseNeedsCurrent(Recall(start, run[..i]), run[i]);
    CurrentIsOfThisTaskbar(start, run[..i], run[i].hwnd);
  }
}
