/** Requests reach a pass, passes do not nest, and work that must be done is not forgotten. */
module WorkIsServed {
  import opened OverlayPolicy
  import opened OverlayProtocol
  import opened OverlayRuns

  ghost function Asks(f: Flag): Event -> bool { (e: Event) => e.Requested? && f in e.flags }

  ghost function Hands(f: Flag): Event -> bool { (e: Event) => e.PassBegan? && f in e.flags }

  ghost function Begins(): Event -> bool { (e: Event) => e.PassBegan? }

  ghost function Ends(): Event -> bool { (e: Event) => e.PassEnded? }

  lemma MailStep(h: History, e: Event, f: Flag)
    ensures var after := Watch(h, e).mail;
            && (f in after.outstanding <==> Asks(f)(e) || (f in h.mail.outstanding && !Hands(f)(e)))
            && (f in after.requested <==> Asks(f)(e) || f in h.mail.requested)
  {
    hide WatchOwed, WatchWorld, WatchMind, WatchPace, WatchFaults, WatchCall, WatchPass;
  }

  lemma {:induction false} MailIsWhatHappened(start: TaskbarIdentity, run: seq<Event>, f: Flag)
    ensures var mail := Recall(start, run).mail;
            && (f in mail.outstanding <==> Holds(run, Asks(f), Hands(f)))
            && (f in mail.requested <==> exists i :: 0 <= i < |run| && Asks(f)(run[i]))
  {
    hide Watch, Holds, Asks, Hands;
    HoldsStep(run, Asks(f), Hands(f));
    if |run| > 0 {
      var n := |run| - 1;
      MailIsWhatHappened(start, run[..n], f);
      MailStep(Recall(start, run[..n]), run[n], f);
      if f in Recall(start, run[..n]).mail.requested {
        var i :| 0 <= i < n && Asks(f)(run[..n][i]);
        assert Asks(f)(run[i]);
      }
      if f in Recall(start, run).mail.requested && f !in Recall(start, run[..n]).mail.requested {
        assert Asks(f)(run[n]);
      }
      if i :| 0 <= i < |run| && Asks(f)(run[i]) {
        assert i < n ==> run[..n][i] == run[i];
      }
    }
  }

  /** A request either reaches a later pass or is still outstanding. */
  lemma {:induction false} RequestsAreDelivered(start: TaskbarIdentity, run: seq<Event>, i: nat, f: Flag)
    requires i < |run| && run[i].Requested? && f in run[i].flags
    ensures || f in Recall(start, run).mail.outstanding
            || exists j :: i < j < |run| && run[j].PassBegan? && f in run[j].flags
  {
    MailIsWhatHappened(start, run, f);
    if !Holds(run, Asks(f), Hands(f)) {
      assert !HoldsFrom(run, i, Asks(f), Hands(f));
    }
  }

  lemma PassNeeds(h: History, e: Event)
    requires Allowed(h, e) && e.PassBegan?
    ensures h.pass.NoPass? && e.flags <= h.mail.requested
  {
  }

  /** A pass receives only what has been requested. */
  lemma {:induction false} NothingIsInvented(start: TaskbarIdentity, run: seq<Event>, j: nat, f: Flag)
    requires Legal(start, run) && j < |run| && run[j].PassBegan? && f in run[j].flags
    ensures exists i :: 0 <= i < j && run[i].Requested? && f in run[i].flags
  {
    hide Allowed, Watch, Legal, Recall;
    LegalAt(start, run, j);
    PassNeeds(Recall(start, run[..j]), run[j]);
    MailIsWhatHappened(start, run[..j], f);
    var i :| 0 <= i < j && Asks(f)(run[..j][i]);
    assert run[i].Requested?;
  }

  lemma {:induction false} PassIsRunning(start: TaskbarIdentity, run: seq<Event>)
    ensures Recall(start, run).pass.Running? <==> Holds(run, Begins(), Ends())
  {
    HoldsStep(run, Begins(), Ends());
    if |run| > 0 {
      PassIsRunning(start, run[..|run| - 1]);
      var before := Recall(start, run[..|run| - 1]);
      PassRunsOn(before.pass, before.owed, before.mind, run[|run| - 1]);
    }
  }

  lemma PassRunsOn(pass: Pass, owed: set<Flag>, mind: Mind, e: Event)
    ensures WatchPass(pass, owed, mind, e).Running? <==> e.PassBegan? || (pass.Running? && !e.PassEnded?)
  {
    hide WatchTodo, WatchDone, WatchView, WatchLife, WatchShow, WatchUpkeep;
  }

  /** Between the beginnings of two passes, one ends. */
  lemma {:induction false} PassesDoNotNest(start: TaskbarIdentity, run: seq<Event>, i: nat, j: nat)
    requires Legal(start, run) && i < j < |run| && run[i].PassBegan? && run[j].PassBegan?
    ensures exists k :: i < k < j && run[k].PassEnded?
  {
    hide Allowed, Watch, Legal, Recall;
    LegalAt(start, run, j);
    PassNeeds(Recall(start, run[..j]), run[j]);
    PassIsRunning(start, run[..j]);
    assert !HoldsFrom(run[..j], i, Begins(), Ends());
    var k :| i < k < j && Ends()(run[..j][k]);
    assert run[k].PassEnded?;
  }

  /** The end of a pass that is over. */
  lemma PassEndedAt(start: TaskbarIdentity, run: seq<Event>, b: nat, k: nat) returns (e: nat)
    requires Legal(start, run) && b < k < |run| && run[b].PassBegan? && run[k].PassEnded?
    ensures b < e <= k && run[e].PassEnded? && PassSince(run[..e], b)
    decreases k
  {
    hide Legal;
    if x :| b < x < k && run[x].PassEnded? {
      e := PassEndedAt(start, run, b, x);
    } else {
      e := k;
      if y :| b < y < k && run[y].PassBegan? {
        PassesDoNotNest(start, run, b, y);
        assert false;
      }
    }
  }

  // ---------------------------------------------------------------- durable work

  /** The event makes `f` owed. */
  ghost predicate Incurs(e: Event, f: Flag) {
    (e.PassBegan? && f in e.flags && f in DURABLE) || (e.TornDown? && f.RefreshTrayIcon?)
  }

  /** The event acts on `f`: the tray icon is refreshed, the style is set by a pass that has made
      its decisions, or a show that clears the surface is begun. */
  ghost predicate ActsOn(start: TaskbarIdentity, run: seq<Event>, j: nat, f: Flag)
    requires j < |run|
  {
    match f
    case RefreshTrayIcon => run[j].TrayRefreshed?
    case ApplyStyle => run[j] == StyleTried(true) && Recall(start, run[..j]).pass.Running?
      && Recall(start, run[..j]).pass.view.decided
    case ResetSurface => run[j].PrepareBegan? && run[j].reset
    case _ => false
  }

  ghost predicate Unserved(start: TaskbarIdentity, run: seq<Event>, i: nat, f: Flag)
    requires i < |run|
  {
    Incurs(run[i], f) && forall j :: i < j < |run| ==> !ActsOn(start, run, j, f)
  }

  lemma OwedStep(start: TaskbarIdentity, run: seq<Event>, f: Flag)
    requires |run| > 0 && Legal(start, run)
    ensures var n := |run| - 1;
            f in Recall(start, run).owed <==>
              Incurs(run[n], f) || (f in Recall(start, run[..n]).owed && !ActsOn(start, run, n, f))
  {
    hide Legal, WatchMail, WatchWorld, WatchMind, WatchPace, WatchCall, WatchPass, WatchFaults;
    var n := |run| - 1;
    OwedAreDurable(start, run[..n]);
  }

  lemma {:induction false} OwedAreDurable(start: TaskbarIdentity, run: seq<Event>)
    ensures Recall(start, run).owed <= DURABLE
  {
    hide WatchMail, WatchWorld, WatchMind, WatchPace, WatchCall, WatchPass, WatchFaults;
    if |run| > 0 {
      OwedAreDurable(start, run[..|run| - 1]);
    }
  }

  /** Durable work is not lost: what is owed is exactly what was received by a pass, or caused by a
      teardown, and has not been acted on since. */
  lemma {:induction false} OwedIsWhatIsUnserved(start: TaskbarIdentity, run: seq<Event>, f: Flag)
    requires Legal(start, run)
    ensures f in Recall(start, run).owed <==> exists i :: 0 <= i < |run| && Unserved(start, run, i, f)
  {
    if |run| > 0 {
      OwedIsWhatIsUnserved(start, run[..|run| - 1], f);
      OwedStep(start, run, f);
      UnservedStep(start, run, f);
    }
  }

  lemma UnservedStep(start: TaskbarIdentity, run: seq<Event>, f: Flag)
    requires |run| > 0
    ensures var n := |run| - 1;
            (exists i :: 0 <= i < |run| && Unserved(start, run, i, f)) <==>
            Incurs(run[n], f) || ((exists i :: 0 <= i < n && Unserved(start, run[..n], i, f))
                                  && !ActsOn(start, run, n, f))
  {
    hide ActsOn, Incurs;
    var n := |run| - 1;
    forall j | 0 <= j < n ensures ActsOn(start, run[..n], j, f) == ActsOn(start, run, j, f) {
      SameAction(start, run, j, f);
    }
    if i :| 0 <= i < |run| && Unserved(start, run, i, f) {
      assert i < n ==> Unserved(start, run[..n], i, f) && !ActsOn(start, run, n, f);
    }
    if i :| 0 <= i < n && Unserved(start, run[..n], i, f) && !ActsOn(start, run, n, f) {
      assert Unserved(start, run, i, f);
    }
    if Incurs(run[n], f) {
      assert Unserved(start, run, n, f);
    }
  }

  lemma SameAction(start: TaskbarIdentity, run: seq<Event>, j: nat, f: Flag)
    requires j < |run| - 1
    ensures ActsOn(start, run[..|run| - 1], j, f) == ActsOn(start, run, j, f)
  {
    assert run[..|run| - 1][..j] == run[..j];
  }

  // ---------------------------------------------------------------- what a pass knows

  /** What counts as serving a request within a pass. */
  ghost predicate Serves(e: Event, f: Flag) {
    match f
    case SampleMetrics => e.MetricsSampled?
    case SampleKeys => false
    case Reposition => e.Placed?
    case Render => e.RenderTried?
    case ResetSurface => e.PrepareBegan? && e.reset
    case RefreshTrayIcon => e.TrayRefreshed?
    case ApplyStyle => e == StyleTried(true)
    case PromoteForTaskView => e.PromoteMoot? || e.PromoteEnded?
  }

  ghost predicate ServedSince(run: seq<Event>, i: nat, f: Flag) {
    exists k :: i < k < |run| && Serves(run[k], f)
  }

  /** The pass that began at `i` is still running. */
  ghost predicate PassSince(run: seq<Event>, i: nat) {
    i < |run| && run[i].PassBegan? && forall k :: i < k < |run| ==> !run[k].PassBegan? && !run[k].PassEnded?
  }

  lemma BeginsAt(run: seq<Event>, b: nat)
    requires PassSince(run, b)
    ensures b < |run| && run[b].PassBegan?
  {
  }

  /** The event that ends the run brought back a suppressed overlay. */
  ghost predicate Restores(start: TaskbarIdentity, run: seq<Event>, k: nat)
    requires k < |run|
  {
    run[k].SuppressionSeen? &&
    var step := SeeSuppression(Recall(start, run[..k]).mind, run[k]);
    step.committedChanged && step.state.committed.None?
  }

  ghost predicate CreatedSince(run: seq<Event>, i: nat) {
    exists k :: i < k < |run| && run[k].Created?
  }

  ghost predicate CommittedSince(start: TaskbarIdentity, run: seq<Event>, i: nat) {
    exists k :: i < k < |run| && CommitsIdentity(start, run, k)
  }

  ghost predicate RestoredSince(start: TaskbarIdentity, run: seq<Event>, i: nat) {
    exists k :: i < k < |run| && Restores(start, run, k)
  }

  /** A clear look at the foreground, and a decision that nothing is to be hidden. */
  ghost predicate LookedSince(run: seq<Event>, i: nat) {
    exists k :: i < k < |run| && run[k].ForegroundSeen?
  }

  /** What an event inside a pass does to the parts of its record. */
  lemma PassStep(pass: Pass, owed: set<Flag>, mind: Mind, e: Event)
    requires pass.Running? && !e.PassBegan? && !e.PassEnded?
    ensures WatchPass(pass, owed, mind, e)
            == Running(
                 pass.incoming, WatchTodo(pass.todo, e), WatchDone(pass.done, pass.view.decided, e),
                 WatchView(pass.view, mind, e), WatchLife(pass.life, e), WatchShow(pass.show, e),
                 WatchUpkeep(pass.upkeep, e))
  {
  }

  lemma DoneStep(done: set<Flag>, decided: bool, e: Event)
    ensures forall f :: f in WatchDone(done, decided, e) ==> f in done || Serves(e, f)
  {
  }

  /** Work is added to a pass, but no promotion. */
  lemma TodoStep(todo: set<Flag>, e: Event)
    ensures todo <= WatchTodo(todo, e) && (PromoteForTaskView in WatchTodo(todo, e) ==> PromoteForTaskView in todo)
  {
  }

  lemma ViewStep(view: View, mind: Mind, e: Event)
    ensures var after := WatchView(view, mind, e);
            && (after.looked ==> view.looked || e.ForegroundSeen?)
            && (after.identityChanged ==>
                  view.identityChanged || (e.TaskbarSeen? && SeeTaskbar(mind, e).committedChanged))
            && (after.restored ==>
                  view.restored || (e.SuppressionSeen? && SeeSuppression(mind, e).committedChanged
                                    && SeeSuppression(mind, e).state.committed.None?))
  {
    hide SeeTaskbar, SeeSuppression;
  }

  lemma PassStarts(h: History, e: Event)
    requires e.PassBegan?
    ensures Watch(h, e).pass == Running(e.flags, e.flags + h.owed, {}, UNSEEN, UNTOUCHED, NoShow, NoUpkeep)
  {
  }

  /** What the pass under way believes of itself is what has happened since it began. */
  lemma {:induction false} PassIsWhatHappened(start: TaskbarIdentity, run: seq<Event>, i: nat)
    requires PassSince(run, i)
    ensures var pass := Recall(start, run).pass;
            && pass.Running? && pass.incoming == run[i].flags && run[i].flags <= pass.todo
            && (PromoteForTaskView in pass.todo ==> PromoteForTaskView in run[i].flags)
            && (forall f :: f in pass.done ==> ServedSince(run, i, f))
            && (pass.life.created ==> CreatedSince(run, i))
            && (pass.view.identityChanged ==> CommittedSince(start, run, i))
            && (pass.view.restored ==> RestoredSince(start, run, i))
            && (pass.view.looked ==> LookedSince(run, i))
  {
    hide WatchPass, WatchTodo, WatchDone, WatchView, WatchShow, WatchUpkeep, WatchOwed;
    hide CreatedSince, CommittedSince, RestoredSince, LookedSince, ServedSince;
    var n := |run| - 1;
    var past := run[..n];
    var before := Recall(start, past);
    if i < n {
      assert PassSince(past, i);
      PassIsWhatHappened(start, past, i);
      PassStep(before.pass, before.owed, before.mind, run[n]);
      DoneStep(before.pass.done, before.pass.view.decided, run[n]);
      TodoStep(before.pass.todo, run[n]);
      ViewStep(before.pass.view, before.mind, run[n]);
      SinceIsKept(start, run, i);
    } else {
      PassStarts(before, run[n]);
      OwedAreDurable(start, past);
    }
  }

  lemma SinceIsKept(start: TaskbarIdentity, run: seq<Event>, i: nat)
    requires i < |run| - 1
    ensures var n := |run| - 1;
            && (forall f :: ServedSince(run[..n], i, f) || Serves(run[n], f) ==> ServedSince(run, i, f))
            && (CreatedSince(run[..n], i) || run[n].Created? ==> CreatedSince(run, i))
            && (LookedSince(run[..n], i) || run[n].ForegroundSeen? ==> LookedSince(run, i))
            && (CommittedSince(start, run[..n], i) || CommitsIdentity(start, run, n) ==> CommittedSince(start, run, i))
            && (RestoredSince(start, run[..n], i) || Restores(start, run, n) ==> RestoredSince(start, run, i))
  {
    hide Serves, CommitsIdentity, Restores;
    var n := |run| - 1;
    forall f | ServedSince(run[..n], i, f) ensures ServedSince(run, i, f) {
      var k :| i < k < n && Serves(run[..n][k], f);
      assert Serves(run[k], f);
    }
    if CreatedSince(run[..n], i) {
      var k :| i < k < n && run[..n][k].Created?;
      assert run[k].Created?;
    }
    if LookedSince(run[..n], i) {
      var k :| i < k < n && run[..n][k].ForegroundSeen?;
      assert run[k].ForegroundSeen?;
    }
    if CommittedSince(start, run[..n], i) {
      var k :| i < k < n && CommitsIdentity(start, run[..n], k);
      SameCommit(start, run, k);
    }
    if RestoredSince(start, run[..n], i) {
      var k :| i < k < n && Restores(start, run[..n], k);
      SameRestore(start, run, k);
    }
  }

  lemma SameRestore(start: TaskbarIdentity, run: seq<Event>, k: nat)
    requires k < |run| - 1
    ensures Restores(start, run[..|run| - 1], k) == Restores(start, run, k)
  {
    assert run[..|run| - 1][..k] == run[..k];
  }

  /** What a running pass owes to the pass that began at some step. */
  lemma {:induction false} PassBeganAt(start: TaskbarIdentity, run: seq<Event>) returns (i: nat)
    requires Recall(start, run).pass.Running?
    ensures PassSince(run, i)
  {
    PassIsRunning(start, run);
    i :| i < |run| && HoldsFrom(run, i, Begins(), Ends());
    var p := i;
    LatestBegin(run, i);
    i :| p <= i < |run| && PassSince(run, i);
  }

  lemma {:induction false} LatestBegin(run: seq<Event>, p: nat)
    requires p < |run| && HoldsFrom(run, p, Begins(), Ends())
    ensures exists i :: p <= i < |run| && PassSince(run, i)
    decreases |run| - p
  {
    if k :| p < k < |run| && run[k].PassBegan? {
      LatestBegin(run, k);
    } else {
      assert forall k :: p < k < |run| ==> !Ends()(run[k]);
      assert PassSince(run, p);
    }
  }

  lemma SteadyMeansDone(h: History, e: Event, at: nat)
    requires Allowed(h, e) && e == PassEnded(Steady(at))
    ensures h.pass.Running? && h.pass.todo - {SampleKeys} <= h.pass.done
  {
  }

  /** A pass that runs to its end without showing anything has served every request it received
      but key sampling, which only some configurations do. */
  lemma {:induction false} SteadyPassServesAll(start: TaskbarIdentity, run: seq<Event>, i: nat, j: nat, f: Flag,
                                               at: nat)
    requires Legal(start, run) && i < j < |run| && PassSince(run[..j], i) && run[j] == PassEnded(Steady(at))
    requires f in run[i].flags && f != SampleKeys
    ensures exists k :: i < k < j && Serves(run[k], f)
  {
    hide Allowed, Serves, PassSince;
    LegalAt(start, run, j);
    SteadyMeansDone(Recall(start, run[..j]), run[j], at);
    PassIsWhatHappened(start, run[..j], i);
    assert f in Recall(start, run[..j]).pass.done;
    var k :| i < k < j && Serves(run[..j][k], f);
    assert Serves(run[k], f);
  }
}
