/** Retries, repairs and owner binding keep their distance, in real time and across tick wrap-around. */
module OverlayPacing {
  import opened OverlayPolicy
  import opened Ticks
  import opened OverlayProtocol
  import opened OverlayRuns
  import opened WorkIsServed

  /** When the event happened, if it says so. */
  ghost function MomentOf(e: Event): Moment {
    match e
    case TaskbarSeen(_, at) => At(at)
    case TeardownTried(at) => At(at)
    case TeardownRefused(at) => At(at)
    case OwnerSet(at) => At(at)
    case ForegroundSeen(_, at) => At(at)
    case SuppressionSeen(_, at) => At(at)
    case ResumeFinished(at) => At(at)
    case ShowTried(at) => At(at)
    case ShowRefused(at) => At(at)
    case RepairBegan(at, _) => At(at)
    case _ => Never
  }

  lemma ClockStep(h: History, e: Event)
    requires Allowed(h, e)
    ensures h.pace.clock <= Watch(h, e).pace.clock
    ensures MomentOf(e).At? ==> h.pace.clock <= MomentOf(e).ms == Watch(h, e).pace.clock
  {
    hide WatchMail, WatchOwed, WatchWorld, WatchMind, WatchPass, WatchCall, WatchFaults, SeeTaskbar;
    hide Open, MayShow, MayEnd, NotExposed, Forced, ReadyToPresent;
  }

  lemma {:induction false} ClockIsLatest(start: TaskbarIdentity, run: seq<Event>, i: nat)
    requires Legal(start, run) && i < |run| && MomentOf(run[i]).At?
    ensures MomentOf(run[i]).ms <= Recall(start, run).pace.clock
  {
    hide Watch, Allowed;
    var n := |run| - 1;
    LastStep(start, run);
    ClockStep(Recall(start, run[..n]), run[n]);
    if i < n {
      ClockIsLatest(start, run[..n], i);
    }
  }

  /** The recorded times of a run never go back. */
  lemma {:induction false} TimeNeverGoesBack(start: TaskbarIdentity, run: seq<Event>, i: nat, j: nat)
    requires Legal(start, run) && i < j < |run| && MomentOf(run[i]).At? && MomentOf(run[j]).At?
    ensures MomentOf(run[i]).ms <= MomentOf(run[j]).ms
  {
    hide Watch, Allowed;
    LegalAt(start, run, j);
    ClockIsLatest(start, run[..j], i);
    ClockStep(Recall(start, run[..j]), run[j]);
  }

  // ---------------------------------------------------------------- nothing on record lies ahead

  ghost predicate Past(moment: Moment, c: int) {
    moment.At? ==> moment.ms <= c
  }

  /** Candidates, refusals and repairs are not in the future, and the quiet time ends within 800 ms. */
  ghost predicate Dated(h: History) {
    && (h.mind.identity.candidateActive ==> h.mind.identity.candidateSinceMs <= h.pace.clock)
    && (h.mind.suppression.candidateActive ==> h.mind.suppression.candidateSinceMs <= h.pace.clock)
    && Past(h.pace.teardownRefused, h.pace.clock) && Past(h.pace.showRefused, h.pace.clock)
    && Past(h.pace.repaired, h.pace.clock)
    && Past(h.mind.resumeAt, h.pace.clock + RESUME_DELAY_MS)
  }

  lemma CandidatesAreDated(mind: Mind, e: Event)
    ensures e.TaskbarSeen? ==>
              var state := SeeTaskbar(mind, e).state;
              state.candidateActive ==> state.candidateSinceMs == e.at || state == mind.identity
    ensures e.SuppressionSeen? ==>
              var state := SeeSuppression(mind, e).state;
              state.candidateActive ==> state.candidateSinceMs == e.at || state == mind.suppression
  {
  }

  /** What an event does to the conclusions. */
  lemma MindEvents(mind: Mind, e: Event)
    ensures var after := WatchMind(mind, e);
            && after.identity == (if e.TaskbarSeen? then SeeTaskbar(mind, e).state else mind.identity)
            && after.suppression == (if e.SuppressionSeen? then SeeSuppression(mind, e).state else mind.suppression)
            && after.frozen == (if e.ForegroundSeen? then e.screenshot else mind.frozen)
            && after.resumeAt == (if e.ResumeFinished? then Never
                                  else if !e.ForegroundSeen? || e.screenshot == mind.frozen then mind.resumeAt
                                  else if e.screenshot then Never else ResumeMoment(e.at))
  {
    hide SeeTaskbar, SeeSuppression;
  }

  /** What an event does to the waits. */
  lemma PaceEvents(pace: Pace, mind: Mind, e: Event)
    ensures var after := WatchPace(pace, mind, e);
            var commits := e.TaskbarSeen? && SeeTaskbar(mind, e).committedChanged;
            && after.recreate == (commits || (pace.recreate && !e.TornDown?))
            && after.teardownRefused == (if e.TeardownRefused? then At(e.at)
                                         else if e.TornDown? || commits then Never else pace.teardownRefused)
            && after.showRefused == (if e.ShowRefused? then At(e.at)
                                     else if e.ShowGranted? || e.TornDown? then Never else pace.showRefused)
            && after.repaired == (if e.RepairBegan? then At(e.at) else pace.repaired)
  {
    hide SeeTaskbar;
  }

  lemma DatedStep(h: History, e: Event)
    requires Dated(h) && Allowed(h, e)
    ensures Dated(Watch(h, e))
  {
    ClockStep(h, e);
    PaceIsWatched(h, e);
    MindIsWatched(h, e);
    MindEvents(h.mind, e);
    PaceEvents(h.pace, h.mind, e);
    CandidatesAreDated(h.mind, e);
    hide Watch, Allowed, WatchMind, WatchPace, SeeTaskbar, SeeSuppression;
  }

  lemma {:induction false} RunIsDated(start: TaskbarIdentity, run: seq<Event>)
    requires Legal(start, run)
    ensures Dated(Recall(start, run))
  {
    hide Watch, Allowed, Dated;
    if |run| > 0 {
      LastStep(start, run);
      RunIsDated(start, run[..|run| - 1]);
      DatedStep(Recall(start, run[..|run| - 1]), run[|run| - 1]);
    } else {
      BeginningIsDated(start);
    }
  }

  lemma BeginningIsDated(start: TaskbarIdentity)
    ensures Dated(Beginning(start))
  {
  }

  // ---------------------------------------------------------------- repairs

  lemma RepairStep(pace: Pace, mind: Mind, e: Event)
    ensures WatchPace(pace, mind, e).repaired == (if e.RepairBegan? then At(e.at) else pace.repaired)
  {
    hide SeeTaskbar;
  }

  lemma {:induction false} RepairIsRemembered(start: TaskbarIdentity, run: seq<Event>, i: nat)
    requires Legal(start, run) && i < |run| && run[i].RepairBegan?
    ensures Recall(start, run).pace.repaired.At? && run[i].at <= Recall(start, run).pace.repaired.ms
  {
    hide Watch, WatchPace, Allowed;
    var n := |run| - 1;
    LastStep(start, run);
    var before := Recall(start, run[..n]);
    PaceIsWatched(before, run[n]);
    RepairStep(before.pace, before.mind, run[n]);
    if i < n {
      RepairIsRemembered(start, run[..n], i);
      if run[n].RepairBegan? {
        TimeNeverGoesBack(start, run, i, n);
      }
    }
  }

  lemma RepairNeeds(h: History, e: Event)
    requires Allowed(h, e) && e.RepairBegan?
    ensures !RepairMustWait(h.pace, e.at) && h.pace.clock <= e.at
  {
  }

  /** Repairs begin at least five seconds apart, for all that the clock wraps. */
  lemma {:induction false} RepairsAreSpaced(start: TaskbarIdentity, run: seq<Event>, i: nat, j: nat)
    requires Legal(start, run) && i < j < |run| && run[i].RepairBegan? && run[j].RepairBegan?
    ensures run[j].at >= run[i].at + REPAIR_INTERVAL_MS
  {
    hide Allowed, Watch, Legal, Recall;
    LegalAt(start, run, j);
    RepairNeeds(Recall(start, run[..j]), run[j]);
    RepairIsRemembered(start, run[..j], i);
    RunIsDated(start, run[..j]);
    NeverPassedEarlyNonZero(Recall(start, run[..j]).pace.repaired.ms, REPAIR_INTERVAL_MS, run[j].at);
  }

  /** A wait that reads as over is over, unless its deadline falls on tick 0. */
  lemma OverMeansWaited(since: nat, delay: nat, now: nat)
    requires since <= now && delay <= HALF_RANGE && WaitOver(At(since), delay, now)
    ensures now >= since + delay || TickOf(since + delay) == 0
  {
    AddTicksIsReal(since, delay);
    if TickOf(since + delay) != 0 {
      NeverPassedEarly(since, delay, now);
    }
  }

  /** A wait that ended not more than half the range of the clock ago reads as over. */
  lemma WaitedMeansOver(since: nat, delay: nat, now: nat)
    requires since + delay <= now < since + delay + HALF_RANGE
    ensures WaitOver(At(since), delay, now)
  {
    TickPassedIsExact(now, since + delay);
  }

  // ---------------------------------------------------------------- shows

  /** What starts the wait for the next show afresh, or ends it. */
  ghost predicate SettlesShow(e: Event) {
    e.ShowRefused? || e.ShowGranted? || e.TornDown?
  }

  lemma ShowStep(pace: Pace, mind: Mind, e: Event)
    ensures !SettlesShow(e) ==> WatchPace(pace, mind, e).showRefused == pace.showRefused
    ensures e.ShowRefused? ==> WatchPace(pace, mind, e).showRefused == At(e.at)
  {
    hide SeeTaskbar;
  }

  lemma {:induction false} RefusalIsRemembered(start: TaskbarIdentity, run: seq<Event>, i: nat)
    requires i < |run| && run[i].ShowRefused? && forall k :: i < k < |run| ==> !SettlesShow(run[k])
    ensures Recall(start, run).pace.showRefused == At(run[i].at)
  {
    hide WatchPace, SettlesShow;
    var n := |run| - 1;
    var before := Recall(start, run[..n]);
    ShowStep(before.pace, before.mind, run[n]);
    if i < n {
      RefusalIsRemembered(start, run[..n], i);
    }
  }

  /** The pass that began at `b` may show at once: it created the overlay, committed a taskbar, lifted
      the suppression, or was asked to reset the surface. */
  ghost predicate HasReasonToShow(start: TaskbarIdentity, run: seq<Event>, b: nat)
    requires b < |run| && run[b].PassBegan?
  {
    CreatedSince(run, b) || CommittedSince(start, run, b) || RestoredSince(start, run, b)
      || ResetSurface in run[b].flags
  }

  lemma ShowNeeds(h: History, e: Event)
    requires Allowed(h, e) && e.ShowTried?
    ensures h.pass.Running? && (Forced(h.pass) || WaitOver(h.pace.showRefused, REPAIR_INTERVAL_MS, e.at))
    ensures h.pace.clock <= e.at
  {
  }

  /** After a refused show the next attempt comes five seconds later, unless its pass has a reason to
      show at once, or the wrapped deadline is the tick that reads as none. */
  lemma {:induction false} ShowsAreSpaced(start: TaskbarIdentity, run: seq<Event>, i: nat, b: nat, j: nat)
    requires Legal(start, run) && i < |run| && j < |run| && run[i].ShowRefused? && run[j].ShowTried? && i < j
    requires forall k :: i < k < j ==> !SettlesShow(run[k])
    requires b < j && PassSince(run[..j], b)
    ensures || run[j].at >= run[i].at + REPAIR_INTERVAL_MS
            || HasReasonToShow(start, run[..j], b)
            || TickOf(run[i].at + REPAIR_INTERVAL_MS) == 0
  {
    hide Legal, Recall, SettlesShow, CommitsIdentity, WaitOver;
    ShowsReadTheClock(start, run, i, b, j);
    TimeNeverGoesBack(start, run, i, j);
    if !HasReasonToShow(start, run[..j], b) {
      OverMeansWaited(run[i].at, REPAIR_INTERVAL_MS, run[j].at);
    }
  }

  /** After a refused show, a pass without a reason of its own tries again only when the wrapped clock reads
      the wait as over. */
  lemma {:induction false} ShowsReadTheClock(start: TaskbarIdentity, run: seq<Event>, i: nat, b: nat, j: nat)
    requires Legal(start, run) && i < |run| && j < |run| && run[i].ShowRefused? && run[j].ShowTried? && i < j
    requires forall k :: i < k < j ==> !SettlesShow(run[k])
    requires b < j && PassSince(run[..j], b)
    ensures HasReasonToShow(start, run[..j], b) || WaitOver(At(run[i].at), REPAIR_INTERVAL_MS, run[j].at)
  {
    hide Allowed, Watch, Legal, Recall, CommitsIdentity;
    LegalAt(start, run, j);
    ShowNeeds(Recall(start, run[..j]), run[j]);
    RefusalIsRemembered(start, run[..j], i);
    PassIsWhatHappened(start, run[..j], b);
  }

  // ---------------------------------------------------------------- what becomes of a show

  /** The only show that was tried since `b` was tried at `s`. */
  ghost predicate OnlyShow(run: seq<Event>, b: nat, s: nat)
    requires s < |run|
  {
    b < s && run[s].ShowTried? && forall l :: b < l < |run| && l != s ==> !run[l].ShowTried?
  }

  /** The show that was tried at `s` ended at `k`, shown or not. */
  ghost predicate ShowEndsAt(run: seq<Event>, s: nat, k: nat, shown: bool)
    requires s <= k < |run|
  {
    s < k && run[k] == PrepareEnded(shown) && forall l :: s < l < k ==> !run[l].PrepareEnded?
  }

  predicate Concludes(e: Event, shown: bool) {
    if shown then e.ShowGranted? else e.ShowRefused?
  }

  /** No show has been granted or refused since `b`. */
  ghost predicate Unconcluded(run: seq<Event>, b: nat) {
    forall l :: b < l < |run| ==> !run[l].ShowGranted? && !run[l].ShowRefused?
  }

  /** The show that ended at `k` was granted or refused at `m`, and nothing was after `b` but then. */
  ghost predicate ShowConcludesAt(run: seq<Event>, b: nat, k: nat, m: nat, shown: bool)
    requires m < |run|
  {
    && k < m && Concludes(run[m], shown)
    && forall l :: b < l < |run| && l != m ==> !run[l].ShowGranted? && !run[l].ShowRefused?
  }

  /** How far the show of the pass that began at `b` has come. */
  ghost predicate ShowSince(run: seq<Event>, b: nat, show: ShowWork) {
    match show
    case NoShow => Unconcluded(run, b) && forall l :: b < l < |run| ==> !run[l].ShowTried?
    case ShowPending =>
      && Unconcluded(run, b)
      && exists s :: b < s < |run| && OnlyShow(run, b, s) && forall l :: s < l < |run| ==> !run[l].PrepareEnded?
    case ShowEnded(shown) =>
      && Unconcluded(run, b)
      && exists s, k :: b < s < k < |run| && OnlyShow(run, b, s) && ShowEndsAt(run, s, k, shown)
    case ShowConcluded(shown) =>
      exists s, k, m :: b < s < k < m < |run| && OnlyShow(run, b, s) && ShowEndsAt(run, s, k, shown)
                        && ShowConcludesAt(run, b, k, m, shown)
  }

  lemma ShowEventsNeed(h: History, e: Event)
    requires Allowed(h, e) && h.pass.Running?
    ensures e.ShowTried? ==> h.pass.show.NoShow?
    ensures e.ShowGranted? ==> h.pass.show == ShowEnded(true)
    ensures e.ShowRefused? ==> h.pass.show == ShowEnded(false)
    ensures e.PassEnded? ==> ShowSettled(h.pass)
  {
  }

  lemma ShowMoves(show: ShowWork, e: Event)
    ensures WatchShow(show, e)
            == if e.ShowTried? then ShowPending
               else if e.PrepareEnded? && show.ShowPending? then ShowEnded(e.shown)
               else if e.ShowGranted? then ShowConcluded(true)
               else if e.ShowRefused? then ShowConcluded(false)
               else show
  {
  }

  lemma OnlyShowStays(run: seq<Event>, b: nat, s: nat)
    requires b < s < |run| - 1 && OnlyShow(run[..|run| - 1], b, s) && !run[|run| - 1].ShowTried?
    ensures OnlyShow(run, b, s)
  {
    var n := |run| - 1;
    assert forall l :: 0 <= l < n ==> run[..n][l] == run[l];
  }

  lemma ShowEndStays(run: seq<Event>, s: nat, k: nat, shown: bool)
    requires s < k < |run| - 1 && ShowEndsAt(run[..|run| - 1], s, k, shown)
    ensures ShowEndsAt(run, s, k, shown)
  {
    var n := |run| - 1;
    assert forall l :: 0 <= l < n ==> run[..n][l] == run[l];
  }

  lemma UnconcludedGoesOn(run: seq<Event>, b: nat)
    requires b < |run| - 1 && Unconcluded(run[..|run| - 1], b)
    ensures var e := run[|run| - 1];
            !e.ShowGranted? && !e.ShowRefused? ==> Unconcluded(run, b)
  {
    var n := |run| - 1;
    assert forall l :: 0 <= l < n ==> run[..n][l] == run[l];
  }

  /** The show of a pass moves on with an event. */
  lemma ShowGoesOn(run: seq<Event>, b: nat, h: History)
    requires b < |run| - 1 && h.pass.Running? && Allowed(h, run[|run| - 1])
    requires ShowSince(run[..|run| - 1], b, h.pass.show)
    ensures ShowSince(run, b, WatchShow(h.pass.show, run[|run| - 1]))
  {
    hide Allowed, WatchShow, OnlyShow, ShowEndsAt, ShowConcludesAt, Unconcluded;
    var n := |run| - 1;
    var e, show := run[n], h.pass.show;
    ShowEventsNeed(h, e);
    ShowMoves(show, e);
    match show {
      case NoShow =>
        UnconcludedGoesOn(run, b);
        assert forall l :: b < l < n ==> run[..n][l] == run[l];
        if e.ShowTried? {
          ShowIsTried(run, b);
        }
      case ShowPending =>
        UnconcludedGoesOn(run, b);
        var s :| b < s < n && OnlyShow(run[..n], b, s) && forall l :: s < l < n ==> !run[..n][l].PrepareEnded?;
        OnlyShowStays(run, b, s);
        assert forall l :: s < l < n ==> run[..n][l] == run[l];
        if e.PrepareEnded? {
          ShowHasEnded(run, s, e.shown);
        }
      case ShowEnded(shown) =>
        UnconcludedGoesOn(run, b);
        var s, k :| b < s < k < n && OnlyShow(run[..n], b, s) && ShowEndsAt(run[..n], s, k, shown);
        OnlyShowStays(run, b, s);
        ShowEndStays(run, s, k, shown);
        if e.ShowGranted? || e.ShowRefused? {
          ShowIsConcluded(run, b, k, shown);
        }
      case ShowConcluded(shown) =>
        var s, k, m :| b < s < k < m < n && OnlyShow(run[..n], b, s) && ShowEndsAt(run[..n], s, k, shown)
                       && ShowConcludesAt(run[..n], b, k, m, shown);
        OnlyShowStays(run, b, s);
        ShowEndStays(run, s, k, shown);
        ConclusionStays(run, b, k, m, shown);
    }
  }

  lemma ShowIsConcluded(run: seq<Event>, b: nat, k: nat, shown: bool)
    requires b < |run| - 1 && k < |run| - 1 && Unconcluded(run[..|run| - 1], b) && Concludes(run[|run| - 1], shown)
    ensures ShowConcludesAt(run, b, k, |run| - 1, shown)
  {
    var n := |run| - 1;
    assert forall l :: 0 <= l < n ==> run[..n][l] == run[l];
  }

  lemma ConclusionStays(run: seq<Event>, b: nat, k: nat, m: nat, shown: bool)
    requires b < |run| - 1 && m < |run| - 1 && ShowConcludesAt(run[..|run| - 1], b, k, m, shown)
    requires !run[|run| - 1].ShowGranted? && !run[|run| - 1].ShowRefused?
    ensures ShowConcludesAt(run, b, k, m, shown)
  {
    var n := |run| - 1;
    assert forall l :: 0 <= l < n ==> run[..n][l] == run[l];
  }

  lemma ShowIsTried(run: seq<Event>, b: nat)
    requires b < |run| - 1 && run[|run| - 1].ShowTried?
    requires forall l :: b < l < |run| - 1 ==> !run[l].ShowTried?
    ensures OnlyShow(run, b, |run| - 1)
  {
  }

  lemma ShowHasEnded(run: seq<Event>, s: nat, shown: bool)
    requires s < |run| - 1 && run[|run| - 1] == PrepareEnded(shown)
    requires forall l :: s < l < |run| - 1 ==> !run[l].PrepareEnded?
    ensures ShowEndsAt(run, s, |run| - 1, shown)
  {
  }

  lemma {:induction false} ShowIsWhatHappened(start: TaskbarIdentity, run: seq<Event>, b: nat)
    requires Legal(start, run) && PassSince(run, b)
    ensures Recall(start, run).pass.Running? && ShowSince(run, b, Recall(start, run).pass.show)
  {
    hide Allowed, WatchPass, WatchLife, WatchTodo, WatchDone, WatchView, WatchShow, WatchUpkeep, ShowSince;
    var n := |run| - 1;
    var before := Recall(start, run[..n]);
    LastStep(start, run);
    if b < n {
      assert PassSince(run[..n], b);
      ShowIsWhatHappened(start, run[..n], b);
      PassStep(before.pass, before.owed, before.mind, run[n]);
      ShowGoesOn(run, b, before);
    } else {
      PassStarts(before, run[n]);
      NothingShown(run, b);
    }
  }

  lemma NothingShown(run: seq<Event>, b: nat)
    requires b == |run| - 1
    ensures ShowSince(run, b, NoShow)
  {
  }

  /** Every show that a pass tries ends in that pass, and is then granted or refused as it ended; a pass
      tries no other, and grants and refuses nothing else. */
  lemma {:induction false} ShowsAreConcluded(start: TaskbarIdentity, run: seq<Event>, b: nat, s: nat, j: nat)
    requires Legal(start, run) && b < s < j < |run| && PassSince(run[..j], b)
    requires run[s].ShowTried? && run[j].PassEnded?
    ensures OnlyShow(run[..j], b, s)
    ensures exists k, m, shown :: s < k < m < j && ShowEndsAt(run[..j], s, k, shown)
                                  && ShowConcludesAt(run[..j], b, k, m, shown)
  {
    hide Allowed, Watch, Legal, Recall, PassSince, ShowConcludesAt, ShowEndsAt, Unconcluded;
    var past := run[..j];
    LegalAt(start, run, j);
    ShowIsWhatHappened(start, past, b);
    var h := Recall(start, past);
    ShowEventsNeed(h, run[j]);
    assert past[s] == run[s];
    if h.pass.show.ShowConcluded? {
      var t, k, m :| b < t < k < m < j && OnlyShow(past, b, t) && ShowEndsAt(past, t, k, h.pass.show.shown)
                     && ShowConcludesAt(past, b, k, m, h.pass.show.shown);
    }
  }

  /** Nothing but a show of the pass is ever granted or refused. */
  lemma {:induction false} ConclusionsAreOfShows(start: TaskbarIdentity, run: seq<Event>, b: nat, m: nat, shown: bool)
    requires Legal(start, run) && b < m < |run| && PassSince(run[..m], b) && Concludes(run[m], shown)
    ensures Unconcluded(run[..m], b)
    ensures exists s, k :: b < s < k < m && OnlyShow(run[..m], b, s) && ShowEndsAt(run[..m], s, k, shown)
  {
    hide Allowed, Watch, Legal, Recall, PassSince, OnlyShow, ShowEndsAt, Unconcluded;
    LegalAt(start, run, m);
    ShowIsWhatHappened(start, run[..m], b);
    ShowEventsNeed(Recall(start, run[..m]), run[m]);
  }

  lemma ConclusionsNeedPass(h: History, e: Event)
    requires Allowed(h, e) && (e.ShowGranted? || e.ShowRefused?)
    ensures h.pass.Running?
  {
  }

  /** The show that an event grants or refuses is the latest that was tried, and no other event has done so. */
  lemma {:induction false} ShowOfConclusion(start: TaskbarIdentity, run: seq<Event>, l: nat) returns (t: nat)
    requires Legal(start, run) && l < |run| && (run[l].ShowGranted? || run[l].ShowRefused?)
    ensures t < l && run[t].ShowTried?
    ensures forall x :: t < x < l ==> !run[x].ShowGranted? && !run[x].ShowRefused?
  {
    hide Allowed, Watch, Legal, Recall, ShowEndsAt;
    LegalAt(start, run, l);
    ConclusionsNeedPass(Recall(start, run[..l]), run[l]);
    var b := PassBeganAt(start, run[..l]);
    ConclusionsAreOfShows(start, run, b, l, run[l].ShowGranted?);
    var s, k :| b < s < k < l && OnlyShow(run[..l], b, s) && ShowEndsAt(run[..l], s, k, run[l].ShowGranted?);
    t := s;
    assert forall x :: 0 <= x < l ==> run[..l][x] == run[x];
  }

  /** As long as no other show is tried, none is granted or refused. */
  lemma {:induction false} NothingElseIsConcluded(start: TaskbarIdentity, run: seq<Event>, s: nat, m: nat, l: nat)
    requires Legal(start, run) && s < m < l < |run| && (run[m].ShowGranted? || run[m].ShowRefused?)
    requires forall x :: s < x < l ==> !run[x].ShowTried?
    ensures !run[l].ShowGranted? && !run[l].ShowRefused?
  {
    hide Legal;
    if run[l].ShowGranted? || run[l].ShowRefused? {
      var t := ShowOfConclusion(start, run, l);
    }
  }

  /** A failed show is refused in its pass. */
  lemma {:induction false} FailedShowIsRefused(start: TaskbarIdentity, run: seq<Event>, b: nat, s: nat, k: nat, b': nat)
    returns (m: nat)
    requires Legal(start, run) && b < s < k < b' < |run| && PassSince(run[..k], b) && run[b'].PassBegan?
    requires run[s].ShowTried? && ShowEndsAt(run, s, k, false)
    ensures k < m < b' && run[m].ShowRefused? && run[m].at >= run[s].at
  {
    hide Legal;
    assert run[b] == run[..k][b];
    PassesDoNotNest(start, run, b, b');
    var x :| b < x < b' && run[x].PassEnded?;
    var e := PassEndedAt(start, run, b, x);
    assert forall l :: b < l < k ==> run[l] == run[..k][l];
    ShowsAreConcluded(start, run, b, s, e);
    var past := run[..e];
    var k', m', shown :| s < k' < m' < e && ShowEndsAt(past, s, k', shown) && ShowConcludesAt(past, b, k', m', shown);
    assert past[k'] == run[k'] && past[m'] == run[m'];
    assert past[k] == run[k];
    m := m';
    TimeNeverGoesBack(start, run, s, m);
  }

  /** A show that fails is refused in its pass, and the next attempt comes five seconds after that, unless its
      pass has a reason to show at once, or the wrapped deadline is the tick that reads as none. */
  lemma {:induction false} FailedShowsAreSpaced(start: TaskbarIdentity, run: seq<Event>, b: nat, s: nat, k: nat,
                                                b': nat, j: nat)
    returns (m: nat)
    requires Legal(start, run) && b < s < k < b' < j < |run| && PassSince(run[..k], b) && PassSince(run[..j], b')
    requires run[s].ShowTried? && ShowEndsAt(run, s, k, false) && run[j].ShowTried?
    requires forall l :: s < l < j ==> !run[l].ShowTried? && !run[l].TornDown?
    ensures k < m < b' && run[m].ShowRefused? && run[m].at >= run[s].at
    ensures || run[j].at >= run[m].at + REPAIR_INTERVAL_MS
            || HasReasonToShow(start, run[..j], b')
            || TickOf(run[m].at + REPAIR_INTERVAL_MS) == 0
  {
    hide Legal, Recall, PassSince, ShowEndsAt, CommitsIdentity;
    BeginsAt(run[..j], b');
    m := FailedShowIsRefused(start, run, b, s, k, b');
    forall l | m < l < j ensures !SettlesShow(run[l]) {
      NothingElseIsConcluded(start, run, s, m, l);
    }
    ShowsAreSpaced(start, run, m, b', j);
  }

  // ---------------------------------------------------------------- teardowns

  /** What starts the wait for the next teardown afresh, or ends it. */
  ghost predicate SettlesTeardown(start: TaskbarIdentity, run: seq<Event>, k: nat)
    requires k < |run|
  {
    run[k].TeardownRefused? || run[k].TornDown? || CommitsIdentity(start, run, k)
  }

  lemma TeardownStep(pace: Pace, mind: Mind, e: Event)
    ensures !e.TeardownRefused? && !e.TornDown? && !(e.TaskbarSeen? && SeeTaskbar(mind, e).committedChanged) ==>
              WatchPace(pace, mind, e).teardownRefused == pace.teardownRefused
    ensures e.TeardownRefused? ==> WatchPace(pace, mind, e).teardownRefused == At(e.at)
  {
    hide ReduceTaskbarIdentity;
  }

  lemma {:induction false} TeardownIsRemembered(start: TaskbarIdentity, run: seq<Event>, i: nat)
    requires i < |run| && run[i].TeardownRefused? && forall k :: i < k < |run| ==> !SettlesTeardown(start, run, k)
    ensures Recall(start, run).pace.teardownRefused == At(run[i].at)
  {
    hide WatchPace;
    var n := |run| - 1;
    var before := Recall(start, run[..n]);
    TeardownStep(before.pace, before.mind, run[n]);
    if i < n {
      assert !SettlesTeardown(start, run, n);
      forall k | i < k < n ensures !SettlesTeardown(start, run[..n], k) {
        SameCommit(start, run, k);
        assert !SettlesTeardown(start, run, k);
      }
      TeardownIsRemembered(start, run[..n], i);
    }
  }

  lemma TeardownNeeds(h: History, e: Event)
    requires Allowed(h, e)
    ensures e.TeardownTried? ==> h.world.alive == {} || WaitOver(h.pace.teardownRefused, REPAIR_INTERVAL_MS, e.at)
    ensures e.TeardownRefused? || e.TornDown? ==> h.pass.Running? && h.pass.life.teardown.Tried?
    ensures e.TeardownRefused? ==> h.world.alive != {}
  {
  }

  /** An overlay that could not be destroyed is left alone for five seconds: as long as it exists, no
      attempt to destroy it is made earlier, whether or not it would succeed, unless another taskbar is
      committed meanwhile or the wrapped deadline is the tick that reads as none. */
  lemma {:induction false} TeardownsAreSpaced(start: TaskbarIdentity, run: seq<Event>, i: nat, j: nat, w: Hwnd)
    requires Legal(start, run) && i < j < |run| && run[i].TeardownRefused? && run[j].TeardownTried?
    requires forall k :: i < k < j ==> !SettlesTeardown(start, run[..j], k)
    requires IsAlive(run[..j], w)
    ensures run[j].at >= run[i].at + REPAIR_INTERVAL_MS || TickOf(run[i].at + REPAIR_INTERVAL_MS) == 0
  {
    hide Legal, Recall, SettlesTeardown, IsAlive, WaitOver;
    TeardownsReadTheClock(start, run, i, j, w);
    TimeNeverGoesBack(start, run, i, j);
    OverMeansWaited(run[i].at, REPAIR_INTERVAL_MS, run[j].at);
  }

  /** As long as the overlay exists, it is tried to be destroyed again only when the wrapped clock reads the
      wait as over. */
  lemma {:induction false} TeardownsReadTheClock(start: TaskbarIdentity, run: seq<Event>, i: nat, j: nat, w: Hwnd)
    requires Legal(start, run) && i < j < |run| && run[i].TeardownRefused? && run[j].TeardownTried?
    requires forall k :: i < k < j ==> !SettlesTeardown(start, run[..j], k)
    requires IsAlive(run[..j], w)
    ensures WaitOver(At(run[i].at), REPAIR_INTERVAL_MS, run[j].at)
  {
    hide Allowed, Watch, Legal, Recall, SettlesTeardown, IsAlive, IsVisible, IsPresented;
    LegalAt(start, run, j);
    TeardownNeeds(Recall(start, run[..j]), run[j]);
    TeardownIsRemembered(start, run[..j], i);
    WorldIsWhatHappened(start, run[..j], w);
  }

  /** The attempt at `k` has not been refused. */
  ghost predicate TriedAt(run: seq<Event>, k: nat)
    requires k < |run|
  {
    run[k].TeardownTried? && forall l :: k < l < |run| ==> !run[l].TeardownRefused?
  }

  ghost predicate TeardownTriedSince(run: seq<Event>, b: nat) {
    exists k :: b < k < |run| && TriedAt(run, k)
  }

  lemma TriedStep(run: seq<Event>, b: nat)
    requires b < |run| - 1
    ensures var n := |run| - 1;
            run[n].TeardownTried? || (TeardownTriedSince(run[..n], b) && !run[n].TeardownRefused?)
            ==> TeardownTriedSince(run, b)
  {
    var n := |run| - 1;
    if run[n].TeardownTried? {
      assert TriedAt(run, n);
    } else if TeardownTriedSince(run[..n], b) && !run[n].TeardownRefused? {
      var k :| b < k < n && TriedAt(run[..n], k);
      assert TriedAt(run, k);
    }
  }

  lemma LifeStep(life: Life, e: Event)
    ensures WatchLife(life, e).teardown.Tried? <==> e.TeardownTried? || (life.teardown.Tried? && !e.TeardownRefused?)
  {
  }

  lemma {:induction false} TeardownIsTried(start: TaskbarIdentity, run: seq<Event>, b: nat)
    requires PassSince(run, b)
    ensures Recall(start, run).pass.Running?
    ensures Recall(start, run).pass.life.teardown.Tried? ==> TeardownTriedSince(run, b)
  {
    hide WatchPass, WatchLife, WatchTodo, WatchDone, WatchView, WatchShow, WatchUpkeep, TeardownTriedSince;
    var n := |run| - 1;
    var before := Recall(start, run[..n]);
    if b < n {
      assert PassSince(run[..n], b);
      TeardownIsTried(start, run[..n], b);
      PassStep(before.pass, before.owed, before.mind, run[n]);
      LifeStep(before.pass.life, run[n]);
      TriedStep(run, b);
    } else {
      PassStarts(before, run[n]);
    }
  }

  /** Every teardown, refused or done, is an attempt that its pass has made just before. */
  lemma {:induction false} TeardownsAreTried(start: TaskbarIdentity, run: seq<Event>, b: nat, j: nat)
    requires Legal(start, run) && b < j < |run| && PassSince(run[..j], b)
             && (run[j].TeardownRefused? || run[j].TornDown?)
    ensures TeardownTriedSince(run[..j], b)
  {
    hide Allowed, Watch, Legal, Recall, PassSince, TeardownTriedSince;
    LegalAt(start, run, j);
    TeardownNeeds(Recall(start, run[..j]), run[j]);
    TeardownIsTried(start, run[..j], b);
  }

  // ---------------------------------------------------------------- owner binding

  ghost function OwnerSets(run: seq<Event>): nat {
    if |run| == 0 then 0 else OwnerSets(run[..|run| - 1]) + if run[|run| - 1].OwnerSet? then 1 else 0
  }

  lemma OwnerSetNeeds(h: History, e: Event)
    requires Allowed(h, e) && e.OwnerSet?
    ensures h.pace.armed && h.pace.ownerSets < BINDING_MAX_ATTEMPTS && Waited(h.pace.ownerSetAt, BINDING_RETRY_MS, e.at)
  {
  }

  lemma BindingStep(pace: Pace, mind: Mind, e: Event)
    ensures var after := WatchPace(pace, mind, e);
            && after.armed == (pace.armed || e.Armed?)
            && after.ownerSets == (if e.Armed? then 0 else if e.OwnerSet? then pace.ownerSets + 1 else pace.ownerSets)
            && after.ownerSetAt == (if e.Armed? then Never else if e.OwnerSet? then At(e.at) else pace.ownerSetAt)
  {
    hide SeeTaskbar;
  }

  lemma {:induction false} ArmingCounts(start: TaskbarIdentity, run: seq<Event>, i: nat)
    requires Legal(start, run) && i < |run| && run[i].Armed? && forall k :: i < k < |run| ==> !run[k].Armed?
    ensures Recall(start, run).pace.ownerSets == OwnerSets(run[i + 1..]) <= BINDING_MAX_ATTEMPTS
  {
    hide Watch, WatchPace, Allowed;
    var n := |run| - 1;
    LastStep(start, run);
    var before := Recall(start, run[..n]);
    PaceIsWatched(before, run[n]);
    BindingStep(before.pace, before.mind, run[n]);
    if run[n].OwnerSet? {
      OwnerSetNeeds(before, run[n]);
    }
    if i < n {
      ArmingCounts(start, run[..n], i);
      assert run[i + 1..][..n - i - 1] == run[..n][i + 1..];
    }
  }

  /** Each arming sets the owner at most eight times. */
  lemma {:induction false} OwnerBudget(start: TaskbarIdentity, run: seq<Event>, i: nat, j: nat)
    requires Legal(start, run) && i < j <= |run| && run[i].Armed? && forall k :: i < k < j ==> !run[k].Armed?
    ensures OwnerSets(run[i + 1..j]) <= BINDING_MAX_ATTEMPTS
  {
    LegalAt(start, run, j);
    ArmingCounts(start, run[..j], i);
    assert run[..j][i + 1..] == run[i + 1..j];
  }

  lemma {:induction false} ArmedByEvent(start: TaskbarIdentity, run: seq<Event>)
    requires Recall(start, run).pace.armed
    ensures exists i :: 0 <= i < |run| && run[i].Armed?
  {
    hide WatchPace;
    if |run| > 0 {
      var n := |run| - 1;
      var before := Recall(start, run[..n]);
      BindingStep(before.pace, before.mind, run[n]);
      if !run[n].Armed? {
        ArmedByEvent(start, run[..n]);
        var i :| 0 <= i < n && run[..n][i].Armed?;
        assert run[i].Armed?;
      }
    }
  }

  /** The owner is never set without an arming. */
  lemma {:induction false} OwnerSetNeedsArming(start: TaskbarIdentity, run: seq<Event>, j: nat)
    requires Legal(start, run) && j < |run| && run[j].OwnerSet?
    ensures exists i :: 0 <= i < j && run[i].Armed?
  {
    hide Allowed, Watch, Legal, Recall;
    LegalAt(start, run, j);
    OwnerSetNeeds(Recall(start, run[..j]), run[j]);
    ArmedByEvent(start, run[..j]);
    var i :| 0 <= i < j && run[..j][i].Armed?;
    assert run[i].Armed?;
  }

  lemma {:induction false} OwnerSetIsRemembered(start: TaskbarIdentity, run: seq<Event>, i: nat)
    requires Legal(start, run) && i < |run| && run[i].OwnerSet? && forall k :: i < k < |run| ==> !run[k].Armed?
    ensures Recall(start, run).pace.ownerSetAt.At? && run[i].at <= Recall(start, run).pace.ownerSetAt.ms
  {
    hide Watch, WatchPace, Allowed;
    var n := |run| - 1;
    LastStep(start, run);
    var before := Recall(start, run[..n]);
    PaceIsWatched(before, run[n]);
    BindingStep(before.pace, before.mind, run[n]);
    if i < n {
      OwnerSetIsRemembered(start, run[..n], i);
      if run[n].OwnerSet? {
        TimeNeverGoesBack(start, run, i, n);
      }
    }
  }

  /** Within one arming, the owner is set at most once in half a second. */
  lemma {:induction false} OwnerSetsAreSpaced(start: TaskbarIdentity, run: seq<Event>, i: nat, j: nat)
    requires Legal(start, run) && i < j < |run| && run[i].OwnerSet? && run[j].OwnerSet?
    requires forall k :: i < k < j ==> !run[k].Armed?
    ensures run[j].at >= run[i].at + BINDING_RETRY_MS
  {
    hide Allowed, Watch, Legal, Recall;
    LegalAt(start, run, j);
    OwnerSetNeeds(Recall(start, run[..j]), run[j]);
    OwnerSetIsRemembered(start, run[..j], i);
  }
}
