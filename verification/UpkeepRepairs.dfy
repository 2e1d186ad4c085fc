/** Upkeep of a visible overlay: it is inspected, and what the inspection finds broken is repaired. */
module UpkeepRepairs {
  import opened OverlayPolicy
  import opened OverlayProtocol
  import opened OverlayRuns
  import opened WorkIsServed
  import opened OverlayPacing
  import opened OverlayDecisions

  /** A repair step of the kind `fix` was taken after `m`. */
  ghost predicate TakenSince(run: seq<Event>, m: nat, fix: Fix) {
    exists l :: m < l < |run| && fix in FixOf(run[l])
  }

  /** A repair began at `m`, and took these steps. */
  ghost predicate RepairTook(run: seq<Event>, m: nat, fixed: set<Fix>)
    requires m < |run|
  {
    && run[m].RepairBegan?
    && (forall fix :: fix in fixed ==> if fix.InSight? then run[m].visible else TakenSince(run, m, fix))
  }

  /** The only repair since `b` began at `m`. */
  ghost predicate OnlyRepair(run: seq<Event>, b: nat, m: nat)
    requires m < |run|
  {
    b < m && run[m].RepairBegan? && forall l :: b < l < |run| && l != m ==> !run[l].RepairBegan?
  }

  /** No repair has begun since `b`. */
  ghost predicate Unrepaired(run: seq<Event>, b: nat) {
    forall l :: b < l < |run| ==> !run[l].RepairBegan?
  }

  /** The only inspection since `b` was made at `k`. */
  ghost predicate OnlyInspection(run: seq<Event>, b: nat, k: nat)
    requires k < |run|
  {
    b < k && run[k].Inspected? && forall l :: b < l < |run| && l != k ==> !run[l].Inspected?
  }

  /** Since `b` there was one inspection, at `k`, and after it one repair or none. */
  ghost predicate ExaminedAt(run: seq<Event>, b: nat, k: nat, upkeep: Upkeep)
    requires k < |run| && upkeep.Examined?
  {
    && OnlyInspection(run, b, k) && run[k].found == upkeep.found
    && if !upkeep.begun then Unrepaired(run, b)
       else
         && NeedsRepair(upkeep.found)
         && exists m :: k < m < |run| && OnlyRepair(run, b, m) && RepairTook(run, m, upkeep.fixed)
  }

  /** Since `b` there was neither an inspection nor a repair. */
  ghost predicate Uninspected(run: seq<Event>, b: nat) {
    (forall l :: b < l < |run| ==> !run[l].Inspected?) && Unrepaired(run, b)
  }

  lemma UpkeepStep(upkeep: Upkeep, e: Event)
    ensures var after := WatchUpkeep(upkeep, e);
            if !after.Examined? then !e.Inspected? && (e.SawVisible? || !upkeep.Examined?)
            else
              || (after == Examined(after.found, false, {}) && e == Inspected(after.found))
              || (&& upkeep.Examined? && !e.Inspected? && after.found == upkeep.found
                  && if e.RepairBegan? then after.begun && after.fixed == (if e.visible then {InSight} else {})
                     else after.begun == upkeep.begun && after.fixed == upkeep.fixed + FixOf(e))
    ensures WatchUpkeep(upkeep, e) != NoUpkeep ==> upkeep != NoUpkeep || e.SawVisible? || e.Inspected?
  {
  }

  lemma UpkeepNeeds(h: History, e: Event)
    requires Allowed(h, e)
    ensures e.SawVisible? ==> h.pass.Running? && !Forced(h.pass) && Unstarted(h.pass)
    ensures e.Inspected? ==> h.pass.Running? && h.pass.upkeep.Keeping?
    ensures e.RepairBegan? ==>
              && h.pass.Running? && h.pass.upkeep.Examined? && !h.pass.upkeep.begun && NeedsRepair(h.pass.upkeep.found)
              && (e.visible <==> h.world.visible != {})
  {
  }

  lemma NoSight(e: Event)
    ensures InSight !in FixOf(e)
  {
  }

  lemma TakenLonger(run: seq<Event>, m: nat, fixed: set<Fix>)
    requires m < |run| - 1 && RepairTook(run[..|run| - 1], m, fixed)
    ensures RepairTook(run, m, fixed + FixOf(run[|run| - 1]))
  {
    hide FixOf;
    var n := |run| - 1;
    forall fix | fix in fixed + FixOf(run[n]) ensures if fix.InSight? then run[m].visible else TakenSince(run, m, fix) {
      if fix in FixOf(run[n]) {
        NoSight(run[n]);
      } else if !fix.InSight? {
        assert TakenSince(run[..n], m, fix);
        var l :| m < l < n && fix in FixOf(run[..n][l]);
        assert fix in FixOf(run[l]);
      }
    }
  }

  lemma ExaminedLonger(run: seq<Event>, b: nat, k: nat, before: Upkeep, after: Upkeep)
    requires b < k < |run| - 1 && before.Examined? && after.Examined? && ExaminedAt(run[..|run| - 1], b, k, before)
    requires var e := run[|run| - 1];
             && !e.Inspected? && after.found == before.found
             && if e.RepairBegan? then
                  && !before.begun && NeedsRepair(before.found)
                  && after.begun && after.fixed == (if e.visible then {InSight} else {})
                else after.begun == before.begun && after.fixed == before.fixed + FixOf(e)
    ensures ExaminedAt(run, b, k, after)
  {
    hide FixOf, TakenSince, NeedsRepair, RepairTook;
    var n := |run| - 1;
    assert forall l :: 0 <= l < n ==> run[..n][l] == run[l];
    assert OnlyInspection(run, b, k);
    if run[n].RepairBegan? {
      RepairStarts(run, after.fixed);
      assert OnlyRepair(run, b, n);
    } else if before.begun {
      var m :| k < m < n && OnlyRepair(run[..n], b, m) && RepairTook(run[..n], m, before.fixed);
      TakenLonger(run, m, before.fixed);
      assert OnlyRepair(run, b, m);
    }
  }

  lemma RepairStarts(run: seq<Event>, fixed: set<Fix>)
    requires |run| > 0 && run[|run| - 1].RepairBegan?
    requires fixed == if run[|run| - 1].visible then {InSight} else {}
    ensures RepairTook(run, |run| - 1, fixed)
  {
  }

  /** How far upkeep has come since `b`. */
  ghost predicate UpkeepSince(run: seq<Event>, b: nat, upkeep: Upkeep) {
    if upkeep.Examined? then exists k :: b < k < |run| && ExaminedAt(run, b, k, upkeep) else Uninspected(run, b)
  }

  /** What upkeep believes is what has happened in the pass. */
  lemma {:induction false} UpkeepIsWhatHappened(start: TaskbarIdentity, run: seq<Event>, b: nat)
    requires Legal(start, run) && PassSince(run, b)
    ensures var pass := Recall(start, run).pass;
            && pass.Running? && UpkeepSince(run, b, pass.upkeep)
            && (pass.upkeep != NoUpkeep ==> ResetSurface !in run[b].flags)
  {
    hide Allowed, WatchPass, WatchUpkeep, UpkeepSince, WatchTodo, WatchDone, WatchView, WatchLife, WatchShow;
    var n := |run| - 1;
    var past := run[..n];
    var before := Recall(start, past);
    LastStep(start, run);
    if b < n {
      assert PassSince(past, b);
      UpkeepIsWhatHappened(start, past, b);
      PassIsWhatHappened(start, past, b);
      PassStep(before.pass, before.owed, before.mind, run[n]);
      UpkeepStep(before.pass.upkeep, run[n]);
      UpkeepNeeds(before, run[n]);
      UpkeepGoesOn(run, b, before, WatchUpkeep(before.pass.upkeep, run[n]));
    } else {
      PassStarts(before, run[n]);
      NothingInspected(run, b);
    }
  }

  lemma NothingInspected(run: seq<Event>, b: nat)
    requires b == |run| - 1
    ensures UpkeepSince(run, b, NoUpkeep)
  {
  }

  lemma UpkeepGoesOn(run: seq<Event>, b: nat, before: History, after: Upkeep)
    requires b < |run| - 1 && before.pass.Running? && Allowed(before, run[|run| - 1])
    requires after == WatchUpkeep(before.pass.upkeep, run[|run| - 1])
    requires UpkeepSince(run[..|run| - 1], b, before.pass.upkeep)
    ensures UpkeepSince(run, b, after)
  {
    hide ExaminedAt, WatchUpkeep, NeedsRepair, Allowed;
    var n := |run| - 1;
    var upkeep := before.pass.upkeep;
    UpkeepStep(upkeep, run[n]);
    UpkeepNeeds(before, run[n]);
    assert forall l :: 0 <= l < n ==> run[..n][l] == run[l];
    if upkeep.Examined? {
      var k :| b < k < n && ExaminedAt(run[..n], b, k, upkeep);
      ExaminedLonger(run, b, k, upkeep, after);
    } else if run[n].Inspected? {
      FreshlyExamined(run, b, after);
    }
  }

  lemma FreshlyExamined(run: seq<Event>, b: nat, upkeep: Upkeep)
    requires b < |run| - 1 && upkeep.Examined? && upkeep == Examined(upkeep.found, false, {})
    requires run[|run| - 1] == Inspected(upkeep.found) && Uninspected(run[..|run| - 1], b)
    ensures ExaminedAt(run, b, |run| - 1, upkeep)
  {
    var n := |run| - 1;
    assert forall l :: 0 <= l < n ==> run[..n][l] == run[l];
  }

  // ---------------------------------------------------------------- what is repaired, and when

  /** Only a broken overlay is repaired, and only once: every repair follows the one inspection of its pass, which
      has found something to repair, and no other repair of the pass comes before it. */
  lemma {:induction false} OnlyTheBrokenIsRepaired(start: TaskbarIdentity, run: seq<Event>, b: nat, j: nat)
    requires Legal(start, run) && b < j < |run| && PassSince(run[..j], b) && run[j].RepairBegan?
    ensures Unrepaired(run[..j], b)
    ensures exists k :: b < k < j && OnlyInspection(run[..j], b, k) && NeedsRepair(run[k].found)
  {
    hide Allowed, Watch, Legal, Recall, PassSince, NeedsRepair, OnlyInspection;
    LegalAt(start, run, j);
    UpkeepNeeds(Recall(start, run[..j]), run[j]);
    UpkeepIsWhatHappened(start, run[..j], b);
    var upkeep := Recall(start, run[..j]).pass.upkeep;
    var k :| b < k < j && ExaminedAt(run[..j], b, k, upkeep);
    assert run[..j][k] == run[k];
  }

  /** The repair that began at `m` did what its plan asks: a window was made if there was none; then the
      overlay was shown, unless it has gone, or, if it was visible to begin with, styled, placed and filled as far
      as the style could be set. */
  ghost predicate PlanFollowed(run: seq<Event>, m: nat, plan: RepairIntent)
    requires m <= |run|
  {
    && (plan.ensureExists ==> TakenSince(run, m, FixLife))
    && (|| (forall w :: !IsAlive(run, w))
        || TakenSince(run, m, FixShow)
        || (&& (exists w :: IsVisible(run[..m], w))
            && (plan.applyStyle ==> TakenSince(run, m, FixStyle))
            && (plan.reposition ==> TakenSince(run, m, FixPlace))
            && (plan.present ==> TakenSince(run, m, FixFrame)
                                 || (plan.applyStyle && Holds(run, StyleFails(), StyleWorks())))))
  }

  lemma SteadyMeansComplete(h: History, e: Event, at: nat)
    requires Allowed(h, e) && e == PassEnded(Steady(at))
    ensures h.pass.Running? && UpkeepComplete(h, at)
  {
  }

  /** The latest repair began at `i`, and the clock reads the wait after it as not over at time `at`. */
  ghost predicate PutOff(run: seq<Event>, i: nat, at: nat)
    requires i < |run|
  {
    run[i].RepairBegan? && Unrepaired(run, i) && RepairPends(run[i].at, at)
  }

  /** What became of the one inspection of the pass that began at `b`. If the pass began a repair, then just one,
      of an overlay found broken, and it did what its plan asks. If it began none, the overlay was sound, or the
      clock reads the wait after an earlier repair as not over at time `at`. */
  ghost predicate Answered(run: seq<Event>, b: nat, k: nat, at: nat)
    requires k < |run|
  {
    && OnlyInspection(run, b, k)
    && if Unrepaired(run, b) then NeedsRepair(run[k].found) ==> exists i :: 0 <= i < b && PutOff(run, i, at)
       else NeedsRepair(run[k].found)
            && exists m :: k < m < |run| && OnlyRepair(run, b, m)
                           && PlanFollowed(run, m, ComputeOverlayRepairIntent(run[k].found))
  }

  /** A pass that ends in upkeep has inspected the overlay once. A repair that it began followed its plan, and an
      overlay that it found broken was repaired unless the wrapped clock reads the wait after the last repair, of an
      earlier pass, as not over. `WrappedWaits` says when it does that although the wait is over. */
  lemma {:induction false} SteadyPassRepairs(start: TaskbarIdentity, run: seq<Event>, b: nat, j: nat, at: nat)
    requires Legal(start, run) && b < j < |run| && PassSince(run[..j], b) && run[j] == PassEnded(Steady(at))
    ensures exists k :: b < k < j && Answered(run[..j], b, k, at)
  {
    hide Allowed, Watch, Legal, Recall, PassSince, UpkeepComplete, ExaminedAt, Answered;
    var h := Recall(start, run[..j]);
    LegalAt(start, run, j);
    SteadyMeansComplete(h, run[j], at);
    UpkeepIsWhatHappened(start, run[..j], b);
    CompleteIsExamined(h, at);
    var k :| b < k < j && ExaminedAt(run[..j], b, k, h.pass.upkeep);
    BeginsAt(run[..j], b);
    CompleteIsAnswered(start, run[..j], b, k, at);
  }

  lemma CompleteIsExamined(h: History, at: nat)
    requires h.pass.Running? && UpkeepComplete(h, at)
    ensures h.pass.upkeep.Examined?
  {
  }

  lemma CompleteIsAnswered(start: TaskbarIdentity, run: seq<Event>, b: nat, k: nat, at: nat)
    requires Legal(start, run) && Recall(start, run).pass.Running? && UpkeepComplete(Recall(start, run), at)
    requires Recall(start, run).pass.upkeep.Examined? && b < k < |run| && run[b].PassBegan?
    requires ExaminedAt(run, b, k, Recall(start, run).pass.upkeep)
    ensures Answered(run, b, k, at)
  {
    hide Legal, Recall, NeedsRepair, RepairPends, ComputeOverlayRepairIntent, PlanFollowed, RepairFollowed, RepairTook,
         OnlyInspection;
    var h := Recall(start, run);
    var upkeep := h.pass.upkeep;
    if upkeep.begun {
      var m :| k < m < |run| && OnlyRepair(run, b, m) && RepairTook(run, m, upkeep.fixed);
      PlanWasFollowed(start, run, m, ComputeOverlayRepairIntent(upkeep.found), upkeep.fixed);
      assert !Unrepaired(run, b);
    } else if NeedsRepair(upkeep.found) {
      var i := LatestRepair(start, run);
      assert PutOff(run, i, at);
    }
  }

  /** The last repair on record is the latest of the run. */
  lemma {:induction false} LatestRepair(start: TaskbarIdentity, run: seq<Event>) returns (i: nat)
    requires Recall(start, run).pace.repaired.At?
    ensures i < |run| && run[i].RepairBegan? && Unrepaired(run, i) && run[i].at == Recall(start, run).pace.repaired.ms
  {
    hide Watch, WatchPace;
    var n := |run| - 1;
    var before := Recall(start, run[..n]);
    PaceIsWatched(before, run[n]);
    PaceEvents(before.pace, before.mind, run[n]);
    if run[n].RepairBegan? {
      i := n;
    } else {
      i := LatestRepair(start, run[..n]);
      assert forall l :: 0 <= l < n ==> run[..n][l] == run[l];
    }
  }

  /** A repair that took the overlay to be visible was right. */
  lemma BeganInSight(start: TaskbarIdentity, run: seq<Event>, m: nat)
    requires Legal(start, run) && m < |run| && run[m].RepairBegan? && run[m].visible
    ensures exists w :: IsVisible(run[..m], w)
  {
    hide Allowed, Watch, Legal, Recall, IsVisible, IsAlive, IsPresented;
    LegalAt(start, run, m);
    UpkeepNeeds(Recall(start, run[..m]), run[m]);
    var w :| w in Recall(start, run[..m]).world.visible;
    WorldIsWhatHappened(start, run[..m], w);
  }

  lemma FixesAreEvents(h: History, run: seq<Event>, m: nat, plan: RepairIntent, fixed: set<Fix>)
    requires m < |run| && RepairTook(run, m, fixed) && RepairFollowed(h, plan, fixed)
    requires run[m].visible ==> exists w :: IsVisible(run[..m], w)
    requires h.world.alive == {} ==> forall w :: !IsAlive(run, w)
    requires h.faults.styleFailed ==> Holds(run, StyleFails(), StyleWorks())
    ensures PlanFollowed(run, m, plan)
  {
    hide TakenSince, IsVisible, IsAlive, Holds, StyleFails, StyleWorks;
  }

  lemma PlanWasFollowed(start: TaskbarIdentity, run: seq<Event>, m: nat, plan: RepairIntent, fixed: set<Fix>)
    requires Legal(start, run) && m < |run| && run[m].RepairBegan? && RepairTook(run, m, fixed)
    requires RepairFollowed(Recall(start, run), plan, fixed)
    ensures PlanFollowed(run, m, plan)
  {
    hide Legal, Recall, RepairTook, RepairFollowed, PlanFollowed, IsVisible, IsAlive, IsPresented, Holds;
    if run[m].visible {
      BeganInSight(start, run, m);
    }
    FaultsAreWhatHappened(start, run);
    forall w ensures w in Recall(start, run).world.alive <==> IsAlive(run, w) {
      WorldIsWhatHappened(start, run, w);
    }
    FixesAreEvents(Recall(start, run), run, m, plan, fixed);
  }
}
