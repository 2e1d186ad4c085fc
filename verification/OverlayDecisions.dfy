/** Whole runs against the history specifications of the two reducers. */
module OverlayDecisions {
  import opened OverlayPolicy
  import opened OverlayObservation
  import opened OverlayProtocol
  import opened OverlayRuns
  import opened OverlayPacing
  import S = SuppressionHistory
  import T = TaskbarHistory
  import F = FlickerBound

  /** What the suppression policy has been shown. */
  ghost function Glances(run: seq<Event>): seq<S.Sample> {
    if |run| == 0 then []
    else
      var e := run[|run| - 1];
      Glances(run[..|run| - 1]) + if e.SuppressionSeen? then [S.Sample(e.at, e.seen)] else []
  }

  /** Which taskbars have been seen. */
  ghost function Sightings(run: seq<Event>): seq<T.Sighting> {
    if |run| == 0 then []
    else
      var e := run[|run| - 1];
      Sightings(run[..|run| - 1]) + if e.TaskbarSeen? then [T.Sighting(e.at, e.identity)] else []
  }

  lemma DecisionStep(mind: Mind, e: Event)
    ensures var after := WatchMind(mind, e);
            if e.SuppressionSeen? then
              var step := ReduceSuppressionPolicy(mind.suppression, e.seen, e.at, SHIPPED_CONFIG);
              after.suppression == step.state && after.decisions == mind.decisions + if step.committedChanged then 1
                else 0
            else after.suppression == mind.suppression && after.decisions == mind.decisions
    ensures if e.TaskbarSeen? then
              WatchMind(mind, e).identity == ReduceTaskbarIdentity(mind.identity, e.identity, e.at,
                                                                   IDENTITY_SETTLE_MS).state
            else WatchMind(mind, e).identity == mind.identity
  {
    hide ReduceSuppressionPolicy, ReduceTaskbarIdentity;
  }

  /** The suppression state of a run is the reducer folded over its glances, and the decision counter
      counts their decisions. */
  lemma {:induction false} SuppressionIsReplay(start: TaskbarIdentity, run: seq<Event>, settled: SuppressionPolicyState)
    requires settled == Settled(None)
    ensures var mind := Recall(start, run).mind;
            && mind.suppression == S.Replay(SHIPPED_CONFIG, settled, Glances(run))
            && mind.decisions == F.Decisions(settled, Glances(run))
  {
    hide ReduceSuppressionPolicy, WatchMind;
    if |run| > 0 {
      var n := |run| - 1;
      SuppressionIsReplay(start, run[..n], settled);
      DecisionStep(Recall(start, run[..n]).mind, run[n]);
      if run[n].SuppressionSeen? {
        assert Glances(run)[..|Glances(run)| - 1] == Glances(run[..n]);
      } else {
        assert Glances(run) == Glances(run[..n]);
      }
    }
  }

  lemma {:induction false} IdentityIsReplay(start: TaskbarIdentity, run: seq<Event>, held: TaskbarIdentityState)
    requires held == T.Holding(start)
    ensures Recall(start, run).mind.identity == T.Replay(IDENTITY_SETTLE_MS, held, Sightings(run))
  {
    hide ReduceTaskbarIdentity, WatchMind;
    if |run| > 0 {
      var n := |run| - 1;
      IdentityIsReplay(start, run[..n], held);
      DecisionStep(Recall(start, run[..n]).mind, run[n]);
      if run[n].TaskbarSeen? {
        assert Sightings(run)[..|Sightings(run)| - 1] == Sightings(run[..n]);
      } else {
        assert Sightings(run) == Sightings(run[..n]);
      }
    }
  }

  lemma SlowStep(h: History, e: Event)
    requires Allowed(h, e) && e.SuppressionSeen?
    ensures SlowToHide(e.seen)
  {
  }

  /** Samples in order, none later than `clock`, that never hide the taskbar fast. */
  ghost predicate InOrderUntil(h: seq<S.Sample>, clock: nat) {
    S.Chronological(h) && forall i :: 0 <= i < |h| ==> h[i].at <= clock && SlowToHide(h[i].seen)
  }

  lemma InOrderLater(h: seq<S.Sample>, clock: nat, later: nat)
    requires InOrderUntil(h, clock) && clock <= later
    ensures InOrderUntil(h, later)
  {
    hide SlowToHide;
  }

  lemma AppendInOrder(h: seq<S.Sample>, sample: S.Sample)
    requires InOrderUntil(h, sample.at) && sample.at < UINT64_MODULUS && SlowToHide(sample.seen)
    ensures InOrderUntil(h + [sample], sample.at)
  {
    hide SlowToHide;
  }

  lemma EmptyInOrder(clock: nat)
    ensures InOrderUntil([], clock)
  {
  }

  lemma GlancesGrow(run: seq<Event>)
    requires |run| > 0
    ensures var e, before := run[|run| - 1], Glances(run[..|run| - 1]);
            Glances(run) == if e.SuppressionSeen? then before + [S.Sample(e.at, e.seen)] else before
  {
  }

  /** Glances are in order, within the recorded time, and never hide the taskbar fast. */
  lemma {:induction false} GlancesInOrder(start: TaskbarIdentity, run: seq<Event>)
    requires Legal(start, run) && Recall(start, run).pace.clock < UINT64_MODULUS
    ensures InOrderUntil(Glances(run), Recall(start, run).pace.clock)
  {
    hide Watch, Allowed, SlowToHide, InOrderUntil, Glances;
    if |run| > 0 {
      var n := |run| - 1;
      var clock := Recall(start, run).pace.clock;
      LastStep(start, run);
      ClockStep(Recall(start, run[..n]), run[n]);
      GlancesInOrder(start, run[..n]);
      GlancesGrow(run);
      InOrderLater(Glances(run[..n]), Recall(start, run[..n]).pace.clock, clock);
      if run[n].SuppressionSeen? {
        SlowStep(Recall(start, run[..n]), run[n]);
        AppendInOrder(Glances(run[..n]), S.Sample(run[n].at, run[n].seen));
      }
    } else {
      assert Glances(run) == [] by { NoGlances(run); }
      EmptyInOrder(Recall(start, run).pace.clock);
    }
  }

  lemma NoGlances(run: seq<Event>)
    requires run == []
    ensures Glances(run) == []
  {
  }

  ghost predicate SightsInOrderUntil(h: seq<T.Sighting>, clock: nat) {
    T.Chronological(h) && forall i :: 0 <= i < |h| ==> h[i].at <= clock
  }

  lemma AppendSight(h: seq<T.Sighting>, clock: nat, sighting: T.Sighting)
    requires SightsInOrderUntil(h, clock) && clock <= sighting.at < UINT64_MODULUS
    ensures SightsInOrderUntil(h + [sighting], sighting.at)
  {
  }

  lemma SightsInOrderLater(h: seq<T.Sighting>, clock: nat, later: nat)
    requires SightsInOrderUntil(h, clock) && clock <= later
    ensures SightsInOrderUntil(h, later)
  {
  }

  lemma SightingsGrowBy(run: seq<Event>)
    ensures |run| == 0 ==> Sightings(run) == [] && SightsInOrderUntil([], 0)
    ensures |run| > 0 ==>
              var e, before := run[|run| - 1], Sightings(run[..|run| - 1]);
              Sightings(run) == if e.TaskbarSeen? then before + [T.Sighting(e.at, e.identity)] else before
  {
  }

  lemma {:induction false} SightingsInOrder(start: TaskbarIdentity, run: seq<Event>)
    requires Legal(start, run) && Recall(start, run).pace.clock < UINT64_MODULUS
    ensures SightsInOrderUntil(Sightings(run), Recall(start, run).pace.clock)
  {
    hide Watch, Allowed, SightsInOrderUntil, Sightings;
    SightingsGrowBy(run);
    if |run| > 0 {
      var n := |run| - 1;
      var before, now := Recall(start, run[..n]).pace.clock, Recall(start, run).pace.clock;
      LastStep(start, run);
      ClockStep(Recall(start, run[..n]), run[n]);
      SightingsInOrder(start, run[..n]);
      if run[n].TaskbarSeen? {
        AppendSight(Sightings(run[..n]), before, T.Sighting(run[n].at, run[n].identity));
      } else {
        SightsInOrderLater(Sightings(run[..n]), before, now);
      }
    }
  }

  /** In every run, the reason the overlay is suppressed for is what the history of glances calls for. */
  lemma {:induction false} RunSuppressesByHistory(start: TaskbarIdentity, run: seq<Event>)
    requires Legal(start, run) && Recall(start, run).pace.clock < UINT64_MODULUS
    ensures Recall(start, run).mind.suppression.committed == S.CommittedBy(SHIPPED_CONFIG, None, Glances(run))
  {
    SuppressionIsReplay(start, run, Settled(None));
    GlancesInOrder(start, run);
    S.ReducerRefinesHistory(SHIPPED_CONFIG, None, Glances(run));
  }

  /** In every run, the committed taskbar is what the history of sightings calls for: seen at least
      twice in a row over the settle delay. */
  lemma {:induction false} RunFollowsTaskbarHistory(start: TaskbarIdentity, run: seq<Event>)
    requires Legal(start, run) && Recall(start, run).pace.clock < UINT64_MODULUS
    ensures Recall(start, run).mind.identity.committed == T.CommittedBy(IDENTITY_SETTLE_MS, start, Sightings(run))
  {
    IdentityIsReplay(start, run, T.Holding(start));
    SightingsInOrder(start, run);
    T.ReducerRefinesHistory(IDENTITY_SETTLE_MS, start, Sightings(run));
  }

  lemma {:induction false} SightingsGrow(run: seq<Event>, i: nat)
    requires i <= |run|
    ensures |Sightings(run[..i])| <= |Sightings(run)| && Sightings(run)[..|Sightings(run[..i])|] == Sightings(run[..i])
  {
    if i == |run| {
      assert run[..i] == run;
    } else {
      assert run[..|run| - 1][..i] == run[..i];
      SightingsGrow(run[..|run| - 1], i);
    }
  }

  /** Once the committed taskbar is real, no run makes it null again. */
  lemma {:induction false} TaskbarStaysReal(start: TaskbarIdentity, run: seq<Event>, i: nat)
    requires i <= |run| && IsReal(Recall(start, run[..i]).mind.identity.committed)
    ensures IsReal(Recall(start, run).mind.identity.committed)
  {
    IdentityIsReplay(start, run, T.Holding(start));
    IdentityIsReplay(start, run[..i], T.Holding(start));
    SightingsGrow(run, i);
    T.CommittedStaysReal(IDENTITY_SETTLE_MS, T.Holding(start), Sightings(run), |Sightings(run[..i])|);
  }

  // ---------------------------------------------------------------- flicker over a stretch of a run

  lemma {:induction false} GlancesConcat(run: seq<Event>, i: nat)
    requires i <= |run|
    ensures Glances(run) == Glances(run[..i]) + Glances(run[i..])
  {
    if i == |run| {
      assert run[..i] == run;
    } else {
      var n := |run| - 1;
      GlancesConcat(run[..n], i);
      assert run[..n][..i] == run[..i] && run[..n][i..] == run[i..][..n - i];
    }
  }

  lemma LaterGlancesInOrder(h: seq<S.Sample>, g: seq<S.Sample>)
    requires S.Chronological(h + g) && forall k :: 0 <= k < |h + g| ==> SlowToHide((h + g)[k].seen)
    ensures S.Chronological(g) && forall k :: 0 <= k < |g| ==> SlowToHide(g[k].seen)
  {
    hide SlowToHide;
    assert forall k :: 0 <= k < |g| ==> g[k] == (h + g)[|h| + k];
  }

  /** Over any stretch of any run whose glances span `T` ms, the suppression decision changes at most
      `2 * (T / 100) + 1` times, plus once if a change that needs a dwell was waiting when the stretch
      began. */
  lemma {:induction false} RunFlickerIsBounded(start: TaskbarIdentity, run: seq<Event>, i: nat)
    requires Legal(start, run) && i <= |run| && Recall(start, run).pace.clock < UINT64_MODULUS
    requires |Glances(run[i..])| > 0
    ensures var g := Glances(run[i..]);
            var before := Recall(start, run[..i]).mind;
            Recall(start, run).mind.decisions - before.decisions
            <= 2 * ((g[|g| - 1].at - g[0].at) / 100) + if F.Waiting(before.suppression) then 2 else 1
  {
    hide Legal, Recall, Glances, Settled, F.Decisions, S.Replay, S.Chronological, SlowToHide;
    var settled := Settled(None);
    var h, g := Glances(run[..i]), Glances(run[i..]);
    GlancesInOrder(start, run);
    GlancesConcat(run, i);
    LaterGlancesInOrder(h, g);
    SuppressionIsReplay(start, run, settled);
    SuppressionIsReplay(start, run[..i], settled);
    F.DecisionsConcat(settled, h, g);
    F.FlickerFromAnywhere(S.Replay(SHIPPED_CONFIG, settled, h), g);
  }

  // ---------------------------------------------------------------- suppressed means hidden

  ghost function HideFails(): Event -> bool { (e: Event) => e == HideTried(false) }

  ghost function HideWorks(): Event -> bool { (e: Event) => e == HideTried(true) }

  ghost function StyleFails(): Event -> bool { (e: Event) => e == StyleTried(false) }

  ghost function StyleWorks(): Event -> bool { (e: Event) => e == StyleTried(true) }

  lemma FaultStep(faults: Faults, e: Event)
    ensures WatchFaults(faults, e).hideFailed <==> HideFails()(e) || (faults.hideFailed && !HideWorks()(e))
    ensures WatchFaults(faults, e).styleFailed <==> StyleFails()(e) || (faults.styleFailed && !StyleWorks()(e))
  {
  }

  lemma {:induction false} FaultsAreWhatHappened(start: TaskbarIdentity, run: seq<Event>)
    ensures Recall(start, run).faults.hideFailed <==> Holds(run, HideFails(), HideWorks())
    ensures Recall(start, run).faults.styleFailed <==> Holds(run, StyleFails(), StyleWorks())
  {
    hide Holds, HideFails, HideWorks, StyleFails, StyleWorks;
    hide WatchMail, WatchOwed, WatchWorld, WatchMind, WatchPace, WatchFaults, WatchCall, WatchPass;
    HoldsStep(run, HideFails(), HideWorks());
    HoldsStep(run, StyleFails(), StyleWorks());
    if |run| > 0 {
      FaultsAreWhatHappened(start, run[..|run| - 1]);
      FaultStep(Recall(start, run[..|run| - 1]).faults, run[|run| - 1]);
    }
  }

  lemma EndIsNotExposed(h: History, e: Event)
    requires Allowed(h, e) && e.PassEnded?
    ensures NotExposed(h)
  {
  }

  /** After every pass a visible overlay is not suppressed, unless the last attempt to hide the
      overlay or to set its style failed. */
  lemma {:induction false} SuppressedMeansHidden(start: TaskbarIdentity, run: seq<Event>, j: nat, w: Hwnd)
    requires Legal(start, run) && j < |run| && run[j].PassEnded? && IsVisible(run[..j], w)
    ensures || Recall(start, run[..j]).mind.suppression.committed.None?
            || Holds(run[..j], HideFails(), HideWorks())
            || Holds(run[..j], StyleFails(), StyleWorks())
  {
    hide Allowed, Holds, IsVisible;
    LegalAt(start, run, j);
    EndIsNotExposed(Recall(start, run[..j]), run[j]);
    WorldIsWhatHappened(start, run[..j], w);
    FaultsAreWhatHappened(start, run[..j]);
  }
}
