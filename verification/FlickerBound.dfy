/** How often the committed suppression decision can change. */
module FlickerBound {
  import opened OverlayPolicy
  import opened OverlayObservation
  import opened SuppressionHistory

  /** A look at the desktop and its time. */
  datatype Look = Look(at: nat, scene: Scene)

  /** Observation and reduction run together; what is observed depends on what is committed. */
  ghost function Watch(start: SuppressionPolicyState, looks: seq<Look>): SuppressionPolicyState {
    if |looks| == 0 then start
    else
      var n := |looks| - 1;
      var before := Watch(start, looks[..n]);
      ReduceSuppressionPolicy(before, ObserveSuppression(looks[n].scene, before.committed), looks[n].at,
                              SHIPPED_CONFIG).state
  }

  /** How many looks changed the committed reason: by how much `decision_sequence` grew. */
  ghost function DecisionsOf(start: SuppressionPolicyState, looks: seq<Look>): nat {
    if |looks| == 0 then 0
    else
      var n := |looks| - 1;
      var before := Watch(start, looks[..n]);
      var step := ReduceSuppressionPolicy(before, ObserveSuppression(looks[n].scene, before.committed), looks[n].at,
                                          SHIPPED_CONFIG);
      DecisionsOf(start, looks[..n]) + if step.committedChanged then 1 else 0
  }

  /** The samples that `looks` produce. */
  ghost function Samples(start: SuppressionPolicyState, looks: seq<Look>): seq<Sample> {
    if |looks| == 0 then []
    else
      var n := |looks| - 1;
      Samples(start, looks[..n]) + [Sample(looks[n].at,
                                           ObserveSuppression(looks[n].scene, Watch(start, looks[..n]).committed))]
  }

  /** How many steps of `h` changed the committed reason. */
  ghost function Decisions(start: SuppressionPolicyState, h: seq<Sample>): nat {
    if |h| == 0 then 0
    else Decisions(start, h[..|h| - 1]) + if Changes(start, h) then 1 else 0
  }

  ghost predicate Changes(start: SuppressionPolicyState, h: seq<Sample>)
    requires |h| > 0
  {
    var n := |h| - 1;
    ReduceSuppressionPolicy(Replay(SHIPPED_CONFIG, start, h[..n]), h[n].seen, h[n].at, SHIPPED_CONFIG).committedChanged
  }

  /** The changes that needed a dwell: all but those to full-screen. */
  ghost function SlowDecisions(start: SuppressionPolicyState, h: seq<Sample>): nat {
    if |h| == 0 then 0
    else
      var slow := Changes(start, h) && !h[|h| - 1].seen.reason.FullscreenPresentation?;
      SlowDecisions(start, h[..|h| - 1]) + if slow then 1 else 0
  }

  ghost function LastDecisionAt(start: SuppressionPolicyState, h: seq<Sample>): nat
    requires |h| > 0
  {
    if Changes(start, h) then h[|h| - 1].at
    else if |h| == 1 then h[0].at
    else LastDecisionAt(start, h[..|h| - 1])
  }

  /** A change that needs a dwell has been waiting since some earlier time. A wait for full-screen is not
      meant, and neither is one for a hidden taskbar with the profile that no hidden taskbar is seen with. */
  predicate Waiting(state: SuppressionPolicyState) {
    && state.candidateActive && state.candidate != state.committed && !state.candidate.FullscreenPresentation?
    && (state.candidate.TaskbarHidden? ==> state.candidateProfile.Default?)
  }

  /** The account after a look at `now`: `slow` of `total` decisions needed a dwell, the latest was
      made at `last`, and every slow one used 100 ms of the time since `t0`. */
  ghost predicate Paid(state: SuppressionPolicyState, t0: int, last: int, now: int, slow: int, total: int) {
    && t0 <= last <= now
    && (Waiting(state) ==> last <= state.candidateSinceMs <= now)
    && 100 * slow <= last - t0
    && total <= 2 * slow + if state.committed.FullscreenPresentation? then 1 else 0
  }

  /** Dwells do not overlap: each slow decision uses 100 ms that no earlier decision used. */
  lemma StepIsPaidFor(before: SuppressionPolicyState, sample: Sample, t0: int, last: int, now: int, slow: int,
                      total: int)
    requires Paid(before, t0, last, now, slow, total)
    requires SlowToHide(sample.seen) && 0 <= now <= sample.at < UINT64_MODULUS
    ensures var step := ReduceSuppressionPolicy(before, sample.seen, sample.at, SHIPPED_CONFIG);
            var slowStep := step.committedChanged && !sample.seen.reason.FullscreenPresentation?;
            Paid(step.state, t0, if step.committedChanged then sample.at else last, sample.at,
                 slow + if slowStep then 1 else 0, total + if step.committedChanged then 1 else 0)
  {
    if Waiting(before) && t0 >= 0 {
      assert Elapsed64(sample.at, before.candidateSinceMs) == sample.at - before.candidateSinceMs;
    }
  }

  lemma {:induction false} DecisionsArePaidFor(start: SuppressionPolicyState, h: seq<Sample>)
    requires !Waiting(start)
    requires Chronological(h) && |h| > 0 && forall i :: 0 <= i < |h| ==> SlowToHide(h[i].seen)
    ensures Paid(Replay(SHIPPED_CONFIG, start, h), h[0].at, LastDecisionAt(start, h), h[|h| - 1].at,
                 SlowDecisions(start, h), Decisions(start, h))
  {
    hide ReduceSuppressionPolicy, Paid, SlowToHide;
    var n := |h| - 1;
    var before := Replay(SHIPPED_CONFIG, start, h[..n]);
    if n == 0 {
      NothingToPay(start, h[0].at);
      StepIsPaidFor(before, h[0], h[0].at, h[0].at, h[0].at, 0, 0);
    } else {
      DecisionsArePaidFor(start, h[..n]);
      StepIsPaidFor(before, h[n], h[0].at, LastDecisionAt(start, h[..n]), h[n - 1].at,
                    SlowDecisions(start, h[..n]), Decisions(start, h[..n]));
    }
  }

  lemma NothingToPay(start: SuppressionPolicyState, at: int)
    requires !Waiting(start)
    ensures Paid(start, at, at, at, 0, 0)
  {
  }

  lemma {:induction false} SamplesMatch(start: SuppressionPolicyState, looks: seq<Look>)
    ensures var h := Samples(start, looks);
            && |h| == |looks|
            && (forall i :: 0 <= i < |looks| ==> h[i].at == looks[i].at && SlowToHide(h[i].seen))
            && Replay(SHIPPED_CONFIG, start, h) == Watch(start, looks)
            && Decisions(start, h) == DecisionsOf(start, looks)
  {
    hide ReduceSuppressionPolicy, ObserveSuppression, SlowToHide;
    var n := |looks| - 1;
    if n >= 0 {
      SamplesMatch(start, looks[..n]);
      PipelineShape(looks[n].scene, Watch(start, looks[..n]).committed);
      assert Samples(start, looks)[..n] == Samples(start, looks[..n]);
    }
  }

  lemma BoundFromAccount(slow: int, total: int, span: int, full: int)
    requires 100 * slow <= span && total <= 2 * slow + full && full <= 1
    ensures total <= 2 * (span / 100) + 1
  {
  }

  /** With the shipped delays, looks that span `T` ms change the decision at most `2 * (T / 100) + 1` times. */
  lemma {:induction false} FlickerIsBounded(initial: SuppressionReason, looks: seq<Look>)
    requires |looks| > 0 && looks[|looks| - 1].at < UINT64_MODULUS
    requires forall i, j :: 0 <= i <= j < |looks| ==> looks[i].at <= looks[j].at
    ensures DecisionsOf(Settled(initial), looks) <= 2 * ((looks[|looks| - 1].at - looks[0].at) / 100) + 1
  {
    hide Watch, DecisionsOf, Samples, Decisions, Replay, Settled;
    var h := Samples(Settled(initial), looks);
    SamplesMatch(Settled(initial), looks);
    SettledDoesNotWait(initial);
    FlickerOfHistory(Settled(initial), h);
  }

  lemma SettledDoesNotWait(initial: SuppressionReason)
    ensures !Waiting(Settled(initial))
  {
  }

  lemma FlickerOfHistory(start: SuppressionPolicyState, h: seq<Sample>)
    requires !Waiting(start)
    requires Chronological(h) && |h| > 0 && forall i :: 0 <= i < |h| ==> SlowToHide(h[i].seen)
    ensures Decisions(start, h) <= 2 * ((h[|h| - 1].at - h[0].at) / 100) + 1
  {
    hide Decisions, SlowDecisions, LastDecisionAt, Replay, SlowToHide, Chronological;
    DecisionsArePaidFor(start, h);
    BoundFromAccount(SlowDecisions(start, h), Decisions(start, h), h[|h| - 1].at - h[0].at, 1);
  }

  // ---------------------------------------------------------------- from any state

  lemma {:induction false} DecisionsConcat(start: SuppressionPolicyState, h: seq<Sample>, g: seq<Sample>)
    ensures Decisions(start, h + g) == Decisions(start, h) + Decisions(Replay(SHIPPED_CONFIG, start, h), g)
  {
    hide ReduceSuppressionPolicy;
    if |g| == 0 {
      assert h + g == h;
    } else {
      var n := |g| - 1;
      DecisionsConcat(start, h, g[..n]);
      assert (h + g)[..|h + g| - 1] == h + g[..n];
      ReplayConcat(SHIPPED_CONFIG, start, h, g[..n]);
    }
  }

  /** The state after one sample. */
  function After(state: SuppressionPolicyState, sample: Sample): SuppressionPolicyResult {
    ReduceSuppressionPolicy(state, sample.seen, sample.at, SHIPPED_CONFIG)
  }

  /** The decisions of a history are that of its first sample, if it makes one, and those of the rest. */
  lemma DecisionsFromFront(start: SuppressionPolicyState, h: seq<Sample>)
    requires |h| > 0
    ensures var first := After(start, h[0]);
            Decisions(start, h) == Decisions(first.state, h[1..]) + if first.committedChanged then 1 else 0
  {
    hide ReduceSuppressionPolicy;
    var one := h[..1];
    assert one + h[1..] == h && one[..0] == [];
    DecisionsConcat(start, one, h[1..]);
    assert Replay(SHIPPED_CONFIG, start, one) == After(start, h[0]).state;
    assert Decisions(start, one) == Decisions(start, one[..0]) + if Changes(start, one) then 1 else 0;
  }

  lemma DecisionsSettle(state: SuppressionPolicyState, sample: Sample)
    ensures After(state, sample).committedChanged ==> !Waiting(After(state, sample).state)
  {
  }

  lemma RestInOrder(h: seq<Sample>)
    requires Chronological(h) && |h| > 1 && forall i :: 0 <= i < |h| ==> SlowToHide(h[i].seen)
    ensures var rest := h[1..];
            && Chronological(rest) && rest[|rest| - 1] == h[|h| - 1] && h[0].at <= rest[0].at
            && forall i :: 0 <= i < |rest| ==> SlowToHide(rest[i].seen)
  {
    hide SlowToHide;
    var rest := h[1..];
    assert forall i :: 0 <= i < |rest| ==> rest[i] == h[i + 1];
  }

  /** Over a stretch that begins in any state the bound is the same, plus one if a change was waiting
      when it began. */
  lemma {:induction false} FlickerFromAnywhere(start: SuppressionPolicyState, h: seq<Sample>)
    requires Chronological(h) && |h| > 0 && forall i :: 0 <= i < |h| ==> SlowToHide(h[i].seen)
    ensures Decisions(start, h) <= 2 * ((h[|h| - 1].at - h[0].at) / 100) + if Waiting(start) then 2 else 1
    decreases |h|
  {
    hide Decisions, Chronological, SlowToHide, After, Waiting;
    if !Waiting(start) {
      FlickerOfHistory(start, h);
    } else {
      DecisionsFromFront(start, h);
      DecisionsSettle(start, h[0]);
      if |h| > 1 {
        RestInOrder(h);
        FlickerFromAnywhere(After(start, h[0]).state, h[1..]);
      } else {
        NoSamplesNoDecisions(After(start, h[0]).state, h[1..]);
      }
    }
  }

  lemma NoSamplesNoDecisions(start: SuppressionPolicyState, h: seq<Sample>)
    requires h == []
    ensures Decisions(start, h) == 0
  {
  }

  /** `h` flickers more than any history from a settled state can. */
  ghost predicate Exceeds(start: SuppressionPolicyState, h: seq<Sample>) {
    && Chronological(h) && |h| > 0 && (forall i :: 0 <= i < |h| ==> SlowToHide(h[i].seen))
    && Decisions(start, h) > 2 * ((h[|h| - 1].at - h[0].at) / 100) + 1
  }

  /** The plain bound can be exceeded exactly from the states in which a change is waiting. */
  lemma WaitingIsWhatItTakes(start: SuppressionPolicyState)
    ensures (exists h :: Exceeds(start, h)) <==> Waiting(start)
  {
    hide Decisions, Waiting, Chronological, SlowToHide;
    if h :| Exceeds(start, h) {
      FlickerFromAnywhere(start, h);
    }
    if Waiting(start) {
      var h := WaitingChangeIsExtra(start);
      assert Exceeds(start, h);
    }
  }

  /** From every state in which a change is waiting, two looks in the same millisecond make two decisions:
      the awaited change is due, and at once gives way to a slide show. */
  lemma WaitingChangeIsExtra(start: SuppressionPolicyState) returns (h: seq<Sample>)
    requires Waiting(start)
    ensures Chronological(h) && |h| == 2 && h[0].at == h[1].at && SlowToHide(h[0].seen) && SlowToHide(h[1].seen)
    ensures Decisions(start, h) == 2
  {
    hide Decisions;
    var awaited := SuppressionObservation(true, start.candidate, start.candidateProfile);
    var due := (start.candidateSinceMs + RequiredDelay(SHIPPED_CONFIG, awaited)) % UINT64_MODULUS;
    h := [Sample(due, awaited), Sample(due, SuppressionObservation(true, FullscreenPresentation, Fast))];
    assert Elapsed64(due, start.candidateSinceMs) == RequiredDelay(SHIPPED_CONFIG, awaited);
    var first := After(start, h[0]);
    assert first.committedChanged && first.state == Settled(start.candidate);
    DecisionsFromFront(start, h);
    DecisionsFromFront(first.state, h[1..]);
    NoSamplesNoDecisions(After(first.state, h[1..][0]).state, h[1..][1..]);
  }

  const SLIDESHOW := Scene(Visible, false, PresentationMode, true, Covers(true), true, false)

  const BACK_IN_EDITOR := Scene(Visible, false, AcceptsNotifications, true, CoverageClear, true, true)

  /** A slide show that ends and starts again every 100 ms. */
  ghost function Flapping(first: Look, k: nat): seq<Look> {
    if k == 0 then [first]
    else Flapping(first, k - 1) + [Look(100 * (k - 1), BACK_IN_EDITOR), Look(100 * k, BACK_IN_EDITOR),
                                   Look(100 * k, SLIDESHOW)]
  }

  lemma {:induction false} FlappingIsChronological(first: Look, k: nat)
    requires first.at == 0
    ensures var looks := Flapping(first, k);
            && |looks| > 0 && looks[0].at == 0 && looks[|looks| - 1].at == 100 * k
            && (forall i, j :: 0 <= i <= j < |looks| ==> looks[i].at <= looks[j].at)
  {
    if k > 0 {
      FlappingIsChronological(first, k - 1);
    }
  }

  lemma FlappingUnfolds(first: Look, k: nat)
    requires k > 0
    ensures var t := 100 * (k - 1);
            Flapping(first, k) ==
            Flapping(first, k - 1) + [Look(t, BACK_IN_EDITOR)] + [Look(t + 100, BACK_IN_EDITOR)]
              + [Look(t + 100, SLIDESHOW)]
  {
  }

  lemma {:induction false} FlappingDecisions(start: SuppressionPolicyState, first: Look, k: nat)
    requires 100 * k < UINT64_MODULUS
    requires Watch(start, [first]) == Settled(FullscreenPresentation) && DecisionsOf(start, [first]) == 1
    ensures Watch(start, Flapping(first, k)) == Settled(FullscreenPresentation)
    ensures DecisionsOf(start, Flapping(first, k)) == 2 * k + 1
  {
    hide Watch, DecisionsOf;
    if k > 0 {
      FlappingDecisions(start, first, k - 1);
      FlappingUnfolds(first, k);
      FlapOnce(start, Flapping(first, k - 1), Flapping(first, k), 100 * (k - 1));
    }
  }

  lemma FirstFlap(start: SuppressionPolicyState, first: Look)
    requires start == Settled(None) && first == Look(0, SLIDESHOW)
    ensures Watch(start, [first]) == Settled(FullscreenPresentation)
    ensures DecisionsOf(start, [first]) == 1
  {
    FlapSteps(0);
    var none: seq<Look> := [];
    assert none + [first] == [first];
    DecisionStep(start, none, first);
  }

  /** The bound of `FlickerIsBounded` is met with equality for every length of run. */
  lemma FlickerBoundIsTight(start: SuppressionPolicyState, first: Look, k: nat)
    requires start == Settled(None) && first == Look(0, SLIDESHOW) && 100 * k < UINT64_MODULUS
    ensures var looks := Flapping(first, k);
            && |looks| > 0 && (forall i, j :: 0 <= i <= j < |looks| ==> looks[i].at <= looks[j].at)
            && looks[|looks| - 1].at - looks[0].at == 100 * k
            && DecisionsOf(start, looks) == 2 * (100 * k / 100) + 1
  {
    hide Watch, DecisionsOf, Flapping, ReduceSuppressionPolicy, ObserveSuppression;
    FlappingIsChronological(first, k);
    FirstFlap(start, first);
    FlappingDecisions(start, first, k);
  }

  /** One look back at the editor starts a fast exit, a second one 100 ms later commits it, and the
      next slide show commits at once. */
  lemma FlapSteps(t: nat)
    requires t + 100 < UINT64_MODULUS
    ensures var full := Settled(FullscreenPresentation);
            var left := SuppressionPolicyState(FullscreenPresentation, None, t, true, Fast);
            && ReduceSuppressionPolicy(full, ObserveSuppression(BACK_IN_EDITOR, FullscreenPresentation), t,
                                       SHIPPED_CONFIG)
               == SuppressionPolicyResult(left, 0, 100, false)
            && ReduceSuppressionPolicy(left, ObserveSuppression(BACK_IN_EDITOR, FullscreenPresentation), t + 100,
                                       SHIPPED_CONFIG)
               == SuppressionPolicyResult(Settled(None), 100, 100, true)
            && ReduceSuppressionPolicy(Settled(None), ObserveSuppression(SLIDESHOW, None), t + 100, SHIPPED_CONFIG)
               == SuppressionPolicyResult(full, 0, 0, true)
  {
    assert Elapsed64(t + 100, t) == 100;
  }

  lemma FlapOnce(start: SuppressionPolicyState, a: seq<Look>, d: seq<Look>, t: nat)
    requires t + 100 < UINT64_MODULUS && Watch(start, a) == Settled(FullscreenPresentation)
    requires d == a + [Look(t, BACK_IN_EDITOR)] + [Look(t + 100, BACK_IN_EDITOR)] + [Look(t + 100, SLIDESHOW)]
    ensures Watch(start, d) == Settled(FullscreenPresentation)
    ensures DecisionsOf(start, d) == DecisionsOf(start, a) + 2
  {
    FlapSteps(t);
    var b := a + [Look(t, BACK_IN_EDITOR)];
    DecisionStep(start, a, Look(t, BACK_IN_EDITOR));
    DecisionStep(start, b, Look(t + 100, BACK_IN_EDITOR));
    DecisionStep(start, b + [Look(t + 100, BACK_IN_EDITOR)], Look(t + 100, SLIDESHOW));
  }

  /** One more look, seen through the state it meets. */
  lemma DecisionStep(start: SuppressionPolicyState, looks: seq<Look>, look: Look)
    ensures var before := Watch(start, looks);
            var step := ReduceSuppressionPolicy(before, ObserveSuppression(look.scene, before.committed), look.at,
                                                SHIPPED_CONFIG);
            && Watch(start, looks + [look]) == step.state
            && DecisionsOf(start, looks + [look]) == DecisionsOf(start, looks) + if step.committedChanged then 1 else 0
  {
    var more := looks + [look];
    assert more[..|more| - 1] == looks;
  }
}
