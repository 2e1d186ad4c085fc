/** The suppression reducer against a specification that scans the whole observation history. */
module SuppressionHistory {
  import opened OverlayPolicy

  /** One observation and the time it was made. */
  datatype Sample = Sample(at: nat, seen: SuppressionObservation)

  /** 64-bit times that never go back. */
  ghost predicate Chronological(h: seq<Sample>) {
    && (forall i :: 0 <= i < |h| ==> h[i].at < UINT64_MODULUS)
    && (forall i, j :: 0 <= i <= j < |h| ==> h[i].at <= h[j].at)
  }

  /** The reducer folded over a history. */
  ghost function Replay(config: SuppressionPolicyConfig, start: SuppressionPolicyState,
                        h: seq<Sample>): SuppressionPolicyState {
    if |h| == 0 then start
    else
      var n := |h| - 1;
      ReduceSuppressionPolicy(Replay(config, start, h[..n]), h[n].seen, h[n].at, config).state
  }

  /** The same observation was made at every step from `s` to the end of `h`. */
  ghost predicate UnbrokenFrom(h: seq<Sample>, s: nat) {
    forall k :: s <= k < |h| ==> h[k].seen == h[|h| - 1].seen
  }

  /** The last observation is known, differs from `committed`, and has been repeated for its delay. */
  ghost predicate Due(config: SuppressionPolicyConfig, committed: SuppressionReason, h: seq<Sample>) {
    |h| > 0 &&
    var last := h[|h| - 1];
    && last.seen.known
    && last.seen.reason != committed
    && exists s :: 0 <= s < |h| && UnbrokenFrom(h, s) && last.at - h[s].at >= RequiredDelay(config, last.seen)
  }

  /** The specification: no candidate, no timers, only the history. */
  ghost function CommittedBy(config: SuppressionPolicyConfig, initial: SuppressionReason,
                             h: seq<Sample>): SuppressionReason {
    if |h| == 0 then initial
    else
      var before := CommittedBy(config, initial, h[..|h| - 1]);
      if Due(config, before, h) then h[|h| - 1].seen.reason else before
  }

  /** The candidate, when there is one, is the unbroken run that ends the history. */
  ghost predicate CandidateIsRun(state: SuppressionPolicyState, h: seq<Sample>) {
    if state.candidateActive then
      && |h| > 0
      && h[|h| - 1].seen == SuppressionObservation(true, state.candidate, state.candidateProfile)
      && state.candidate != state.committed
      && exists s: nat :: RunStart(h, s) && h[s].at == state.candidateSinceMs
    else
      |h| > 0 ==> !h[|h| - 1].seen.known || h[|h| - 1].seen.reason == state.committed
  }

  /** `s` is the first step of the unbroken run that ends `h`. */
  ghost predicate RunStart(h: seq<Sample>, s: nat) {
    s < |h| && UnbrokenFrom(h, s) && (s > 0 ==> h[s - 1].seen != h[|h| - 1].seen)
  }

  /** A repeated observation extends the run, a new one starts a run. */
  lemma RunExtends(h: seq<Sample>, s: nat)
    requires |h| > 1 && RunStart(h[..|h| - 1], s)
    ensures h[|h| - 1].seen == h[|h| - 2].seen ==> RunStart(h, s)
    ensures h[|h| - 1].seen != h[|h| - 2].seen ==> RunStart(h, |h| - 1)
  {
    var before := h[..|h| - 1];
    assert before[|before| - 1] == h[|h| - 2];
    forall k | s <= k < |before| ensures h[k].seen == h[|h| - 2].seen {
      assert before[k] == h[k];
    }
  }

  /** The oldest equal step decides whether the delay has been met. */
  lemma DueFromRunStart(h: seq<Sample>, s: nat, delay: nat)
    requires Chronological(h) && RunStart(h, s)
    ensures (exists o :: 0 <= o < |h| && UnbrokenFrom(h, o) && h[|h| - 1].at - h[o].at >= delay)
       <==> h[|h| - 1].at - h[s].at >= delay
  {
    forall o | 0 <= o < |h| && UnbrokenFrom(h, o) ensures h[s].at <= h[o].at {
      assert s <= o;
    }
  }

  /** One step of the refinement. */
  lemma StepRefines(config: SuppressionPolicyConfig, before: SuppressionPolicyState, h: seq<Sample>)
    requires Chronological(h) && |h| > 0
    requires CandidateIsRun(before, h[..|h| - 1])
    ensures var last := h[|h| - 1];
            var after := ReduceSuppressionPolicy(before, last.seen, last.at, config).state;
            && CandidateIsRun(after, h)
            && after.committed == if Due(config, before.committed, h) then last.seen.reason else before.committed
  {
    var n := |h| - 1;
    var last := h[n];
    if n > 0 {
      assert h[..n][n - 1] == h[n - 1];
    }
    if last.seen.known && last.seen.reason != before.committed {
      var s: nat := n;
      if before.candidateActive {
        s :| RunStart(h[..n], s) && h[..n][s].at == before.candidateSinceMs;
        RunExtends(h, s);
        if last.seen != h[n - 1].seen {
          s := n;
        }
      }
      assert RunStart(h, s);
      DueFromRunStart(h, s, RequiredDelay(config, last.seen));
      assert Elapsed64(last.at, h[s].at) == last.at - h[s].at;
    }
  }

  /** The reducer commits exactly what the history specification commits. */
  lemma {:induction false} ReducerRefinesHistory(config: SuppressionPolicyConfig, initial: SuppressionReason,
                                                 h: seq<Sample>)
    requires Chronological(h)
    ensures CandidateIsRun(Replay(config, Settled(initial), h), h)
    ensures Replay(config, Settled(initial), h).committed == CommittedBy(config, initial, h)
  {
    if |h| > 0 {
      ReducerRefinesHistory(config, initial, h[..|h| - 1]);
      StepRefines(config, Replay(config, Settled(initial), h[..|h| - 1]), h);
    }
  }

  /** Replaying a concatenation is replaying the parts in turn. */
  lemma {:induction false} ReplayConcat(config: SuppressionPolicyConfig, start: SuppressionPolicyState, h: seq<Sample>,
                                        g: seq<Sample>)
    ensures Replay(config, start, h + g) == Replay(config, Replay(config, start, h), g)
  {
    if |g| == 0 {
      assert h + g == h;
    } else {
      ReplayConcat(config, start, h, g[..|g| - 1]);
      assert (h + g)[..|h + g| - 1] == h + g[..|g| - 1];
    }
  }

  /** Unknown observations keep the committed reason and discard all dwell: whatever comes after
      them is decided as if nothing but the committed reason were known. */
  lemma {:induction false} UnknownsDiscardDwell(
    config: SuppressionPolicyConfig, start: SuppressionPolicyState, h: seq<Sample>, gap: seq<Sample>, rest: seq<Sample>)
    requires |gap| > 0 && forall i :: 0 <= i < |gap| ==> !gap[i].seen.known
    ensures Replay(config, start, h + gap) == Settled(Replay(config, start, h).committed)
    ensures Replay(config, start, h + gap + rest) == Replay(config, Settled(Replay(config, start, h).committed), rest)
  {
    GapSettles(config, Replay(config, start, h), gap);
    ReplayConcat(config, start, h, gap);
    ReplayConcat(config, start, h + gap, rest);
  }

  lemma {:induction false} GapSettles(config: SuppressionPolicyConfig, start: SuppressionPolicyState, gap: seq<Sample>)
    requires |gap| > 0 && forall i :: 0 <= i < |gap| ==> !gap[i].seen.known
    ensures Replay(config, start, gap) == Settled(start.committed)
  {
    var n := |gap| - 1;
    if n > 0 {
      GapSettles(config, start, gap[..n]);
    }
  }
}
