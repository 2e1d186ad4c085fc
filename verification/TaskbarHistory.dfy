/** The taskbar identity reducer against a specification that scans the whole observation history. */
module TaskbarHistory {
  import opened OverlayPolicy

  datatype Sighting = Sighting(at: nat, seen: TaskbarIdentity)

  ghost predicate Chronological(h: seq<Sighting>) {
    && (forall i :: 0 <= i < |h| ==> h[i].at < UINT64_MODULUS)
    && (forall i, j :: 0 <= i <= j < |h| ==> h[i].at <= h[j].at)
  }

  /** A state that holds `committed` and waits for nothing. */
  function Holding(committed: TaskbarIdentity): TaskbarIdentityState {
    TaskbarIdentityState(committed, committed, 0, false)
  }

  ghost function Replay(settleMs: nat, start: TaskbarIdentityState, h: seq<Sighting>): TaskbarIdentityState {
    if |h| == 0 then start
    else
      var n := |h| - 1;
      ReduceTaskbarIdentity(Replay(settleMs, start, h[..n]), h[n].seen, h[n].at, settleMs).state
  }

  ghost predicate UnbrokenFrom(h: seq<Sighting>, s: nat) {
    forall k :: s <= k < |h| ==> h[k].seen == h[|h| - 1].seen
  }

  /** A real identity other than `committed` has been seen twice or more in a row, over the settle delay. */
  ghost predicate Due(settleMs: nat, committed: TaskbarIdentity, h: seq<Sighting>) {
    |h| > 1 &&
    var last := h[|h| - 1];
    && IsReal(last.seen)
    && last.seen != committed
    && exists s :: 0 <= s < |h| - 1 && UnbrokenFrom(h, s) && last.at - h[s].at >= settleMs
  }

  ghost function CommittedBy(settleMs: nat, initial: TaskbarIdentity, h: seq<Sighting>): TaskbarIdentity {
    if |h| == 0 then initial
    else
      var before := CommittedBy(settleMs, initial, h[..|h| - 1]);
      if Due(settleMs, before, h) then h[|h| - 1].seen else before
  }

  /** `s` is the first step of the unbroken run that ends `h`. */
  ghost predicate RunStart(h: seq<Sighting>, s: nat) {
    s < |h| && UnbrokenFrom(h, s) && (s > 0 ==> h[s - 1].seen != h[|h| - 1].seen)
  }

  ghost predicate CandidateIsRun(state: TaskbarIdentityState, h: seq<Sighting>) {
    if state.candidateActive then
      && |h| > 0
      && h[|h| - 1].seen == state.candidate
      && IsReal(state.candidate)
      && state.candidate != state.committed
      && exists s: nat :: RunStart(h, s) && h[s].at == state.candidateSinceMs
    else
      |h| > 0 ==> !IsReal(h[|h| - 1].seen) || h[|h| - 1].seen == state.committed
  }

  lemma RunExtends(h: seq<Sighting>, s: nat)
    requires |h| > 1 && RunStart(h[..|h| - 1], s)
    ensures h[|h| - 1].seen == h[|h| - 2].seen ==> RunStart(h, s)
    ensures h[|h| - 1].seen != h[|h| - 2].seen ==> RunStart(h, |h| - 1)
  {
    var before := h[..|h| - 1];
    assert before[|before| - 1] == h[|h| - 2];
    forall k | s <= k < |before| ensures h[k].seen == h[|h| - 2].seen {
      assert before[k] == h[k];
    }
  }

  /** A repeated observation: the oldest equal step is where the candidate started. */
  lemma ContinuedRun(h: seq<Sighting>, s: nat, delay: nat)
    requires Chronological(h) && |h| > 1 && RunStart(h, s) && s < |h| - 1
    ensures (exists o :: 0 <= o < |h| - 1 && UnbrokenFrom(h, o) && h[|h| - 1].at - h[o].at >= delay)
       <==> h[|h| - 1].at - h[s].at >= delay
  {
    forall o | 0 <= o < |h| - 1 && UnbrokenFrom(h, o) ensures h[s].at <= h[o].at {
      assert s <= o;
    }
  }

  /** A first sighting is never due. */
  lemma FirstSighting(h: seq<Sighting>)
    requires |h| > 0 && (|h| > 1 ==> h[|h| - 2].seen != h[|h| - 1].seen)
    ensures RunStart(h, |h| - 1)
    ensures forall o :: 0 <= o < |h| - 1 ==> !UnbrokenFrom(h, o)
  {
    forall o | 0 <= o < |h| - 1 ensures !UnbrokenFrom(h, o) {
      assert h[|h| - 2].seen != h[|h| - 1].seen;
    }
  }

  /** One step of the refinement. */
  lemma StepRefines(settleMs: nat, before: TaskbarIdentityState, h: seq<Sighting>)
    requires Chronological(h) && |h| > 0
    requires CandidateIsRun(before, h[..|h| - 1])
    ensures var last := h[|h| - 1];
            var after := ReduceTaskbarIdentity(before, last.seen, last.at, settleMs).state;
            && CandidateIsRun(after, h)
            && after.committed == if Due(settleMs, before.committed, h) then last.seen else before.committed
  {
    var n := |h| - 1;
    var last := h[n];
    if n > 0 {
      assert h[..n][n - 1] == h[n - 1];
    }
    if IsReal(last.seen) && last.seen != before.committed {
      if before.candidateActive && before.candidate == last.seen {
        var s: nat :| RunStart(h[..n], s) && h[..n][s].at == before.candidateSinceMs;
        RunExtends(h, s);
        ContinuedRun(h, s, settleMs);
        assert Elapsed64(last.at, h[s].at) == last.at - h[s].at;
      } else {
        FirstSighting(h);
      }
    }
  }

  /** The reducer commits exactly what the history specification commits. */
  lemma {:induction false} ReducerRefinesHistory(settleMs: nat, initial: TaskbarIdentity, h: seq<Sighting>)
    requires Chronological(h)
    ensures CandidateIsRun(Replay(settleMs, Holding(initial), h), h)
    ensures Replay(settleMs, Holding(initial), h).committed == CommittedBy(settleMs, initial, h)
  {
    if |h| > 0 {
      ReducerRefinesHistory(settleMs, initial, h[..|h| - 1]);
      StepRefines(settleMs, Replay(settleMs, Holding(initial), h[..|h| - 1]), h);
    }
  }

  /** Once real, the committed identity is never null again, whatever the clock does. */
  lemma {:induction false} CommittedStaysReal(settleMs: nat, start: TaskbarIdentityState, h: seq<Sighting>, i: nat)
    requires i <= |h| && IsReal(Replay(settleMs, start, h[..i]).committed)
    ensures IsReal(Replay(settleMs, start, h).committed)
  {
    if i == |h| {
      assert h[..i] == h;
    } else {
      var n := |h| - 1;
      assert h[..n][..i] == h[..i];
      CommittedStaysReal(settleMs, start, h[..n], i);
    }
  }
}
