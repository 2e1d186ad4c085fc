/** The busiest GPU engine, from samples that each belong to one process on one engine. Utilizations
    are exact reals here; rounding is not modelled. */
module GpuEngines {

  // ---------------------------------------------------------------- engine keys

  const MARKERS: seq<string> := ["_luid_", "_phys_", "_eng_", "_engtype_"]

  predicate OccursAt(s: string, marker: string, p: nat) {
    p + |marker| <= |s| && s[p..p + |marker|] == marker
  }

  /** One of the first `n` markers starts at `p`. */
  predicate MarkedBy(s: string, p: nat, n: nat)
    requires n <= |MARKERS|
  {
    exists m :: 0 <= m < n && OccursAt(s, MARKERS[m], p)
  }

  predicate Marked(s: string, p: nat) {
    MarkedBy(s, p, |MARKERS|)
  }

  lemma OneMoreMarker(s: string, p: nat, m: nat)
    requires m < |MARKERS|
    ensures MarkedBy(s, p, m + 1) <==> MarkedBy(s, p, m) || OccursAt(s, MARKERS[m], p)
  {
  }

  /** The key of a name: what is left of it from its first marker on, or all of it. */
  function KeyOf(s: string): string {
    var p := FirstMark(s, 0);
    if p == |s| then s else s[p..]
  }

  /** The first marked position from `from` on, or the end. */
  function FirstMark(s: string, from: nat): (p: nat)
    requires from <= |s|
    ensures from <= p <= |s|
    ensures p < |s| ==> Marked(s, p)
    ensures forall q :: from <= q < p ==> !Marked(s, q)
    decreases |s| - from
  {
    if from == |s| || Marked(s, from) then from else FirstMark(s, from + 1)
  }

  /** `std::wstring_view::find`; the length of `s` stands for "not found". */
  method Find(s: string, marker: string) returns (p: nat)
    requires marker != ""
    ensures p <= |s|
    ensures p < |s| ==> OccursAt(s, marker, p)
    ensures forall q :: 0 <= q < p ==> !OccursAt(s, marker, q)
  {
    p := 0;
    while p < |s| && !OccursAt(s, marker, p)
      invariant p <= |s|
      invariant forall q :: 0 <= q < p ==> !OccursAt(s, marker, q)
    {
      p := p + 1;
    }
  }

  method CanonicalGpuEngineKey(name: string) returns (key: string)
    ensures key == KeyOf(name)
  {
    var keyStart: nat := |name|;
    var m := 0;
    while m < |MARKERS|
      invariant m <= |MARKERS| && keyStart <= |name|
      invariant keyStart < |name| ==> MarkedBy(name, keyStart, m)
      invariant forall q :: 0 <= q < keyStart ==> !MarkedBy(name, q, m)
    {
      var position := Find(name, MARKERS[m]);
      ghost var before, more := keyStart, m + 1;
      if position < keyStart {
        keyStart := position;
      }
      if keyStart < |name| {
        OneMoreMarker(name, keyStart, m);
      }
      forall q | 0 <= q < keyStart ensures !MarkedBy(name, q, more) {
        assert q < before && q < position;
        OneMoreMarker(name, q, m);
      }
      m := m + 1;
    }
    FirstMarkIs(name, keyStart);
    key := if keyStart == |name| then name else name[keyStart..];
  }

  lemma FirstMarkIs(s: string, p: nat)
    requires p <= |s| && (p < |s| ==> Marked(s, p)) && forall q :: 0 <= q < p ==> !Marked(s, q)
    ensures FirstMark(s, 0) == p
  {
  }

  lemma MarkedInSuffix(s: string, from: nat, p: nat)
    requires from <= |s|
    ensures Marked(s[from..], p) <==> Marked(s, from + p)
  {
    forall m | 0 <= m < |MARKERS| ensures OccursAt(s[from..], MARKERS[m], p) <==> OccursAt(s, MARKERS[m], from + p) {
      var n := |MARKERS[m]|;
      if from + p + n <= |s| {
        assert s[from..][p..p + n] == s[from + p..from + p + n];
      }
    }
  }

  lemma FirstMarkOfSuffix(s: string, from: nat)
    requires from <= FirstMark(s, 0)
    ensures FirstMark(s[from..], 0) == FirstMark(s, 0) - from
  {
    var p := FirstMark(s, 0);
    MarkedInSuffix(s, from, p - from);
    forall q | 0 <= q < p - from ensures !Marked(s[from..], q) {
      MarkedInSuffix(s, from, q);
    }
    FirstMarkIs(s[from..], p - from);
  }

  /** Taking the key twice changes nothing, and only the empty name has the empty key. */
  lemma KeyIsCanonical(s: string)
    ensures KeyOf(KeyOf(s)) == KeyOf(s)
    ensures KeyOf(s) == "" <==> s == ""
  {
    var p := FirstMark(s, 0);
    FirstMarkOfSuffix(s, p);
  }

  /** What stands before the first marker, such as a process id, does not matter. */
  lemma KeyForgetsPrefix(prefix: string, s: string)
    requires Marked(s, 0) && forall p :: 0 <= p < |prefix| ==> !Marked(prefix + s, p)
    ensures KeyOf(prefix + s) == KeyOf(s) == s
  {
    assert |s| > 0 by { MarkIsInside(s, 0); }
    hide Marked;
    assert (prefix + s)[|prefix|..] == s && s[0..] == s;
    MarkedInSuffix(prefix + s, |prefix|, 0);
    FirstMarkIs(prefix + s, |prefix|);
    FirstMarkIs(s, 0);
  }

  lemma MarkIsInside(s: string, p: nat)
    requires Marked(s, p)
    ensures p < |s|
  {
  }

  // ---------------------------------------------------------------- totals

  datatype Sample = Sample(name: string, utilization: real)

  function AtLeastZero(x: real): real {
    if x < 0.0 then 0.0 else x
  }

  /** The sum of the utilizations with this key. */
  ghost function TotalOf(samples: seq<Sample>, key: string): (total: real)
    ensures total >= 0.0
  {
    if |samples| == 0 then 0.0
    else
      var last := samples[|samples| - 1];
      TotalOf(samples[..|samples| - 1], key) + if KeyOf(last.name) == key then AtLeastZero(last.utilization) else 0.0
  }

  /** `x` is at least every engine total, and every sample without a name. */
  ghost predicate Covers(samples: seq<Sample>, x: real) {
    && x >= 0.0
    && (forall key :: key != "" ==> TotalOf(samples, key) <= x)
    && (forall i :: 0 <= i < |samples| && samples[i].name == "" ==> samples[i].utilization <= x)
  }

  /** `x` is reached by an engine total or by a sample without a name, or nothing is used at all. */
  ghost predicate IsReached(samples: seq<Sample>, x: real) {
    || x == 0.0
    || (exists key :: key != "" && TotalOf(samples, key) == x)
    || (exists i :: 0 <= i < |samples| && samples[i].name == "" && samples[i].utilization == x)
  }

  /** `x` is the utilization of the busiest engine. */
  ghost predicate IsBusiest(samples: seq<Sample>, x: real) {
    Covers(samples, x) && IsReached(samples, x)
  }

  function Larger(a: real, b: real): real {
    if a < b then b else a
  }

  lemma TotalGrows(samples: seq<Sample>, key: string)
    requires |samples| > 0
    ensures var last := samples[|samples| - 1];
            TotalOf(samples, key) == TotalOf(samples[..|samples| - 1], key)
                                     + if KeyOf(last.name) == key then AtLeastZero(last.utilization) else 0.0
  {
    hide KeyOf;
  }

  lemma ReachedStays(samples: seq<Sample>, x: real)
    requires |samples| > 0 && IsReached(samples[..|samples| - 1], x)
    requires TotalOf(samples, KeyOf(samples[|samples| - 1].name)) <= x || samples[|samples| - 1].name == ""
    requires Covers(samples[..|samples| - 1], x)
    ensures IsReached(samples, x)
  {
    var n := |samples| - 1;
    KeyIsCanonical(samples[n].name);
    hide KeyOf, TotalOf;
    if key :| key != "" && TotalOf(samples[..n], key) == x {
      TotalGrows(samples, key);
      assert TotalOf(samples, key) == x;
    } else if i :| 0 <= i < n && samples[..n][i].name == "" && samples[..n][i].utilization == x {
      assert samples[i].name == "";
    }
  }

  /** A sample without a name stands for itself. */
  lemma UnnamedSample(samples: seq<Sample>, busiest: real)
    requires |samples| > 0 && samples[|samples| - 1].name == "" && IsBusiest(samples[..|samples| - 1], busiest)
    ensures IsBusiest(samples, Larger(busiest, AtLeastZero(samples[|samples| - 1].utilization)))
  {
    hide KeyOf, TotalOf;
    var n := |samples| - 1;
    ReachedStays(samples, busiest);
    UnnamedTotals(samples);
    forall i | 0 <= i < n && samples[i].name == "" ensures samples[i].utilization <= busiest {
      assert samples[..n][i] == samples[i];
    }
  }

  lemma UnnamedTotals(samples: seq<Sample>)
    requires |samples| > 0 && samples[|samples| - 1].name == ""
    ensures forall key :: key != "" ==> TotalOf(samples, key) == TotalOf(samples[..|samples| - 1], key)
  {
    KeyIsCanonical(samples[|samples| - 1].name);
    hide KeyOf;
  }

  /** A sample with a name only moves the total of its key, and never down. */
  lemma NamedSample(samples: seq<Sample>, busiest: real)
    requires |samples| > 0 && samples[|samples| - 1].name != "" && IsBusiest(samples[..|samples| - 1], busiest)
    ensures IsBusiest(samples, Larger(busiest, TotalOf(samples, KeyOf(samples[|samples| - 1].name))))
  {
    var n := |samples| - 1;
    KeyIsCanonical(samples[n].name);
    var key := KeyOf(samples[n].name);
    NamedCovers(samples, busiest, key);
    hide KeyOf, Covers;
    if TotalOf(samples, key) <= busiest {
      ReachedStays(samples, busiest);
    }
  }

  lemma NamedCovers(samples: seq<Sample>, busiest: real, key: string)
    requires |samples| > 0 && samples[|samples| - 1].name != "" && key == KeyOf(samples[|samples| - 1].name)
    requires Covers(samples[..|samples| - 1], busiest)
    ensures Covers(samples, Larger(busiest, TotalOf(samples, key)))
  {
    OtherTotals(samples, key);
    var larger := Larger(busiest, TotalOf(samples, key));
    forall k | k != "" ensures TotalOf(samples, k) <= larger {
      assert k == key || TotalOf(samples, k) == TotalOf(samples[..|samples| - 1], k);
    }
    hide TotalOf, KeyOf;
    forall i | 0 <= i < |samples| && samples[i].name == "" ensures samples[i].utilization <= larger {
      assert samples[..|samples| - 1][i] == samples[i];
    }
  }

  lemma OtherTotals(samples: seq<Sample>, key: string)
    requires |samples| > 0 && KeyOf(samples[|samples| - 1].name) == key
    ensures forall k :: k != key ==> TotalOf(samples, k) == TotalOf(samples[..|samples| - 1], k)
  {
    hide KeyOf;
  }

  /** The map holds the total of every engine seen so far. */
  ghost predicate Tallies(totals: map<string, real>, samples: seq<Sample>) {
    forall key :: key != "" ==> TotalOf(samples, key) == if key in totals then totals[key] else 0.0
  }

  lemma NothingTallied(samples: seq<Sample>)
    requires samples == []
    ensures Tallies(map[], samples) && IsBusiest(samples, 0.0)
  {
  }

  lemma TallyStep(totals: map<string, real>, samples: seq<Sample>)
    requires |samples| > 0 && KeyOf(samples[|samples| - 1].name) != "" && Tallies(totals, samples[..|samples| - 1])
    ensures var last := samples[|samples| - 1];
            var key := KeyOf(last.name);
            var total := (if key in totals then totals[key] else 0.0) + AtLeastZero(last.utilization);
            total == TotalOf(samples, key) && Tallies(totals[key := total], samples)
  {
    hide KeyOf;
    OtherTotals(samples, KeyOf(samples[|samples| - 1].name));
  }

  lemma UnnamedTally(totals: map<string, real>, samples: seq<Sample>)
    requires |samples| > 0 && KeyOf(samples[|samples| - 1].name) == "" && Tallies(totals, samples[..|samples| - 1])
    ensures Tallies(totals, samples)
  {
    hide KeyOf;
    OtherTotals(samples, "");
  }

  method AggregateBusiestGpuEngine(samples: seq<Sample>) returns (result: real)
    ensures 0.0 <= result <= 100.0
    ensures exists busiest :: IsBusiest(samples, busiest) && result == if busiest > 100.0 then 100.0 else busiest
  {
    hide TotalOf, KeyOf, Tallies, IsBusiest;
    var totals: map<string, real> := map[];
    var busiest := 0.0;
    var i := 0;
    NothingTallied(samples[..i]);
    while i < |samples|
      invariant i <= |samples|
      invariant Tallies(totals, samples[..i])
      invariant busiest >= 0.0 && IsBusiest(samples[..i], busiest)
    {
      var sample := samples[i];
      var utilization := AtLeastZero(sample.utilization);
      var key := CanonicalGpuEngineKey(sample.name);
      KeyIsCanonical(sample.name);
      assert samples[..i + 1][..i] == samples[..i];
      if key == "" {
        UnnamedTally(totals, samples[..i + 1]);
        UnnamedSample(samples[..i + 1], busiest);
        busiest := if utilization > busiest then utilization else busiest;
      } else {
        var total := (if key in totals then totals[key] else 0.0) + utilization;
        TallyStep(totals, samples[..i + 1]);
        totals := totals[key := total];
        NamedSample(samples[..i + 1], busiest);
        busiest := if total > busiest then total else busiest;
      }
      i := i + 1;
    }
    assert samples[..i] == samples;
    result := if busiest > 100.0 then 100.0 else busiest;
  }

  // ---------------------------------------------------------------- the order of the samples

  /** A sample adds to the total of its key wherever it stands. */
  lemma {:induction false} TotalWithout(samples: seq<Sample>, i: nat, key: string)
    requires i < |samples|
    ensures TotalOf(samples, key) == TotalOf(samples[..i] + samples[i + 1..], key)
                                     + if KeyOf(samples[i].name) == key then AtLeastZero(samples[i].utilization)
                                       else 0.0
  {
    hide KeyOf;
    var n := |samples| - 1;
    var rest := samples[..i] + samples[i + 1..];
    if i == n {
      assert rest == samples[..n];
    } else {
      TotalWithout(samples[..n], i, key);
      assert rest[..n - 1] == samples[..n][..i] + samples[..n][i + 1..];
      assert rest[n - 1] == samples[n];
    }
  }

  lemma {:induction false} TotalOfPermutation(a: seq<Sample>, b: seq<Sample>, key: string)
    requires multiset(a) == multiset(b)
    ensures TotalOf(a, key) == TotalOf(b, key)
  {
    hide KeyOf, AtLeastZero;
    assert |multiset(a)| == |a| && |multiset(b)| == |b|;
    if |a| > 0 {
      var n := |a| - 1;
      var i := Place(b, a[n]);
      SameWithoutOne(a, b, i);
      TotalOfPermutation(a[..n], b[..i] + b[i + 1..], key);
      TotalWithout(b, i, key);
    }
  }

  lemma Place(b: seq<Sample>, sample: Sample) returns (i: nat)
    requires sample in multiset(b)
    ensures i < |b| && b[i] == sample
  {
    i :| i < |b| && b[i] == sample;
  }

  lemma WithoutOne(b: seq<Sample>, i: nat)
    requires i < |b|
    ensures multiset(b) == multiset(b[..i] + b[i + 1..]) + multiset{b[i]}
  {
    assert b == b[..i] + [b[i]] + b[i + 1..];
  }

  lemma SameWithoutOne(a: seq<Sample>, b: seq<Sample>, i: nat)
    requires multiset(a) == multiset(b) && |a| > 0 && i < |b| && b[i] == a[|a| - 1]
    ensures multiset(a[..|a| - 1]) == multiset(b[..i] + b[i + 1..])
  {
    var n := |a| - 1;
    WithoutOne(a, n);
    WithoutOne(b, i);
    assert a[..n] + a[n + 1..] == a[..n];
    assert multiset(a[..n]) == multiset(a) - multiset{a[n]};
    assert multiset(b[..i] + b[i + 1..]) == multiset(b) - multiset{a[n]};
  }

  lemma CoverInAnyOrder(a: seq<Sample>, b: seq<Sample>, x: real)
    requires multiset(a) == multiset(b) && Covers(a, x)
    ensures Covers(b, x)
  {
    forall key | key != "" ensures TotalOf(b, key) <= x {
      TotalOfPermutation(a, b, key);
    }
    hide TotalOf;
    forall i | 0 <= i < |b| && b[i].name == "" ensures b[i].utilization <= x {
      var j := Place(a, b[i]);
    }
  }

  /** The busiest engine does not depend on the order in which the samples are listed. */
  lemma OrderDoesNotMatter(a: seq<Sample>, b: seq<Sample>, x: real, y: real)
    requires multiset(a) == multiset(b) && IsBusiest(a, x) && IsBusiest(b, y)
    ensures x == y
  {
    CoverInAnyOrder(a, b, x);
    CoverInAnyOrder(b, a, y);
    ReachedIsCovered(a, x, y);
    ReachedIsCovered(b, y, x);
  }

  lemma ReachedIsCovered(samples: seq<Sample>, x: real, y: real)
    requires IsReached(samples, x) && Covers(samples, y)
    ensures x <= y
  {
  }
}
