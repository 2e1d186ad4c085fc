/** Network rates from successive snapshots of the interface table. Rates are exact reals; rounding is
    not modelled. */
module Network {
  import opened Ticks

  /** One row of the system's interface table. */
  datatype Row = Row(luid: nat, up: bool, loopback: bool, inOctets: nat, outOctets: nat)

  datatype Snapshot = EnumerationFailed | Table(rows: seq<Row>)

  datatype InterfaceSample = InterfaceSample(luid: nat, inBytes: nat, outBytes: nat, seen: bool)

  datatype Counters = Counters(inBytes: nat, outBytes: nat)

  predicate Counts(row: Row) {
    row.up && !row.loopback
  }

  // ---------------------------------------------------------------- what a sampler amounts to

  /** The counters of every interface of the table that counts; the last row of an interface wins. */
  function IndexOf(rows: seq<Row>): map<nat, Counters> {
    if |rows| == 0 then map[]
    else
      var last := rows[|rows| - 1];
      var index := IndexOf(rows[..|rows| - 1]);
      if Counts(last) then index[last.luid := Counters(last.inOctets, last.outOctets)] else index
  }

  /** No interface has two rows that count. */
  predicate DistinctRows(rows: seq<Row>) {
    forall i, j :: 0 <= i < j < |rows| && Counts(rows[i]) && Counts(rows[j]) ==> rows[i].luid != rows[j].luid
  }

  /** What a sampler remembers between snapshots. */
  datatype Memory = Memory(index: map<nat, Counters>, tick: Tick, hasSample: bool)

  function ElapsedMs(memory: Memory, now: Tick): nat {
    if memory.hasSample then TicksSince(now, memory.tick) else 0
  }

  /** Whether a row is compared with the counters remembered for its interface. */
  predicate Comparable(memory: Memory, row: Row, now: Tick) {
    && Counts(row) && row.luid in memory.index && ElapsedMs(memory, now) > 0
    && row.inOctets >= memory.index[row.luid].inBytes && row.outOctets >= memory.index[row.luid].outBytes
  }

  datatype Direction = Download | Upload

  function Octets(row: Row, direction: Direction): nat {
    if direction.Download? then row.inOctets else row.outOctets
  }

  function Bytes(counters: Counters, direction: Direction): nat {
    if direction.Download? then counters.inBytes else counters.outBytes
  }

  function Seconds(memory: Memory, now: Tick): real {
    ElapsedMs(memory, now) as real / 1000.0
  }

  /** What a row contributes to the rate, in bytes for each second. */
  function ShareOf(memory: Memory, row: Row, now: Tick, direction: Direction): real {
    if Comparable(memory, row, now)
    then (Octets(row, direction) - Bytes(memory.index[row.luid], direction)) as real / Seconds(memory, now)
    else 0.0
  }

  function Rate(memory: Memory, rows: seq<Row>, now: Tick, direction: Direction): real {
    if |rows| == 0 then 0.0
    else Rate(memory, rows[..|rows| - 1], now, direction) + ShareOf(memory, rows[|rows| - 1], now, direction)
  }

  /** The memory after a snapshot; a failed enumeration leaves it alone. */
  function Remember(memory: Memory, snapshot: Snapshot, now: Tick): Memory {
    if snapshot.EnumerationFailed? then memory else Memory(IndexOf(snapshot.rows), now, true)
  }

  lemma {:induction false} IndexHasActive(rows: seq<Row>, luid: nat)
    ensures luid in IndexOf(rows) <==> exists i :: 0 <= i < |rows| && Counts(rows[i]) && rows[i].luid == luid
  {
    if |rows| > 0 {
      var n := |rows| - 1;
      IndexHasActive(rows[..n], luid);
      if i :| 0 <= i < n && Counts(rows[..n][i]) && rows[..n][i].luid == luid {
        assert rows[i] == rows[..n][i];
      }
      if i :| 0 <= i < |rows| && Counts(rows[i]) && rows[i].luid == luid {
        assert i < n ==> rows[..n][i] == rows[i];
      }
    }
  }

  /** With distinct interfaces, the index holds the counters of each row that counts. */
  lemma {:induction false} IndexHasCounters(rows: seq<Row>, i: nat)
    requires DistinctRows(rows) && i < |rows| && Counts(rows[i])
    ensures rows[i].luid in IndexOf(rows)
            && IndexOf(rows)[rows[i].luid] == Counters(rows[i].inOctets, rows[i].outOctets)
  {
    var n := |rows| - 1;
    if i < n {
      assert rows[..n][i] == rows[i];
      IndexHasCounters(rows[..n], i);
    }
  }

  // ---------------------------------------------------------------- telescoping

  datatype Attempt = Attempt(snapshot: Snapshot, at: Tick)

  function After(memory: Memory, attempts: seq<Attempt>): Memory {
    if |attempts| == 0 then memory
    else
      var last := attempts[|attempts| - 1];
      Remember(After(memory, attempts[..|attempts| - 1]), last.snapshot, last.at)
  }

  /** The row of `luid` in a snapshot is used for the rate. */
  ghost predicate Measured(memory: Memory, attempt: Attempt, luid: nat) {
    attempt.snapshot.Table? ==>
      && DistinctRows(attempt.snapshot.rows)
      && exists i :: 0 <= i < |attempt.snapshot.rows| && attempt.snapshot.rows[i].luid == luid
                     && Comparable(memory, attempt.snapshot.rows[i], attempt.at)
  }

  /** In every successful snapshot the interface is active, its counters have not gone back, and time
      has passed. */
  ghost predicate AlwaysMeasured(memory: Memory, attempts: seq<Attempt>, luid: nat) {
    |attempts| == 0 ||
    (AlwaysMeasured(memory, attempts[..|attempts| - 1], luid)
     && Measured(After(memory, attempts[..|attempts| - 1]), attempts[|attempts| - 1], luid))
  }

  /** The contribution of one interface to a rate, times the time it covers. */
  ghost function Volume(memory: Memory, attempt: Attempt, luid: nat, direction: Direction): real
    requires Measured(memory, attempt, luid)
  {
    if attempt.snapshot.EnumerationFailed? then 0.0
    else
      var i :| 0 <= i < |attempt.snapshot.rows| && attempt.snapshot.rows[i].luid == luid
               && Comparable(memory, attempt.snapshot.rows[i], attempt.at);
      ShareOf(memory, attempt.snapshot.rows[i], attempt.at, direction) * Seconds(memory, attempt.at)
  }

  ghost function TotalVolume(memory: Memory, attempts: seq<Attempt>, luid: nat, direction: Direction): real
    requires AlwaysMeasured(memory, attempts, luid)
  {
    if |attempts| == 0 then 0.0
    else
      var n := |attempts| - 1;
      TotalVolume(memory, attempts[..n], luid, direction)
        + Volume(After(memory, attempts[..n]), attempts[n], luid, direction)
  }

  lemma VolumeIsGrowth(memory: Memory, attempt: Attempt, luid: nat, direction: Direction)
    requires Measured(memory, attempt, luid) && luid in memory.index
    ensures var after := Remember(memory, attempt.snapshot, attempt.at);
            && luid in after.index
            && Volume(memory, attempt, luid, direction)
               == (Bytes(after.index[luid], direction) - Bytes(memory.index[luid], direction)) as real
  {
    hide ShareOf, ElapsedMs, IndexOf, DistinctRows;
    if attempt.snapshot.Table? {
      var rows := attempt.snapshot.rows;
      var i :| 0 <= i < |rows| && rows[i].luid == luid && Comparable(memory, rows[i], attempt.at)
               && Volume(memory, attempt, luid, direction)
                  == ShareOf(memory, rows[i], attempt.at, direction) * Seconds(memory, attempt.at);
      IndexHasCounters(rows, i);
      ShareIsGrowth(memory, rows[i], attempt.at, direction);
    }
  }

  lemma ShareIsGrowth(memory: Memory, row: Row, now: Tick, direction: Direction)
    requires Comparable(memory, row, now)
    ensures ShareOf(memory, row, now, direction) * Seconds(memory, now)
         == (Octets(row, direction) - Bytes(memory.index[row.luid], direction)) as real
  {
    TimesSeconds((Octets(row, direction) - Bytes(memory.index[row.luid], direction)) as real, Seconds(memory, now));
  }

  lemma TimesSeconds(bytes: real, seconds: real)
    requires seconds > 0.0
    ensures bytes / seconds * seconds == bytes
  {
  }

  /** The rate contributions of an interface, each times the time it covers, add up to the bytes the
      interface has counted in that direction, also across failed enumerations. */
  lemma {:induction false} RatesTelescope(memory: Memory, attempts: seq<Attempt>, luid: nat, direction: Direction)
    requires luid in memory.index && AlwaysMeasured(memory, attempts, luid)
    ensures luid in After(memory, attempts).index
    ensures TotalVolume(memory, attempts, luid, direction)
         == (Bytes(After(memory, attempts).index[luid], direction) - Bytes(memory.index[luid], direction)) as real
  {
    if |attempts| > 0 {
      var n := |attempts| - 1;
      RatesTelescope(memory, attempts[..n], luid, direction);
      VolumeIsGrowth(After(memory, attempts[..n]), attempts[n], luid, direction);
    }
  }

  // ---------------------------------------------------------------- the sampler

  /** No interface is listed twice. */
  ghost predicate DistinctSamples(samples: seq<InterfaceSample>) {
    forall i, j :: 0 <= i < j < |samples| ==> samples[i].luid != samples[j].luid
  }

  predicate Holds(sample: InterfaceSample, index: map<nat, Counters>) {
    sample.luid in index && index[sample.luid] == Counters(sample.inBytes, sample.outBytes)
  }

  ghost predicate IsListed(samples: seq<InterfaceSample>, luid: nat) {
    exists sample :: sample in samples && sample.luid == luid
  }

  /** The samples list exactly the index. */
  ghost predicate Lists(samples: seq<InterfaceSample>, index: map<nat, Counters>) {
    && DistinctSamples(samples)
    && (forall sample :: sample in samples ==> Holds(sample, index))
    && (forall luid :: luid in index ==> IsListed(samples, luid))
  }

  /** Between two snapshots: what has been seen holds the new counters, the rest the old ones. */
  ghost predicate Halfway(samples: seq<InterfaceSample>, before: map<nat, Counters>, now: map<nat, Counters>) {
    && DistinctSamples(samples)
    && (forall sample :: sample in samples ==>
                           if sample.seen then Holds(sample, now) else sample.luid !in now && Holds(sample, before))
    && (forall luid :: luid in now || luid in before ==> IsListed(samples, luid))
  }

  lemma PushKeepsHalfway(samples: seq<InterfaceSample>, before: map<nat, Counters>, now: map<nat, Counters>,
                         sample: InterfaceSample)
    requires Halfway(samples, before, now) && sample.seen && !IsListed(samples, sample.luid)
    ensures Halfway(samples + [sample], before, now[sample.luid := Counters(sample.inBytes, sample.outBytes)])
  {
    var more := samples + [sample];
    forall luid | IsListed(samples, luid) || luid == sample.luid ensures IsListed(more, luid) {
      if IsListed(samples, luid) {
        var known :| known in samples && known.luid == luid;
        assert known in more;
      } else {
        assert sample in more;
      }
    }
  }

  lemma UpdateKeepsHalfway(samples: seq<InterfaceSample>, before: map<nat, Counters>, now: map<nat, Counters>,
                           j: nat, sample: InterfaceSample)
    requires Halfway(samples, before, now) && j < |samples| && sample.seen && sample.luid == samples[j].luid
    ensures Halfway(samples[j := sample], before, now[sample.luid := Counters(sample.inBytes, sample.outBytes)])
  {
    var updated := samples[j := sample];
    forall luid | IsListed(samples, luid) || luid == sample.luid ensures IsListed(updated, luid) {
      var i :| 0 <= i < |samples| && samples[i].luid == luid;
      assert updated[i].luid == luid;
    }
    forall other | other in updated && other != sample ensures other in samples && other.luid != sample.luid {
      var i :| 0 <= i < |updated| && updated[i] == other;
      assert i != j && samples[i] == other;
    }
  }

  function SeenOnly(samples: seq<InterfaceSample>): seq<InterfaceSample> {
    if |samples| == 0 then []
    else SeenOnly(samples[..|samples| - 1]) + if samples[|samples| - 1].seen then [samples[|samples| - 1]] else []
  }

  lemma {:induction false} SeenOnlyKeeps(samples: seq<InterfaceSample>)
    ensures forall sample :: sample in SeenOnly(samples) <==> sample in samples && sample.seen
    ensures DistinctSamples(samples) ==> DistinctSamples(SeenOnly(samples))
  {
    if |samples| > 0 {
      var n := |samples| - 1;
      SeenOnlyKeeps(samples[..n]);
      assert samples == samples[..n] + [samples[n]];
      if DistinctSamples(samples) && samples[n].seen {
        var kept := SeenOnly(samples[..n]);
        forall i | 0 <= i < |kept| ensures kept[i].luid != samples[n].luid {
          assert kept[i] in samples[..n];
        }
      }
    }
  }

  /** Dropping what has not been seen leaves exactly the new index. */
  lemma SweepLists(samples: seq<InterfaceSample>, before: map<nat, Counters>, now: map<nat, Counters>)
    requires Halfway(samples, before, now)
    ensures Lists(SeenOnly(samples), now)
  {
    SeenOnlyKeeps(samples);
    forall luid | luid in now ensures IsListed(SeenOnly(samples), luid) {
      var sample :| sample in samples && sample.luid == luid;
      assert sample.seen;
    }
  }

  lemma ListedMeansKnown(samples: seq<InterfaceSample>, before: map<nat, Counters>, now: map<nat, Counters>, luid: nat)
    requires Halfway(samples, before, now)
    ensures IsListed(samples, luid) <==> luid in now || luid in before
  {
  }

  lemma DistinctBefore(rows: seq<Row>)
    requires |rows| > 0
    ensures DistinctRows(rows) ==> DistinctRows(rows[..|rows| - 1])
  {
  }

  lemma UncountedRow(memory: Memory, row: Row, now: Tick)
    requires !Counts(row)
    ensures forall direction :: ShareOf(memory, row, now, direction) == 0.0
  {
  }

  /** With distinct rows, a row meets the counters of the previous snapshot. */
  lemma FirstSightOfRow(samples: seq<InterfaceSample>, before: map<nat, Counters>, rows: seq<Row>, j: nat)
    requires |rows| > 0 && j < |samples| && samples[j].luid == rows[|rows| - 1].luid && Counts(rows[|rows| - 1])
    requires Halfway(samples, before, IndexOf(rows[..|rows| - 1]))
    ensures DistinctRows(rows) ==>
              samples[j].luid in before && before[samples[j].luid] == Counters(samples[j].inBytes, samples[j].outBytes)
  {
    var n := |rows| - 1;
    assert samples[j] in samples;
    IndexHasActive(rows[..n], rows[n].luid);
    if DistinctRows(rows) {
      assert forall i :: 0 <= i < n ==> rows[..n][i] == rows[i];
      assert rows[n].luid !in IndexOf(rows[..n]);
    }
  }

  class NetworkSampler {
    var interfaces: seq<InterfaceSample>
    var tick: Tick
    var hasSample: bool
    var availabilityKnown: bool
    var available: bool
    var downBps: real
    var upBps: real
    ghost var index: map<nat, Counters>

    ghost predicate Valid()
      reads this
    {
      Lists(interfaces, index)
    }

    ghost function Remembered(): Memory
      reads this
    {
      Memory(index, tick, hasSample)
    }

    constructor ()
      ensures Valid() && Remembered() == Memory(map[], 0, false) && !availabilityKnown
    {
      interfaces, tick, hasSample, availabilityKnown, available, downBps, upBps := [], 0, false, false, false, 0.0, 0.0;
      index := map[];
    }

    method FindNetworkInterfaceSample(luid: nat) returns (found: bool, at: nat)
      ensures found <==> IsListed(interfaces, luid)
      ensures found ==> at < |interfaces| && interfaces[at].luid == luid
    {
      at := 0;
      while at < |interfaces|
        invariant at <= |interfaces| && forall i :: 0 <= i < at ==> interfaces[i].luid != luid
      {
        if interfaces[at].luid == luid {
          assert interfaces[at] in interfaces;
          return true, at;
        }
        at := at + 1;
      }
      found := false;
    }

    /** Nothing has been seen yet. */
    method ForgetSightings()
      requires Valid()
      modifies this`interfaces
      ensures Halfway(interfaces, index, map[])
    {
      var i := 0;
      ghost var listed := interfaces;
      while i < |interfaces|
        invariant i <= |interfaces| == |listed|
        invariant forall k :: 0 <= k < |listed| ==>
                                interfaces[k] == if k < i then listed[k].(seen := false) else listed[k]
      {
        interfaces := interfaces[i := interfaces[i].(seen := false)];
        i := i + 1;
      }
      forall sample | sample in interfaces ensures !sample.seen && Holds(sample, index) {
        var k :| 0 <= k < |interfaces| && interfaces[k] == sample;
        assert listed[k] in listed;
      }
      forall luid | luid in index ensures IsListed(interfaces, luid) {
        var k :| 0 <= k < |listed| && listed[k].luid == luid;
        assert interfaces[k].luid == luid;
      }
    }

    /** The interfaces that have not been seen are gone. */
    method EraseUnseen()
      modifies this`interfaces
      ensures interfaces == SeenOnly(old(interfaces))
    {
      var kept: seq<InterfaceSample> := [];
      var i := 0;
      while i < |interfaces|
        invariant i <= |interfaces| && kept == SeenOnly(interfaces[..i])
      {
        assert interfaces[..i + 1][..i] == interfaces[..i];
        if interfaces[i].seen {
          kept := kept + [interfaces[i]];
        }
        i := i + 1;
      }
      assert interfaces[..i] == interfaces;
      interfaces := kept;
    }

    /** One row of the table: the counters are taken over, and the rates grow if they can be compared. */
    method SampleRow(row: Row, ghost memory: Memory, ghost rows: seq<Row>, ghost now: Tick, seconds: real, down: real,
                     up: real)
      returns (newDown: real, newUp: real)
      requires Counts(row) && |rows| > 0 && row == rows[|rows| - 1]
      requires Halfway(interfaces, memory.index, IndexOf(rows[..|rows| - 1]))
      requires memory.hasSample == hasSample && seconds == Seconds(memory, now)
      modifies this`interfaces
      ensures Halfway(interfaces, memory.index, IndexOf(rows))
      ensures DistinctRows(rows) ==>
                newDown == down + ShareOf(memory, row, now, Download) && newUp == up + ShareOf(memory, row, now, Upload)
    {
      hide DistinctRows, Halfway, Holds;
      ghost var index := IndexOf(rows[..|rows| - 1]);
      var found, at := FindNetworkInterfaceSample(row.luid);
      newDown, newUp := down, up;
      ListedMeansKnown(interfaces, memory.index, index, row.luid);
      if !found {
        PushKeepsHalfway(interfaces, memory.index, index, InterfaceSample(row.luid, row.inOctets, row.outOctets, true));
        interfaces := interfaces + [InterfaceSample(row.luid, row.inOctets, row.outOctets, true)];
        return;
      }
      var sample := interfaces[at].(seen := true);
      if hasSample && seconds > 0.0 && row.inOctets >= sample.inBytes && row.outOctets >= sample.outBytes {
        newDown := down + (row.inOctets - sample.inBytes) as real / seconds;
        newUp := up + (row.outOctets - sample.outBytes) as real / seconds;
      }
      FirstSightOfRow(interfaces, memory.index, rows, at);
      sample := sample.(inBytes := row.inOctets, outBytes := row.outOctets);
      UpdateKeepsHalfway(interfaces, memory.index, index, at, sample);
      interfaces := interfaces[at := sample];
    }

    /** One snapshot. The list then holds each active interface once, with its current counters, and the
        rates compare them with the previous snapshot; a failed enumeration changes neither. */
    method SampleNetwork(snapshot: Snapshot, now: Tick)
      requires Valid()
      modifies this
      ensures Valid() && Remembered() == Remember(old(Remembered()), snapshot, now)
      ensures availabilityKnown && available == snapshot.Table?
      ensures snapshot.EnumerationFailed? ==>
                interfaces == old(interfaces) && downBps == old(downBps) && upBps == old(upBps)
      ensures snapshot.Table? && DistinctRows(snapshot.rows) ==>
                && downBps == Rate(old(Remembered()), snapshot.rows, now, Download)
                && upBps == Rate(old(Remembered()), snapshot.rows, now, Upload)
    {
      hide DistinctRows, Lists, Halfway, Holds, ShareOf;
      ghost var memory := Remembered();
      availabilityKnown := true;
      available := snapshot.Table?;
      if snapshot.EnumerationFailed? {
        return;
      }
      var rows := snapshot.rows;
      var elapsedMs := if hasSample then TicksSince(now, tick) else 0;
      var seconds := elapsedMs as real / 1000.0;
      var down, up := 0.0, 0.0;
      ForgetSightings();
      var i := 0;
      while i < |rows|
        invariant i <= |rows| && memory.hasSample == hasSample && availabilityKnown && available
        invariant Halfway(interfaces, memory.index, IndexOf(rows[..i]))
        invariant DistinctRows(rows[..i]) ==> down == Rate(memory, rows[..i], now, Download)
                                              && up == Rate(memory, rows[..i], now, Upload)
      {
        assert rows[..i + 1][..i] == rows[..i];
        DistinctBefore(rows[..i + 1]);
        if Counts(rows[i]) {
          down, up := SampleRow(rows[i], memory, rows[..i + 1], now, seconds, down, up);
        } else {
          UncountedRow(memory, rows[i], now);
        }
        i := i + 1;
      }
      assert rows[..i] == rows;
      SweepLists(interfaces, memory.index, IndexOf(rows));
      EraseUnseen();
      index := IndexOf(rows);
      tick := now;
      hasSample := true;
      downBps, upBps := down, up;
    }
  }
}
