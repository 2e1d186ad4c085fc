/** One PDH counter group: query and counter handles, samples, failure reports and retries. */
module PdhCounters {
  import opened Ticks
  import opened GpuEngines

  const PDH_RETRY_MS: nat := 5000

  /** What a formatted value says of itself. */
  datatype ValueStatus = Valid | TransientCalculation | Bad

  datatype Item = Item(name: string, status: ValueStatus, value: real)

  /** What PDH answers when it is asked for values. */
  datatype Reading =
    | FormatFailed(transient: bool)
    | Scalar(status: ValueStatus, value: real)
    | Array(items: seq<Item>)

  datatype PdhSampleDisposition = UseValue | KeepPrevious | Reinitialize

  function ClassifyPdhSample(valueValid: bool, transient: bool): PdhSampleDisposition {
    if valueValid then UseValue else if transient then KeepPrevious else Reinitialize
  }

  predicate ShouldReinitializePdhGroup(ready: bool, hasUsableHandles: bool, now: Tick, lastAttempt: Tick,
                                       retryInterval: nat) {
    !(ready && hasUsableHandles) && (lastAttempt == 0 || TickPassed(now, AddTicks(lastAttempt, retryInterval)))
  }

  function ClampPercent(value: real): real {
    if value < 0.0 then 0.0 else if value > 100.0 then 100.0 else value
  }

  predicate IsPercentOrUnknown(value: real) {
    value == -1.0 || 0.0 <= value <= 100.0
  }

  /** The samples of the items that carry a valid value. */
  function ValidSamples(items: seq<Item>): seq<Sample> {
    if |items| == 0 then []
    else
      var last := items[|items| - 1];
      ValidSamples(items[..|items| - 1]) + if last.status.Valid? then [Sample(last.name, last.value)] else []
  }

  /** The status of the first item without a valid value, if there is one. */
  function FirstFailure(items: seq<Item>): ValueStatus {
    if |items| == 0 then Valid
    else
      var earlier := FirstFailure(items[..|items| - 1]);
      if earlier.Valid? then items[|items| - 1].status else earlier
  }

  /** The reading yields a value: a valid scalar, no instances at all, or some instance with a valid value. */
  ghost predicate Measures(reading: Reading) {
    match reading
    case FormatFailed(_) => false
    case Scalar(status, _) => status.Valid?
    case Array(items) => items == [] || ValidSamples(items) != []
  }

  /** The value that a reading yields. */
  ghost predicate IsMeasured(reading: Reading, value: real) {
    match reading
    case FormatFailed(_) => false
    case Scalar(_, read) => value == ClampPercent(read)
    case Array(items) =>
      if items == [] then value == 0.0
      else exists busiest :: IsBusiest(ValidSamples(items), busiest) && value == if busiest > 100.0 then 100.0
        else busiest
  }

  /** The reading fails only for the moment; an array that cannot be read at all never does. */
  ghost predicate IsTransient(reading: Reading, wildcardArray: bool) {
    match reading
    case FormatFailed(transient) => transient && !wildcardArray
    case Scalar(status, _) => status.TransientCalculation?
    case Array(items) => FirstFailure(items).TransientCalculation? && !Measures(reading)
  }

  datatype PdhEvent =
    | QueryOpened(query: nat)
    | QueryClosed(query: nat)
    | FailureReported(at: nat)
    | RetryBegan(at: nat)
    | RetryPutOff(at: nat)

  /** How many queries are open according to the events. */
  ghost function OpenQueries(events: seq<PdhEvent>): int {
    if |events| == 0 then 0
    else
      var last := events[|events| - 1];
      OpenQueries(events[..|events| - 1]) + if last.QueryOpened? then 1 else if last.QueryClosed? then -1 else 0
  }

  /** Only the query that is open is ever closed. */
  ghost function OpenQuery(events: seq<PdhEvent>): nat {
    if |events| == 0 then 0
    else
      var last := events[|events| - 1];
      if last.QueryOpened? then last.query
      else if last.QueryClosed? then 0
      else OpenQuery(events[..|events| - 1])
  }

  ghost function LastFailure(events: seq<PdhEvent>): int {
    if |events| == 0 then -1
    else
      var last := events[|events| - 1];
      if last.FailureReported? then last.at else LastFailure(events[..|events| - 1])
  }

  /** Queries are opened one at a time, the open one is closed, and a retry begins, or is put off, as the
      wrapped clock reads the wait after the latest failure. */
  ghost predicate MayFollow(events: seq<PdhEvent>, e: PdhEvent) {
    match e
    case QueryOpened(query) => query != 0 && OpenQuery(events) == 0
    case QueryClosed(query) => query != 0 && OpenQuery(events) == query
    case FailureReported(at) => LastFailure(events) <= at
    case RetryBegan(at) => LastFailure(events) <= at && !RetryMustWait(LastFailure(events), at)
    case RetryPutOff(at) => LastFailure(events) <= at && RetryMustWait(LastFailure(events), at)
  }

  /** The wrapped clock reads the wait after the latest failure as not over. */
  predicate RetryMustWait(failed: int, now: nat) {
    failed >= 0 && !TickPassed(TickOf(now), AddTicks(NonZeroTick(TickOf(failed)), PDH_RETRY_MS))
  }

  ghost predicate Legal(events: seq<PdhEvent>) {
    |events| == 0 || (Legal(events[..|events| - 1]) && MayFollow(events[..|events| - 1], events[|events| - 1]))
  }

  /** Opened less closed is 1 exactly when a query is open, and else 0. */
  lemma {:induction false} QueriesBalance(events: seq<PdhEvent>)
    requires Legal(events)
    ensures OpenQueries(events) == if OpenQuery(events) != 0 then 1 else 0
  {
    if |events| > 0 {
      QueriesBalance(events[..|events| - 1]);
    }
  }

  lemma {:induction false} FailureIsRemembered(events: seq<PdhEvent>, i: nat)
    requires Legal(events) && i < |events| && events[i].FailureReported?
    ensures LastFailure(events) >= events[i].at
  {
    if i < |events| - 1 {
      FailureIsRemembered(events[..|events| - 1], i);
    }
  }

  lemma {:induction false} LegalAt(events: seq<PdhEvent>, i: nat)
    requires Legal(events) && i < |events|
    ensures Legal(events[..i]) && MayFollow(events[..i], events[i])
  {
    var n := |events| - 1;
    if i < n {
      LegalAt(events[..n], i);
      assert events[..n][..i] == events[..i];
    }
  }

  /** No retry begins less than five seconds after any earlier failure. */
  lemma {:induction false} RetriesAreSpaced(events: seq<PdhEvent>, i: nat, j: nat)
    requires Legal(events) && i < j < |events| && events[i].FailureReported? && events[j].RetryBegan?
    ensures events[j].at >= events[i].at + PDH_RETRY_MS
  {
    LegalAt(events, j);
    FailureIsRemembered(events[..j], i);
    NeverPassedEarlyNonZero(LastFailure(events[..j]), PDH_RETRY_MS, events[j].at);
  }

  /** After the latest failure, at `failed`, the events end with a retry at `at`, or with its being put off. */
  ghost predicate FollowsUp(events: seq<PdhEvent>, failed: nat, e: PdhEvent) {
    && Legal(events) && |events| > 0 && events[|events| - 1] == e
    && LastFailure(events[..|events| - 1]) == failed
  }

  lemma FollowUpIsLegal(failed: nat, at: nat, e: PdhEvent)
    requires failed <= at && e == if RetryMustWait(failed, at) then RetryPutOff(at) else RetryBegan(at)
    ensures FollowsUp([FailureReported(failed), e], failed, e)
  {
    hide RetryMustWait;
    var events := [FailureReported(failed), e];
    assert events[..1] == [FailureReported(failed)] && events[..1][..0] == [];
    assert Legal([]);
    assert Legal(events[..1]);
  }

  /** After a failure at `t0` a retry can begin at `t1` if and only if the wrapped clock reads the wait as over
      then, and can be put off if and only if it does not. */
  lemma RetryWaitIsExact(t0: nat, t1: nat)
    requires t0 <= t1
    ensures (exists events :: FollowsUp(events, t0, RetryBegan(t1))) <==> !RetryMustWait(t0, t1)
    ensures (exists events :: FollowsUp(events, t0, RetryPutOff(t1))) <==> RetryMustWait(t0, t1)
  {
    hide RetryMustWait;
    if RetryMustWait(t0, t1) {
      FollowUpIsLegal(t0, t1, RetryPutOff(t1));
    } else {
      FollowUpIsLegal(t0, t1, RetryBegan(t1));
    }
  }

  /** A retry can be put off although its five seconds are over if and only if the clock has gone on by half its
      range or more since then, not counting whole rounds. */
  lemma RetryTooLate(t0: nat, t1: nat)
    requires StoredDeadline(t0, PDH_RETRY_MS) <= t1
    ensures (exists events :: FollowsUp(events, t0, RetryPutOff(t1)))
            <==> (t1 - StoredDeadline(t0, PDH_RETRY_MS)) % TICK_MODULUS >= HALF_RANGE
  {
    RetryWaitIsExact(t0, t1);
    NotPassedMeansNonZero(t0, PDH_RETRY_MS, t1);
  }

  lemma OneMore(events: seq<PdhEvent>, e: PdhEvent)
    requires Legal(events) && MayFollow(events, e)
    ensures Legal(events + [e])
    ensures OpenQuery(events + [e]) == if e.QueryOpened? then e.query else if e.QueryClosed? then 0
            else OpenQuery(events)
    ensures LastFailure(events + [e]) == if e.FailureReported? then e.at else LastFailure(events)
  {
    assert (events + [e])[..|events|] == events;
  }

  class PdhGroup {
    var query: nat
    var counter: nat
    var ready: bool
    var needsSecondSample: bool
    var wildcardArray: bool
    var hasPath: bool
    var value: real
    var lastInitAttemptTick: Tick
    var clock: nat

    ghost var events: seq<PdhEvent>

    ghost predicate Valid()
      reads this
    {
      && Legal(events) && OpenQuery(events) == query
      && (ready ==> query != 0 && counter != 0)
      && IsPercentOrUnknown(value)
      && LastFailure(events) <= clock
      && (!ready && hasPath ==> LastFailure(events) >= 0)
      && (!ready && LastFailure(events) >= 0 ==> lastInitAttemptTick == NonZeroTick(TickOf(LastFailure(events))))
    }

    constructor ()
      ensures Valid() && !ready && !hasPath && value == -1.0 && events == []
    {
      query, counter, ready, needsSecondSample := 0, 0, false, false;
      wildcardArray, hasPath, value, lastInitAttemptTick, clock := false, false, -1.0, 0, 0;
      events := [];
    }

    ghost method Emit(e: PdhEvent)
      requires Legal(events) && MayFollow(events, e)
      modifies this`events
      ensures Legal(events) && events == old(events) + [e]
      ensures OpenQuery(events) == if e.QueryOpened? then e.query else if e.QueryClosed? then 0
              else old(OpenQuery(events))
      ensures LastFailure(events) == if e.FailureReported? then e.at else old(LastFailure(events))
    {
      OneMore(events, e);
      events := events + [e];
    }

    method GetTickCount() returns (tick: Tick)
      modifies this`clock
      ensures clock >= old(clock) && tick == TickOf(clock)
    {
      var waited: int :| waited >= 0;
      clock := clock + waited;
      tick := TickOf(clock);
    }

    method CloseQuery()
      requires Legal(events) && OpenQuery(events) == query
      modifies this`query, this`counter, this`events
      ensures query == 0 && counter == 0 && Legal(events) && OpenQuery(events) == 0
      ensures LastFailure(events) == old(LastFailure(events))
      ensures events == if old(query) != 0 then old(events) + [QueryClosed(old(query))] else old(events)
    {
      hide Legal, OpenQuery, LastFailure;
      if query != 0 {
        Emit(QueryClosed(query));
        query := 0;
      }
      counter := 0;
    }

    method ReportPdhFailure()
      requires Legal(events) && LastFailure(events) <= clock
      modifies this`ready, this`lastInitAttemptTick, this`clock, this`events
      ensures !ready && Legal(events) && LastFailure(events) == clock >= old(clock)
      ensures OpenQuery(events) == old(OpenQuery(events)) && events == old(events) + [FailureReported(clock)]
      ensures lastInitAttemptTick == NonZeroTick(TickOf(clock))
    {
      hide Legal, OpenQuery, LastFailure;
      ready := false;
      var failureTick := GetTickCount();
      lastInitAttemptTick := NonZeroTick(failureTick);
      Emit(FailureReported(clock));
    }

    /** Opens a query, adds the counter, and collects once; each step may fail, and a failure closes
        what was opened. The handles are those the system hands out. */
    method InitPdhGroup(wildcardArray: bool, newQuery: nat, newCounter: nat, collected: bool)
      requires Valid()
      modifies this
      ensures Valid() && clock >= old(clock) && value == old(value)
      ensures hasPath && this.wildcardArray == wildcardArray && old(events) <= events
      ensures ready <==> newQuery != 0 && newCounter != 0 && collected
      ensures if ready then query == newQuery && counter == newCounter && needsSecondSample
                            && LastFailure(events) == old(LastFailure(events))
              else query == 0 && counter == 0 && LastFailure(events) == clock
    {
      hide Legal, OpenQuery, LastFailure;
      this.wildcardArray := wildcardArray;
      hasPath := true;
      BeginInit();
      if newQuery == 0 {
        ReportPdhFailure();
        return;
      }
      query := newQuery;
      Emit(QueryOpened(newQuery));
      if newCounter == 0 {
        AbandonInit();
        return;
      }
      counter := newCounter;
      if !collected {
        AbandonInit();
        return;
      }
      ready := true;
      needsSecondSample := true;
    }

    /** Closes what an earlier initialization has left, and notes the attempt. */
    method BeginInit()
      requires Legal(events) && OpenQuery(events) == query && LastFailure(events) <= clock
      modifies this`query, this`counter, this`ready, this`needsSecondSample, this`lastInitAttemptTick, this`clock,
               this`events
      ensures !ready && !needsSecondSample && query == 0 && counter == 0
      ensures Legal(events) && OpenQuery(events) == 0 && old(events) <= events
      ensures LastFailure(events) == old(LastFailure(events)) <= clock && clock >= old(clock)
    {
      hide Legal, OpenQuery, LastFailure;
      CloseQuery();
      ready, needsSecondSample := false, false;
      lastInitAttemptTick := 0;
      var initTick := GetTickCount();
      lastInitAttemptTick := NonZeroTick(initTick);
    }

    /** Reports a failure after the query was opened, and closes it. */
    method AbandonInit()
      requires Legal(events) && OpenQuery(events) == query && LastFailure(events) <= clock
      modifies this`query, this`counter, this`ready, this`lastInitAttemptTick, this`clock, this`events
      ensures !ready && query == 0 && counter == 0
      ensures Legal(events) && OpenQuery(events) == 0 && old(events) <= events
      ensures LastFailure(events) == clock >= old(clock) && lastInitAttemptTick == NonZeroTick(TickOf(clock))
    {
      hide Legal, OpenQuery, LastFailure;
      ReportPdhFailure();
      CloseQuery();
    }

    /** Starts over, exactly if the wrapped clock reads the wait after the last failure as over, and puts that
        off else. */
    method RecoverPdhGroupIfNeeded(newQuery: nat, newCounter: nat, collected: bool)
      requires Valid()
      modifies this
      ensures Valid() && clock >= old(clock) && value == old(value)
      ensures old(ready) || !old(hasPath) ==> ready == old(ready) && events == old(events)
      ensures old(events) <= events
      ensures !old(ready) && old(hasPath) ==>
                && |events| > |old(events)|
                && var e, failed := events[|old(events)|], old(LastFailure(events));
                   || (e.RetryBegan? && !RetryMustWait(failed, e.at))
                   || (e == RetryPutOff(clock) && RetryMustWait(failed, clock) && events == old(events) + [e] && !ready)
    {
      hide Legal, OpenQuery, LastFailure;
      if !hasPath {
        return;
      }
      var now := GetTickCount();
      if !ShouldReinitializePdhGroup(ready, query != 0 && counter != 0, now, lastInitAttemptTick, PDH_RETRY_MS) {
        if !ready {
          Emit(RetryPutOff(clock));
        }
        return;
      }
      Emit(RetryBegan(clock));
      InitPdhGroup(wildcardArray, newQuery, newCounter, collected);
    }

    /** The valid values of an array of instances. */
    static method SampleItems(items: seq<Item>) returns (any: bool, maxValue: real, transient: bool)
      ensures any <==> Measures(Array(items))
      ensures any ==> IsMeasured(Array(items), maxValue) && 0.0 <= maxValue <= 100.0
      ensures !any ==> transient == IsTransient(Array(items), true)
    {
      var samples: seq<Sample> := [];
      var firstFailure := ValueStatus.Valid;
      any := false;
      maxValue := -1.0;
      var i := 0;
      while i < |items|
        invariant i <= |items|
        invariant samples == ValidSamples(items[..i]) && firstFailure == FirstFailure(items[..i])
        invariant any <==> samples != []
      {
        assert items[..i + 1][..i] == items[..i];
        if items[i].status.Valid? {
          any := true;
          samples := samples + [Sample(items[i].name, items[i].value)];
        } else if firstFailure.Valid? {
          firstFailure := items[i].status;
        }
        i := i + 1;
      }
      assert items[..i] == items;
      if |items| == 0 {
        any := true;
        maxValue := 0.0;
      } else if any {
        maxValue := AggregateBusiestGpuEngine(samples);
      }
      transient := firstFailure.TransientCalculation?;
    }

    /** One sample: a percentage, or -1 when there is none. A value that cannot be calculated for the
        moment keeps the previous one; any other failure makes the group start over later. */
    method SamplePdhGroup(collected: bool, reading: Reading) returns (result: real)
      requires Valid() && (reading.Array? ==> wildcardArray) && (reading.Scalar? ==> !wildcardArray)
      modifies this
      ensures Valid() && clock >= old(clock) && IsPercentOrUnknown(result)
      ensures query == old(query) && counter == old(counter)
      ensures !old(ready) ==> result == -1.0 && events == old(events) && value == old(value)
      ensures old(ready) && collected && old(needsSecondSample) ==>
                result == value == old(value) && !needsSecondSample && ready && events == old(events)
      ensures old(ready) && collected && !old(needsSecondSample) && Measures(reading) ==>
                result == value && IsMeasured(reading, value) && ready && events == old(events)
      ensures old(ready) && collected && !old(needsSecondSample) && IsTransient(reading, wildcardArray) ==>
                result == value == old(value) && ready && events == old(events)
      ensures old(ready)
              && (!collected || (!old(needsSecondSample) && !Measures(reading)
                                 && !IsTransient(reading, wildcardArray))) ==>
                result == -1.0 && value == old(value) && !ready && events == old(events) + [FailureReported(clock)]
    {
      hide Legal, OpenQuery, LastFailure;
      if !ready || query == 0 || counter == 0 {
        return -1.0;
      }
      if !collected {
        ReportPdhFailure();
        return -1.0;
      }
      if needsSecondSample {
        needsSecondSample := false;
        return value;
      }
      var maxValue := -1.0;
      var any := false;
      var transient := false;
      match reading {
        case FormatFailed(calculation) =>
          if wildcardArray {
            ReportPdhFailure();
            return -1.0;
          }
          transient := calculation;
        case Scalar(status, read) =>
          if status.Valid? {
            any := true;
            maxValue := read;
          } else {
            transient := status.TransientCalculation?;
          }
        case Array(items) =>
          any, maxValue, transient := SampleItems(items);
      }
      if !any {
        if ClassifyPdhSample(false, transient).KeepPrevious? {
          return value;
        }
        ReportPdhFailure();
        return -1.0;
      }
      value := ClampPercent(maxValue);
      result := value;
    }
  }
}
