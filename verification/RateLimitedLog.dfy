/** The rate-limited failure log: a bounded table of failure periods, one entry for each key.

    Formatting, rotation and file access are reduced to whether a write succeeds. Ghost events record
    what is written; `LogHistory` says what every history of such events is worth. */
module RateLimitedLog {
  import opened LogHistory

  /** One failure period, or the cooldown that is left of one. Time 0 reads as "no time". */
  datatype RateLimitEntry = RateLimitEntry(
    level: Level,
    nextAllowed: nat,
    firstSeen: nat,
    nextRecoveryRetry: nat,
    total: nat,
    pendingSuppressed: nat,
    totalSuppressed: nat,
    active: bool,
    failureLogged: bool)

  const FRESH_ENTRY := RateLimitEntry(Warning, 0, 0, 0, 0, 0, 0, false, false)

  /** The entry holds what the history of its slot says. */
  ghost predicate EntryBy(entry: RateLimitEntry, slate: Slate, own: bool) {
    && entry.active == slate.active
    && entry.total == slate.lines + slate.suppressed
    && entry.totalSuppressed == slate.suppressed
    && entry.pendingSuppressed + slate.reported == slate.suppressed
    && entry.failureLogged == (slate.lines > 0)
    && entry.firstSeen == slate.since
    && (slate.active ==> slate.since > 0 && (own ==> entry.level == slate.worst))
    && (!slate.active ==> slate == Closed(slate))
    && entry.nextAllowed == slate.nextAllowed
    && entry.nextRecoveryRetry == slate.retryAt
  }

  /** A key without an entry has no period under way, and its cooldown is over. */
  ghost predicate AbsentBy(slate: Slate, clock: nat) {
    slate == Closed(slate) && slate.nextAllowed <= clock
  }

  /** The event of one failure: held back while the slot cools down, else attempted. */
  ghost predicate IsFailure(e: LogEvent, slot: Slot, level: Level, at: nat, interval: nat, cooling: bool) {
    if cooling then e == FailureHeld(slot, level, at)
    else
      || e == FailureLost(slot, level, at, interval)
      || (e.FailureWritten? && e == FailureWritten(slot, level, at, interval, e.reported))
  }

  /** One failure has happened. */
  ghost predicate FailureAppended(before: seq<LogEvent>, after: seq<LogEvent>, slot: Slot, level: Level, at: nat,
                                  interval: nat) {
    && |after| == |before| + 1 && after[..|before|] == before
    && IsFailure(after[|before|], slot, level, at, interval, at < Recall(before, slot).nextAllowed)
  }

  /** The recovery record of an entry. */
  function RecoveryOf(key: Key, entry: RateLimitEntry, now: nat): LogEvent {
    RecoveryWritten(key, now, entry.total, now - entry.firstSeen, entry.pendingSuppressed, entry.totalSuppressed)
  }

  /** The summary of an entry. */
  function SummaryOf(slot: Slot, entry: RateLimitEntry, now: nat): LogEvent {
    SummaryWritten(slot, entry.level, now, entry.total, now - entry.firstSeen, entry.pendingSuppressed,
                   entry.totalSuppressed)
  }

  /** A flush leaves an entry alone, or reports all that it had pending. */
  ghost predicate FlushedFrom(entry: RateLimitEntry, before: RateLimitEntry) {
    entry == before || (before.active && before.pendingSuppressed > 0 && entry == before.(pendingSuppressed := 0))
  }

  /** The table and the overflow entry hold what the trace says. */
  ghost predicate TableBy(table: map<Key, RateLimitEntry>, overflow: RateLimitEntry, trace: seq<LogEvent>, clock: nat) {
    && (forall key :: key in table ==> EntryBy(table[key], Recall(trace, Own(key)), true))
    && (forall key :: key !in table ==> AbsentBy(Recall(trace, Own(key)), clock))
    && EntryBy(overflow, Recall(trace, Overflow), false)
  }

  /** Only `slot` has moved. */
  ghost predicate Elsewhere(slot: Slot, before: seq<LogEvent>, after: seq<LogEvent>) {
    forall s :: s != slot ==> Recall(after, s) == Recall(before, s)
  }

  lemma NewTable(trace: seq<LogEvent>, now: nat)
    requires trace == []
    ensures Legal(trace) && Latest(trace) == 0 && TableBy(map[], FRESH_ENTRY, trace, now)
  {
  }

  lemma TableLater(table: map<Key, RateLimitEntry>, overflow: RateLimitEntry, trace: seq<LogEvent>, clock: nat,
                   now: nat)
    requires TableBy(table, overflow, trace, clock) && clock <= now
    ensures TableBy(table, overflow, trace, now)
  {
    hide Recall, EntryBy;
  }

  lemma TableHas(table: map<Key, RateLimitEntry>, overflow: RateLimitEntry, trace: seq<LogEvent>, clock: nat, key: Key)
    requires TableBy(table, overflow, trace, clock)
    ensures key in table ==> EntryBy(table[key], Recall(trace, Own(key)), true)
    ensures key !in table ==> AbsentBy(Recall(trace, Own(key)), clock)
    ensures EntryBy(overflow, Recall(trace, Overflow), false)
  {
    hide Recall, EntryBy, AbsentBy;
  }

  lemma TableUpdated(table: map<Key, RateLimitEntry>, overflow: RateLimitEntry, before: seq<LogEvent>,
                     after: seq<LogEvent>,
                     clock: nat, key: Key, entry: RateLimitEntry)
    requires TableBy(table, overflow, before, clock) && Elsewhere(Own(key), before, after)
    requires EntryBy(entry, Recall(after, Own(key)), true)
    ensures TableBy(table[key := entry], overflow, after, clock)
  {
    hide Recall, EntryBy, AbsentBy;
  }

  lemma TableShrunk(table: map<Key, RateLimitEntry>, overflow: RateLimitEntry, before: seq<LogEvent>,
                    after: seq<LogEvent>,
                    clock: nat, key: Key)
    requires TableBy(table, overflow, before, clock) && Elsewhere(Own(key), before, after)
    requires AbsentBy(Recall(after, Own(key)), clock)
    ensures TableBy(table - {key}, overflow, after, clock)
  {
    hide Recall, EntryBy, AbsentBy;
  }

  lemma OverflowUpdated(table: map<Key, RateLimitEntry>, overflow: RateLimitEntry, before: seq<LogEvent>,
                        after: seq<LogEvent>,
                        clock: nat, entry: RateLimitEntry)
    requires TableBy(table, overflow, before, clock) && Elsewhere(Overflow, before, after)
    requires EntryBy(entry, Recall(after, Overflow), false)
    ensures TableBy(table, entry, after, clock)
  {
    hide Recall, EntryBy, AbsentBy;
  }

  /** All entries but those of `keys` have been flushed. */
  ghost predicate FlushedBut(keys: set<Key>, table: map<Key, RateLimitEntry>, before: map<Key, RateLimitEntry>) {
    && table.Keys == before.Keys
    && forall k :: k in table ==> if k in keys then table[k] == before[k] else FlushedFrom(table[k], before[k])
  }

  lemma NothingFlushed(table: map<Key, RateLimitEntry>)
    ensures FlushedBut(table.Keys, table, table)
  {
  }

  lemma MoreFlushed(keys: set<Key>, key: Key, table: map<Key, RateLimitEntry>, halfway: map<Key, RateLimitEntry>,
                    before: map<Key, RateLimitEntry>)
    requires key in keys && key in halfway && key in table && FlushedBut(keys, halfway, before)
    requires table == halfway[key := table[key]] && FlushedFrom(table[key], halfway[key])
    ensures FlushedBut(keys - {key}, table, before)
  {
    hide FlushedFrom;
  }

  lemma AllFlushed(table: map<Key, RateLimitEntry>, before: map<Key, RateLimitEntry>)
    requires FlushedBut({}, table, before)
    ensures table.Keys == before.Keys && forall k :: k in table ==> FlushedFrom(table[k], before[k])
  {
    hide FlushedFrom;
  }

  /** Nothing but summaries has been written. */
  ghost predicate OnlySummaries(before: seq<LogEvent>, after: seq<LogEvent>) {
    before <= after && forall i :: |before| <= i < |after| ==> after[i].SummaryWritten?
  }

  // ---------------------------------------------------------------- single entries against their slates

  /** The entry after one more failure has been counted. */
  function Counted(entry: RateLimitEntry, level: Level, now: nat): RateLimitEntry {
    entry.(
      active := true,
      failureLogged := entry.active && entry.failureLogged,
      firstSeen := if entry.firstSeen == 0 then now else entry.firstSeen,
      level := if entry.firstSeen == 0 then level else Worse(level, entry.level),
      total := entry.total + 1)
  }

  /** An entry whose cooldown is known, or over. */
  ghost predicate Cooling(entry: RateLimitEntry, slate: Slate, own: bool, now: nat) {
    && EntryBy(entry.(nextAllowed := slate.nextAllowed), slate, own)
    && (entry.nextAllowed == slate.nextAllowed || (entry.nextAllowed == 0 && slate.nextAllowed <= now))
  }

  lemma FreshIsCooling(slate: Slate, now: nat)
    requires AbsentBy(slate, now)
    ensures Cooling(FRESH_ENTRY, slate, true, now)
  {
  }

  lemma KnownIsCooling(entry: RateLimitEntry, slate: Slate, own: bool, now: nat)
    requires EntryBy(entry, slate, own)
    ensures Cooling(entry, slate, own, now)
  {
  }

  lemma EntryHeld(entry: RateLimitEntry, slate: Slate, slot: Slot, level: Level, now: nat, updated: RateLimitEntry)
    requires Cooling(entry, slate, slot.Own?, now) && now > 0
    requires updated == Counted(entry, level, now) && updated.nextAllowed != 0 && now < updated.nextAllowed
    ensures Allowed(slate, FailureHeld(slot, level, now)) && now < slate.nextAllowed
    ensures EntryBy(updated.(pendingSuppressed := updated.pendingSuppressed + 1,
                             totalSuppressed := updated.totalSuppressed + 1),
                    Watch(slate, slot, FailureHeld(slot, level, now)), slot.Own?)
  {
  }

  lemma EntryAttempted(entry: RateLimitEntry, slate: Slate, slot: Slot, level: Level, now: nat, interval: nat,
                       updated: RateLimitEntry)
    requires Cooling(entry, slate, slot.Own?, now) && now > 0
    requires updated == Counted(entry, level, now) && (updated.nextAllowed == 0 || now >= updated.nextAllowed)
    ensures now >= slate.nextAllowed
    ensures var e := FailureWritten(slot, level, now, interval, updated.pendingSuppressed);
            && Allowed(slate, e)
            && EntryBy(updated.(pendingSuppressed := 0, failureLogged := true, nextAllowed := now + interval,
                                level := if slot.Own? then updated.level else Warning),
                       Watch(slate, slot, e), slot.Own?)
    ensures var e := FailureLost(slot, level, now, interval);
            && Allowed(slate, e)
            && EntryBy(updated.(pendingSuppressed := updated.pendingSuppressed + 1,
                                totalSuppressed := updated.totalSuppressed + 1, nextAllowed := now + interval),
                       Watch(slate, slot, e), slot.Own?)
  {
  }

  lemma EntryClosed(entry: RateLimitEntry, slate: Slate, key: Key, now: nat)
    requires EntryBy(entry, slate, true) && entry.active
    ensures var closed := FRESH_ENTRY.(nextAllowed := entry.nextAllowed);
            && (!entry.failureLogged ==>
                  && Allowed(slate, ClosedSilently(key, now))
                  && EntryBy(closed, Watch(slate, Own(key), ClosedSilently(key, now)), true))
            && (entry.failureLogged && now >= entry.nextRecoveryRetry ==>
                  && Allowed(slate, RecoveryOf(key, entry, now)) && Allowed(slate, RecoveryLost(key, now))
                  && EntryBy(closed, Watch(slate, Own(key), RecoveryOf(key, entry, now)), true)
                  && EntryBy(entry.(nextRecoveryRetry := now + RECOVERY_RETRY_MS),
                             Watch(slate, Own(key), RecoveryLost(key, now)), true))
  {
  }

  lemma EntryForgotten(entry: RateLimitEntry, slate: Slate, key: Key, now: nat)
    requires EntryBy(entry, slate, true) && !entry.active && now >= entry.nextAllowed
    ensures Allowed(slate, Forgotten(key, now)) && AbsentBy(Watch(slate, Own(key), Forgotten(key, now)), now)
  {
  }

  lemma EntryFlushed(entry: RateLimitEntry, slate: Slate, slot: Slot, now: nat)
    requires EntryBy(entry, slate, slot.Own?) && entry.active && entry.pendingSuppressed > 0
    ensures Allowed(slate, SummaryOf(slot, entry, now))
    ensures EntryBy(entry.(pendingSuppressed := 0), Watch(slate, slot, SummaryOf(slot, entry, now)), slot.Own?)
  {
  }

  class Log {
    var enabled: bool
    var hasPath: bool
    var minimumLevel: Level
    var rateLimits: map<Key, RateLimitEntry>
    var overflowRateLimit: RateLimitEntry
    var clock: nat

    ghost var trace: seq<LogEvent>

    ghost predicate Valid()
      reads this
    {
      && Legal(trace) && Latest(trace) <= clock && clock > 0
      && |rateLimits| <= MAX_ENTRIES
      && TableBy(rateLimits, overflowRateLimit, trace, clock)
    }

    /** Inactive entries hold nothing but their cooldown; active ones are consistent. */
    lemma EntriesAreSound(key: Key)
      requires Valid() && key in rateLimits
      ensures var entry := rateLimits[key];
              && entry.pendingSuppressed <= entry.totalSuppressed <= entry.total
              && (entry.failureLogged <==> entry.total > entry.totalSuppressed)
              && (!entry.active ==> entry.total == 0 && entry.firstSeen == 0 && entry.nextRecoveryRetry == 0)
              && (entry.active ==> entry.total > 0)
    {
      SlateIsSound(trace, Own(key));
    }

    /** Conservation, on the table itself: of the failures counted for a key in the period that is under
        way, those not suppressed are exactly the lines written, and of the suppressed ones those still
        pending are exactly the ones no line has told of. The same goes for the overflow slot. */
    lemma CountsAreKept(slot: Slot, p: nat)
      requires Valid() && PeriodSince(trace, slot, p) && (slot.Own? ==> slot.key in rateLimits)
      ensures var entry := if slot.Own? then rateLimits[slot.key] else overflowRateLimit;
              && entry.totalSuppressed == Unwritten(trace[p..], slot)
              && entry.total - entry.totalSuppressed == Written(trace[p..], slot)
              && entry.pendingSuppressed + Told(trace[p..], slot) == entry.totalSuppressed
    {
      hide Legal, PeriodSince, Unwritten, Written, Told, Recall, AbsentBy;
      SlateCountsPeriod(trace, slot, p);
    }

    /** A session has just been started. */
    constructor (now: nat)
      requires now > 0
      ensures Valid() && !enabled && rateLimits == map[] && trace == [] && clock == now
    {
      hide Legal, Latest, TableBy;
      NewTable([], now);
      enabled := false;
      hasPath := false;
      minimumLevel := Info;
      rateLimits := map[];
      overflowRateLimit := FRESH_ENTRY;
      clock := now;
      trace := [];
    }

    ghost method Emit(e: LogEvent)
      requires Legal(trace) && MayFollow(trace, e)
      modifies this`trace
      ensures Legal(trace) && trace == old(trace) + [e]
      ensures forall slot :: Recall(trace, slot) == Watch(Recall(old(trace), slot), slot, e)
      ensures Latest(trace) == if e.SessionStarted? then Latest(old(trace)) else e.at
    {
      OneMore(trace, e);
      trace := trace + [e];
    }

    method Now() returns (now: nat)
      modifies this`clock
      ensures clock == now >= old(clock)
    {
      var waited: int :| waited >= 0;
      clock := clock + waited;
      now := clock;
    }

    predicate LevelEnabled(level: Level)
      reads this`minimumLevel
    {
      Rank(level) >= Rank(minimumLevel)
    }

    method ConfigureLogging(enabled: bool, hasPath: bool, minimumLevel: Level)
      modifies this`enabled, this`hasPath, this`minimumLevel
      ensures this.enabled == enabled && this.hasPath == hasPath && this.minimumLevel == minimumLevel
      ensures old(Valid()) ==> Valid()
    {
      this.enabled := enabled;
      this.hasPath := hasPath;
      this.minimumLevel := minimumLevel;
    }

    method StartSession()
      requires Valid()
      modifies this`rateLimits, this`overflowRateLimit, this`trace
      ensures Valid() && rateLimits == map[] && overflowRateLimit == FRESH_ENTRY
      ensures trace == old(trace) + [SessionStarted]
    {
      rateLimits := map[];
      overflowRateLimit := FRESH_ENTRY;
      Emit(SessionStarted);
    }

    /** Writing one line may fail at any point. */
    method WriteMessage(level: Level, bypassLevelFilter: bool) returns (ok: bool)
      ensures ok ==> enabled && hasPath && (bypassLevelFilter || LevelEnabled(level))
    {
      if !enabled || !hasPath || (!bypassLevelFilter && !LevelEnabled(level)) {
        return false;
      }
      ok := *;
    }

    /** Records an event of one slot. */
    ghost method Append(e: LogEvent)
      requires Legal(trace) && !e.SessionStarted? && Latest(trace) <= e.at && Allowed(Recall(trace, SlotOf(e)), e)
      modifies this`trace
      ensures Legal(trace) && Latest(trace) == e.at && trace == old(trace) + [e]
      ensures Recall(trace, SlotOf(e)) == Watch(Recall(old(trace), SlotOf(e)), SlotOf(e), e)
      ensures Elsewhere(SlotOf(e), old(trace), trace)
    {
      Emit(e);
    }

    /** Counts a failure: it begins a period, or goes on with one and may make it worse. */
    method CountFailure(entry: RateLimitEntry, level: Level, now: nat) returns (counted: RateLimitEntry)
      ensures counted == Counted(entry, level, now)
    {
      counted := entry;
      if !counted.active {
        counted := counted.(active := true, failureLogged := false);
      }
      if counted.firstSeen == 0 {
        counted := counted.(firstSeen := now, level := level);
      } else if Rank(level) > Rank(counted.level) {
        counted := counted.(level := level);
      }
      counted := counted.(total := counted.total + 1);
    }

    /** One failure of a slot. */
    method RecordFailure(entry: RateLimitEntry, slot: Slot, level: Level, now: nat, interval: nat)
      returns (updated: RateLimitEntry)
      requires Legal(trace) && Latest(trace) <= now && now > 0 && Cooling(entry, Recall(trace, slot), slot.Own?, now)
      modifies this`trace
      ensures Legal(trace) && Latest(trace) == now && Elsewhere(slot, old(trace), trace)
      ensures EntryBy(updated, Recall(trace, slot), slot.Own?)
      ensures FailureAppended(old(trace), trace, slot, level, now, interval)
    {
      hide Legal, Recall, Watch, Allowed, EntryBy, Cooling, Elsewhere;
      updated := CountFailure(entry, level, now);
      if updated.nextAllowed != 0 && now < updated.nextAllowed {
        EntryHeld(entry, Recall(trace, slot), slot, level, now, updated);
        updated := updated.(
          pendingSuppressed := updated.pendingSuppressed + 1, totalSuppressed := updated.totalSuppressed + 1);
        Append(FailureHeld(slot, level, now));
        return;
      }
      updated := AttemptLine(entry, updated, slot, level, now, interval);
    }

    /** The cooldown is over: the line of the failure is written, or lost. */
    method AttemptLine(ghost entry: RateLimitEntry, counted: RateLimitEntry, slot: Slot, level: Level, now: nat,
                       interval: nat)
      returns (updated: RateLimitEntry)
      requires Legal(trace) && Latest(trace) <= now && now > 0 && Cooling(entry, Recall(trace, slot), slot.Own?, now)
      requires counted == Counted(entry, level, now) && (counted.nextAllowed == 0 || now >= counted.nextAllowed)
      modifies this`trace
      ensures Legal(trace) && Latest(trace) == now && Elsewhere(slot, old(trace), trace)
      ensures EntryBy(updated, Recall(trace, slot), slot.Own?)
      ensures FailureAppended(old(trace), trace, slot, level, now, interval)
    {
      hide Legal, Recall, Watch, Allowed, EntryBy, Cooling, Elsewhere;
      updated := counted;
      EntryAttempted(entry, Recall(trace, slot), slot, level, now, interval, updated);
      var outputLevel := if slot.Overflow? then updated.level else level;
      var written := WriteMessage(outputLevel, false);
      if written {
        Append(FailureWritten(slot, level, now, interval, updated.pendingSuppressed));
        updated := updated.(pendingSuppressed := 0, failureLogged := true);
        if slot.Overflow? {
          updated := updated.(level := Warning);
        }
      } else {
        Append(FailureLost(slot, level, now, interval));
        updated := updated.(
          pendingSuppressed := updated.pendingSuppressed + 1, totalSuppressed := updated.totalSuppressed + 1);
      }
      updated := updated.(nextAllowed := now + interval);
    }

    /** A failure is counted in the entry of its key, new or known. */
    method RecordOwnFailure(entry: RateLimitEntry, key: Key, level: Level, now: nat, interval: nat)
      requires Legal(trace) && Latest(trace) <= now && now > 0 && Cooling(entry, Recall(trace, Own(key)), true, now)
      requires TableBy(rateLimits, overflowRateLimit, trace, now)
      modifies this`rateLimits, this`trace
      ensures Legal(trace) && Latest(trace) == now && TableBy(rateLimits, overflowRateLimit, trace, now)
      ensures FailureAppended(old(trace), trace, Own(key), level, now, interval)
      ensures key in rateLimits && rateLimits == old(rateLimits)[key := rateLimits[key]]
    {
      hide Legal, Recall, Watch, TableBy, EntryBy, AbsentBy, Cooling, Elsewhere, FailureAppended;
      var updated := RecordFailure(entry, Own(key), level, now, interval);
      TableUpdated(rateLimits, overflowRateLimit, old(trace), trace, now, key, updated);
      rateLimits := rateLimits[key := updated];
    }

    /** A failure is counted in the slot of its key, or in the overflow slot when the table is full. It
        is held back during the cooldown of that slot; otherwise its line is attempted. */
    method LogRateLimitedMessage(level: Level, key: Key, intervalMs: nat)
      requires Valid()
      modifies this`rateLimits, this`overflowRateLimit, this`clock, this`trace
      ensures Valid() && clock >= old(clock)
      ensures !enabled || !hasPath || !LevelEnabled(level) || key == "" || intervalMs == 0 ==>
                trace == old(trace) && rateLimits == old(rateLimits) && overflowRateLimit == old(overflowRateLimit)
      ensures enabled && hasPath && LevelEnabled(level) && key != "" && intervalMs > 0 ==>
                var slot := if key in old(rateLimits) || |old(rateLimits)| < MAX_ENTRIES then Own(key) else Overflow;
                && FailureAppended(old(trace), trace, slot, level, clock, if slot.Own? then intervalMs
                                   else OVERFLOW_INTERVAL_MS)
                && rateLimits.Keys == old(rateLimits.Keys) + (if slot.Own? then {key} else {})
      ensures forall k :: k in old(rateLimits) && k != key ==> k in rateLimits && rateLimits[k] == old(rateLimits)[k]
    {
      hide Legal, Recall, Watch, TableBy, EntryBy, AbsentBy, Cooling, Elsewhere, FailureAppended;
      if !enabled || !hasPath || !LevelEnabled(level) {
        return;
      }
      if key == "" || intervalMs == 0 {
        var _ := WriteMessage(level, false);
        return;
      }
      var now := Now();
      TableLater(rateLimits, overflowRateLimit, trace, old(clock), now);
      RecordInSlot(level, key, intervalMs);
    }

    /** A failure that has passed the filters: its own entry if there is one or room for one, else the
        overflow entry. */
    method RecordInSlot(level: Level, key: Key, intervalMs: nat)
      requires Valid()
      modifies this`rateLimits, this`overflowRateLimit, this`trace
      ensures Valid()
      ensures var slot := if key in old(rateLimits) || |old(rateLimits)| < MAX_ENTRIES then Own(key) else Overflow;
              && FailureAppended(old(trace), trace, slot, level, clock, if slot.Own? then intervalMs
                                 else OVERFLOW_INTERVAL_MS)
              && (if slot.Own? then key in rateLimits && rateLimits == old(rateLimits)[key := rateLimits[key]]
                                    && overflowRateLimit == old(overflowRateLimit)
                  else rateLimits == old(rateLimits))
    {
      hide Legal, Recall, Watch, TableBy, EntryBy, AbsentBy, Cooling, Elsewhere, FailureAppended;
      TableHas(rateLimits, overflowRateLimit, trace, clock, key);
      if key in rateLimits {
        KnownIsCooling(rateLimits[key], Recall(trace, Own(key)), true, clock);
        RecordOwnFailure(rateLimits[key], key, level, clock, intervalMs);
      } else if |rateLimits| < MAX_ENTRIES {
        FreshIsCooling(Recall(trace, Own(key)), clock);
        RecordOwnFailure(FRESH_ENTRY, key, level, clock, intervalMs);
      } else {
        KnownIsCooling(overflowRateLimit, Recall(trace, Overflow), false, clock);
        var entry := RecordFailure(overflowRateLimit, Overflow, level, clock, OVERFLOW_INTERVAL_MS);
        OverflowUpdated(rateLimits, overflowRateLimit, old(trace), trace, clock, entry);
        overflowRateLimit := entry;
      }
    }

    /** A component works again. Only a reported failure gets a recovery record; the cooldown outlives
        every recovery, and the entry goes only when the cooldown is over. */
    method LogFailureRecovered(key: Key)
      requires Valid()
      modifies this`rateLimits, this`clock, this`trace
      ensures Valid() && clock >= old(clock)
      ensures key == "" || key !in old(rateLimits) ==> trace == old(trace) && rateLimits == old(rateLimits)
      ensures key != "" && key in old(rateLimits) ==>
                var entry := old(rateLimits)[key];
                var closed := FRESH_ENTRY.(nextAllowed := entry.nextAllowed);
                if !entry.active && clock >= entry.nextAllowed then
                  rateLimits == old(rateLimits) - {key} && trace == old(trace) + [Forgotten(key, clock)]
                else if !entry.active || (entry.failureLogged && clock < entry.nextRecoveryRetry) then
                  rateLimits == old(rateLimits) && trace == old(trace)
                else if !entry.failureLogged then
                  rateLimits == old(rateLimits)[key := closed] && trace == old(trace) + [ClosedSilently(key, clock)]
                else
                  || (enabled && hasPath && rateLimits == old(rateLimits)[key := closed]
                      && trace == old(trace) + [RecoveryOf(key, entry, clock)])
                  || (rateLimits == old(rateLimits)[key := entry.(nextRecoveryRetry := clock + RECOVERY_RETRY_MS)]
                      && trace == old(trace) + [RecoveryLost(key, clock)])
    {
      hide Legal, Recall, Watch, Allowed, TableBy, EntryBy, AbsentBy, Elsewhere;
      if key == "" || key !in rateLimits {
        return;
      }
      var entry := rateLimits[key];
      var now := Now();
      TableLater(rateLimits, overflowRateLimit, trace, old(clock), now);
      TableHas(rateLimits, overflowRateLimit, trace, now, key);
      if !entry.active {
        if entry.nextAllowed == 0 || now >= entry.nextAllowed {
          EntryForgotten(entry, Recall(trace, Own(key)), key, now);
          Append(Forgotten(key, now));
          TableShrunk(rateLimits, overflowRateLimit, old(trace), trace, now, key);
          rateLimits := rateLimits - {key};
        }
        return;
      }
      CloseEntry(key, entry, now);
    }

    /** Ends the failure period of an entry: silently, with a recovery record, or not yet. */
    method CloseEntry(key: Key, before: RateLimitEntry, now: nat)
      requires Valid() && clock == now && key in rateLimits && rateLimits[key] == before && before.active
      modifies this`rateLimits, this`trace
      ensures Valid()
      ensures var closed := FRESH_ENTRY.(nextAllowed := before.nextAllowed);
              if !before.failureLogged then
                rateLimits == old(rateLimits)[key := closed] && trace == old(trace) + [ClosedSilently(key, now)]
              else if now < before.nextRecoveryRetry then
                rateLimits == old(rateLimits) && trace == old(trace)
              else
                || (enabled && hasPath && rateLimits == old(rateLimits)[key := closed]
                    && trace == old(trace) + [RecoveryOf(key, before, now)])
                || (rateLimits == old(rateLimits)[key := before.(nextRecoveryRetry := now + RECOVERY_RETRY_MS)]
                    && trace == old(trace) + [RecoveryLost(key, now)])
    {
      hide Legal, Recall, Watch, Allowed, TableBy, EntryBy, AbsentBy, Elsewhere;
      var entry := before;
      TableHas(rateLimits, overflowRateLimit, trace, now, key);
      EntryClosed(entry, Recall(trace, Own(key)), key, now);
      if !entry.failureLogged {
        Append(ClosedSilently(key, now));
        entry := entry.(level := Warning, firstSeen := 0, active := false, total := 0, pendingSuppressed := 0,
                        totalSuppressed := 0, nextRecoveryRetry := 0);
      } else if entry.nextRecoveryRetry != 0 && now < entry.nextRecoveryRetry {
        return;
      } else {
        var written := WriteMessage(Info, true);
        if written {
          Append(RecoveryOf(key, entry, now));
          entry := entry.(level := Warning, firstSeen := 0, nextRecoveryRetry := 0, total := 0, pendingSuppressed := 0,
                          totalSuppressed := 0, active := false, failureLogged := false);
        } else {
          Append(RecoveryLost(key, now));
          entry := entry.(nextRecoveryRetry := now + RECOVERY_RETRY_MS);
        }
      }
      TableUpdated(rateLimits, overflowRateLimit, old(trace), trace, now, key, entry);
      rateLimits := rateLimits[key := entry];
    }

    /** A summary of one slot, if it has anything to tell. */
    method FlushEntry(entry: RateLimitEntry, slot: Slot, now: nat) returns (flushed: RateLimitEntry)
      requires Legal(trace) && Latest(trace) <= now && EntryBy(entry, Recall(trace, slot), slot.Own?)
      modifies this`trace
      ensures Legal(trace) && Latest(trace) <= now && EntryBy(flushed, Recall(trace, slot), slot.Own?)
      ensures || (flushed == entry && trace == old(trace))
              || (enabled && hasPath && entry.active && entry.pendingSuppressed > 0
                  && flushed == entry.(pendingSuppressed := 0) && trace == old(trace) + [SummaryOf(slot, entry, now)])
      ensures Elsewhere(slot, old(trace), trace)
    {
      hide Legal, Recall, Watch, Allowed, EntryBy;
      flushed := entry;
      if !entry.active || entry.pendingSuppressed == 0 {
        return;
      }
      var written := WriteMessage(entry.level, true);
      if written {
        EntryFlushed(entry, Recall(trace, slot), slot, now);
        Append(SummaryOf(slot, entry, now));
        flushed := entry.(pendingSuppressed := 0);
      }
    }

    method FlushKey(key: Key)
      requires Valid() && key in rateLimits
      modifies this`rateLimits, this`trace
      ensures Valid() && key in rateLimits && rateLimits == old(rateLimits)[key := rateLimits[key]]
      ensures FlushedFrom(rateLimits[key], old(rateLimits)[key])
      ensures OnlySummaries(old(trace), trace)
    {
      hide Legal, Recall, Watch, TableBy, EntryBy, AbsentBy, Elsewhere;
      TableHas(rateLimits, overflowRateLimit, trace, clock, key);
      var entry := FlushEntry(rateLimits[key], Own(key), clock);
      TableUpdated(rateLimits, overflowRateLimit, old(trace), trace, clock, key, entry);
      rateLimits := rateLimits[key := entry];
    }

    method FlushOverflow()
      requires Valid()
      modifies this`overflowRateLimit, this`trace
      ensures Valid() && OnlySummaries(old(trace), trace)
      ensures FlushedFrom(overflowRateLimit.(level := old(overflowRateLimit.level)), old(overflowRateLimit))
      ensures overflowRateLimit.level == if overflowRateLimit.pendingSuppressed == 0 then Warning
              else old(overflowRateLimit.level)
    {
      hide Legal, Recall, Watch, TableBy, EntryBy, AbsentBy, Elsewhere;
      TableHas(rateLimits, overflowRateLimit, trace, clock, "");
      var entry := FlushEntry(overflowRateLimit, Overflow, clock);
      OverflowUpdated(rateLimits, overflowRateLimit, old(trace), trace, clock, entry);
      overflowRateLimit := entry;
      if overflowRateLimit.pendingSuppressed == 0 {
        RelevelOverflow();
      }
    }

    /** Summaries for all entries, in whatever order the table yields them, and for the overflow slot. */
    method FlushLogSummaries()
      requires Valid()
      modifies this`rateLimits, this`overflowRateLimit, this`clock, this`trace
      ensures Valid() && clock >= old(clock) && OnlySummaries(old(trace), trace)
      ensures rateLimits.Keys == old(rateLimits.Keys)
      ensures forall k :: k in rateLimits ==> FlushedFrom(rateLimits[k], old(rateLimits)[k])
      ensures FlushedFrom(overflowRateLimit.(level := old(overflowRateLimit.level)), old(overflowRateLimit))
      ensures overflowRateLimit.level == if overflowRateLimit.pendingSuppressed == 0 then Warning
              else old(overflowRateLimit.level)
    {
      hide Legal, Recall, Watch, TableBy, FlushedFrom, FlushedBut;
      var now := Now();
      TableLater(rateLimits, overflowRateLimit, trace, old(clock), now);
      var keys := rateLimits.Keys;
      NothingFlushed(rateLimits);
      while keys != {}
        invariant Valid() && now == clock && keys <= rateLimits.Keys
        invariant OnlySummaries(old(trace), trace)
        invariant FlushedBut(keys, rateLimits, old(rateLimits))
        invariant overflowRateLimit == old(overflowRateLimit)
        decreases |keys|
      {
        var key :| key in keys;
        label flushing:
        FlushKey(key);
        MoreFlushed(keys, key, rateLimits, old@flushing(rateLimits), old(rateLimits));
        keys := keys - {key};
      }
      AllFlushed(rateLimits, old(rateLimits));
      FlushOverflow();
    }

    method RelevelOverflow()
      requires Valid()
      modifies this`overflowRateLimit
      ensures Valid() && overflowRateLimit == old(overflowRateLimit).(level := Warning)
    {
      overflowRateLimit := overflowRateLimit.(level := Warning);
    }
  }
}
