/** What the rate-limited failure log may write, as a history of events.

    Every key has its own slot; keys that find the table full share the overflow slot. `Recall` sums
    up what a history means for one slot, and `Allowed` says which event may come next. */
module LogHistory {

  type Key = string

  datatype Level = Debug | Info | Warning | Error

  function Rank(level: Level): nat {
    match level
    case Debug => 0
    case Info => 1
    case Warning => 2
    case Error => 3
  }

  function Worse(a: Level, b: Level): Level {
    if Rank(a) > Rank(b) then a else b
  }

  datatype Slot = Own(key: Key) | Overflow

  const RECOVERY_RETRY_MS: nat := 30_000
  const OVERFLOW_INTERVAL_MS: nat := 60_000
  const MAX_ENTRIES: nat := 64

  datatype LogEvent =
    | SessionStarted
      // A failure was reported to the log, and its line was held back, lost in writing, or written;
      // `reported` is the suppressed count the line carries.
    | FailureHeld(slot: Slot, level: Level, at: nat)
    | FailureLost(slot: Slot, level: Level, at: nat, interval: nat)
    | FailureWritten(slot: Slot, level: Level, at: nat, interval: nat, reported: nat)
    | SummaryWritten(slot: Slot, level: Level, at: nat, total: nat, duration: int, reported: nat, suppressed: nat)
    | RecoveryWritten(key: Key, at: nat, total: nat, duration: int, reported: nat, suppressed: nat)
    | RecoveryLost(key: Key, at: nat)
    | ClosedSilently(key: Key, at: nat)
    | Forgotten(key: Key, at: nat)

  /** A failure period of a slot: since when it lasts, its worst level, the failures whose lines were
      written, the others, and how many of those have been reported; and until when the next line and
      the next recovery attempt have to wait. */
  datatype Slate = Slate(
    active: bool, since: nat, worst: Level, lines: nat, suppressed: nat, reported: nat, nextAllowed: nat, retryAt: nat)

  const BLANK := Slate(false, 0, Warning, 0, 0, 0, 0, 0)

  /** The slot an event is about. */
  function SlotOf(e: LogEvent): Slot
    requires !e.SessionStarted?
  {
    match e
    case FailureHeld(slot, _, _) => slot
    case FailureLost(slot, _, _, _) => slot
    case FailureWritten(slot, _, _, _, _) => slot
    case SummaryWritten(slot, _, _, _, _, _, _) => slot
    case RecoveryWritten(key, _, _, _, _, _) => Own(key)
    case RecoveryLost(key, _) => Own(key)
    case ClosedSilently(key, _) => Own(key)
    case Forgotten(key, _) => Own(key)
  }

  /** A failure begins a period or goes on with it. */
  function Failing(s: Slate, level: Level, at: nat): Slate {
    if s.active then s.(worst := Worse(level, s.worst))
    else Slate(true, at, level, 0, 0, 0, s.nextAllowed, s.retryAt)
  }

  /** A closed period leaves nothing but its cooldown. */
  function Closed(s: Slate): Slate {
    BLANK.(nextAllowed := s.nextAllowed)
  }

  function Watch(s: Slate, slot: Slot, e: LogEvent): Slate {
    if e.SessionStarted? then BLANK
    else if SlotOf(e) != slot then s
    else
      match e
      case FailureHeld(_, level, at) =>
        var f := Failing(s, level, at);
        f.(suppressed := f.suppressed + 1)
      case FailureLost(_, level, at, interval) =>
        var f := Failing(s, level, at);
        f.(suppressed := f.suppressed + 1, nextAllowed := at + interval)
      case FailureWritten(_, level, at, interval, reported) =>
        var f := Failing(s, level, at);
        f.(lines := f.lines + 1, reported := f.reported + reported, nextAllowed := at + interval)
      case SummaryWritten(_, _, _, _, _, reported, _) => s.(reported := s.reported + reported)
      case RecoveryWritten(_, _, _, _, _, _) => Closed(s)
      case RecoveryLost(_, at) => s.(retryAt := at + RECOVERY_RETRY_MS)
      case ClosedSilently(_, _) => Closed(s)
      case Forgotten(_, _) => s
  }

  ghost function Recall(trace: seq<LogEvent>, slot: Slot): Slate {
    if |trace| == 0 then BLANK
    else Watch(Recall(trace[..|trace| - 1], slot), slot, trace[|trace| - 1])
  }

  /** The time of the latest event. */
  ghost function Latest(trace: seq<LogEvent>): nat {
    if |trace| == 0 then 0
    else if trace[|trace| - 1].SessionStarted? then Latest(trace[..|trace| - 1])
    else trace[|trace| - 1].at
  }

  /** What may happen to a slot. */
  predicate Allowed(s: Slate, e: LogEvent)
    requires !e.SessionStarted?
  {
    match e
    case FailureHeld(_, _, at) => at < s.nextAllowed
    case FailureLost(_, _, at, _) => at >= s.nextAllowed
    case FailureWritten(_, _, at, _, reported) => at >= s.nextAllowed && s.reported + reported == s.suppressed
    case SummaryWritten(slot, level, at, total, duration, reported, suppressed) =>
      && s.active && reported > 0 && s.reported + reported == s.suppressed == suppressed
      && total == s.lines + s.suppressed
      && duration == at - s.since && (slot.Own? ==> level == s.worst)
    case RecoveryWritten(_, at, total, duration, reported, suppressed) =>
      && s.active && s.lines > 0 && at >= s.retryAt
      && s.reported + reported == s.suppressed == suppressed && total == s.lines + s.suppressed
      && duration == at - s.since
    case RecoveryLost(_, at) => s.active && s.lines > 0 && at >= s.retryAt
    case ClosedSilently(_, _) => s.active && s.lines == 0
    case Forgotten(_, at) => !s.active && at >= s.nextAllowed
  }

  ghost predicate MayFollow(trace: seq<LogEvent>, e: LogEvent) {
    !e.SessionStarted? ==> Allowed(Recall(trace, SlotOf(e)), e) && Latest(trace) <= e.at
  }

  ghost predicate Legal(trace: seq<LogEvent>) {
    |trace| == 0 ||
    var n := |trace| - 1;
    Legal(trace[..n]) && MayFollow(trace[..n], trace[n])
  }

  lemma OneMore(trace: seq<LogEvent>, e: LogEvent)
    requires Legal(trace) && MayFollow(trace, e)
    ensures Legal(trace + [e])
    ensures forall slot :: Recall(trace + [e], slot) == Watch(Recall(trace, slot), slot, e)
    ensures Latest(trace + [e]) == if e.SessionStarted? then Latest(trace) else e.at
  {
    assert (trace + [e])[..|trace|] == trace;
  }

  lemma {:induction false} LegalAt(trace: seq<LogEvent>, i: nat)
    requires Legal(trace) && i <= |trace|
    ensures Legal(trace[..i])
    ensures i < |trace| ==> MayFollow(trace[..i], trace[i])
  {
    hide MayFollow;
    if i == |trace| {
      assert trace[..i] == trace;
    } else {
      var n := |trace| - 1;
      assert trace[..n][..i] == trace[..i];
      if i < n {
        LegalAt(trace[..n], i);
      }
    }
  }

  lemma LastStep(trace: seq<LogEvent>, slot: Slot)
    requires |trace| > 0
    ensures var before := trace[..|trace| - 1];
            && Recall(trace, slot) == Watch(Recall(before, slot), slot, trace[|trace| - 1])
            && (Legal(trace) ==> Legal(before) && MayFollow(before, trace[|trace| - 1]))
  {
  }

  // ---------------------------------------------------------------- failures and recoveries alternate

  /** The slot has a reported failure that no recovery has closed in this session. */
  ghost predicate IsReported(trace: seq<LogEvent>, key: Key) {
    exists f :: 0 <= f < |trace| && ReportedAt(trace, key, f)
  }

  ghost predicate ReportedAt(trace: seq<LogEvent>, key: Key, f: nat)
    requires f < |trace|
  {
    && trace[f].FailureWritten? && trace[f].slot == Own(key)
    && forall k :: f < k < |trace| ==> !(trace[k].RecoveryWritten? && trace[k].key == key) && !trace[k].SessionStarted?
  }

  lemma ReportStep(trace: seq<LogEvent>, key: Key)
    requires |trace| > 0
    ensures var e := trace[|trace| - 1];
            IsReported(trace, key) <==>
            || (e.FailureWritten? && e.slot == Own(key))
            || (IsReported(trace[..|trace| - 1], key) && !(e.RecoveryWritten? && e.key == key) && !e.SessionStarted?)
  {
    var n := |trace| - 1;
    if IsReported(trace, key) {
      var f :| 0 <= f < |trace| && ReportedAt(trace, key, f);
      assert f < n ==> ReportedAt(trace[..n], key, f);
    }
    if IsReported(trace[..n], key) {
      var f :| 0 <= f < n && ReportedAt(trace[..n], key, f);
      assert trace[n].SessionStarted? || (trace[n].RecoveryWritten? && trace[n].key == key)
        || ReportedAt(trace, key, f);
    }
    if trace[n].FailureWritten? && trace[n].slot == Own(key) {
      assert ReportedAt(trace, key, n);
    }
  }

  lemma LinesStep(s: Slate, slot: Slot, e: LogEvent)
    requires s.lines > 0 ==> s.active
    requires !e.SessionStarted? && SlotOf(e) == slot ==> Allowed(s, e)
    ensures var after := Watch(s, slot, e);
            && (after.lines > 0 ==> after.active)
            && (after.lines > 0 <==> (e.FailureWritten? && e.slot == slot)
                                     || (s.lines > 0 && !(e.RecoveryWritten? && Own(e.key) == slot)
                                         && !e.SessionStarted?))
  {
  }

  lemma {:induction false} ReportedMeansLines(trace: seq<LogEvent>, key: Key)
    requires Legal(trace)
    ensures var s := Recall(trace, Own(key));
            (s.lines > 0 ==> s.active) && (s.lines > 0 <==> IsReported(trace, key))
  {
    if |trace| > 0 {
      hide Allowed, Watch, IsReported;
      LastStep(trace, Own(key));
      ReportedMeansLines(trace[..|trace| - 1], key);
      ReportStep(trace, key);
      LinesStep(Recall(trace[..|trace| - 1], Own(key)), Own(key), trace[|trace| - 1]);
    }
  }

  /** Failures and recoveries alternate: a recovery record is written only for a failure that was
      written in the same session and that no other recovery record has closed. */
  lemma {:induction false} RecoveryClosesOneReport(trace: seq<LogEvent>, i: nat)
    requires Legal(trace) && i < |trace| && trace[i].RecoveryWritten?
    ensures IsReported(trace[..i], trace[i].key) && !IsReported(trace[..i + 1], trace[i].key)
  {
    LegalAt(trace, i);
    ReportedMeansLines(trace[..i], trace[i].key);
    assert trace[..i + 1][..i] == trace[..i];
    ReportStep(trace[..i + 1], trace[i].key);
  }

  /** Between two recovery records of a key a failure line of that key was written. */
  lemma {:induction false} RecoveriesAlternate(trace: seq<LogEvent>, i: nat, j: nat)
    requires Legal(trace) && i < j < |trace| && trace[i].RecoveryWritten? && trace[j].RecoveryWritten?
    requires trace[i].key == trace[j].key
    ensures exists f :: i < f < j && trace[f].FailureWritten? && trace[f].slot == Own(trace[j].key)
  {
    RecoveryClosesOneReport(trace, j);
    var f :| 0 <= f < j && ReportedAt(trace[..j], trace[j].key, f);
    assert trace[..j][i] == trace[i] && trace[..j][f] == trace[f];
    assert f > i;
  }

  /** A period that is closed without a recovery record had no failure line. */
  lemma {:induction false} SilentCloseHidesNothing(trace: seq<LogEvent>, i: nat)
    requires Legal(trace) && i < |trace| && trace[i].ClosedSilently?
    ensures !IsReported(trace[..i], trace[i].key)
  {
    LegalAt(trace, i);
    ReportedMeansLines(trace[..i], trace[i].key);
  }

  // ---------------------------------------------------------------- nothing is lost in counting

  /** Failures of the slot whose line was written. */
  ghost function Written(trace: seq<LogEvent>, slot: Slot): nat {
    if |trace| == 0 then 0
    else
      var e := trace[|trace| - 1];
      Written(trace[..|trace| - 1], slot) + if e.FailureWritten? && e.slot == slot then 1 else 0
  }

  /** Failures of the slot whose line was held back or lost. */
  ghost function Unwritten(trace: seq<LogEvent>, slot: Slot): nat {
    if |trace| == 0 then 0
    else
      var e := trace[|trace| - 1];
      Unwritten(trace[..|trace| - 1], slot) + if (e.FailureHeld? || e.FailureLost?) && e.slot == slot then 1 else 0
  }

  /** What failure lines and summaries of the slot have reported as suppressed. */
  ghost function Told(trace: seq<LogEvent>, slot: Slot): nat {
    if |trace| == 0 then 0
    else
      var e := trace[|trace| - 1];
      Told(trace[..|trace| - 1], slot) + if (e.FailureWritten? || e.SummaryWritten?) && e.slot == slot then e.reported
        else 0
  }

  ghost predicate Closes(e: LogEvent, slot: Slot) {
    e.SessionStarted? || ((e.RecoveryWritten? || e.ClosedSilently?) && Own(e.key) == slot)
  }

  /** The failure period of the slot that is under way began at `p`: nothing was counted before, and
      nothing has closed it since. */
  ghost predicate PeriodSince(trace: seq<LogEvent>, slot: Slot, p: nat) {
    p <= |trace| && !Recall(trace[..p], slot).active && forall k :: p <= k < |trace| ==> !Closes(trace[k], slot)
  }

  lemma CountStep(s: Slate, slot: Slot, e: LogEvent)
    requires !Closes(e, slot) && (!s.active ==> s.lines == 0 && s.suppressed == 0 && s.reported == 0)
    ensures var after := Watch(s, slot, e);
            && after.lines == s.lines + (if e.FailureWritten? && e.slot == slot then 1 else 0)
            && after.suppressed == s.suppressed
               + (if (e.FailureHeld? || e.FailureLost?) && e.slot == slot then 1 else 0)
            && after.reported == s.reported + if (e.FailureWritten? || e.SummaryWritten?)
                                                 && e.slot == slot then e.reported else 0
  {
  }

  /** A slot without a failure period counts nothing, and nothing is reported that was not suppressed. */
  lemma {:induction false} SlateIsSound(trace: seq<LogEvent>, slot: Slot)
    requires Legal(trace)
    ensures var s := Recall(trace, slot);
            && (!s.active ==> s == Closed(s))
            && s.reported <= s.suppressed
            && (s.active ==> s.since <= Latest(trace) && s.lines + s.suppressed > 0)
  {
    if |trace| > 0 {
      SlateIsSound(trace[..|trace| - 1], slot);
      SlateStep(Recall(trace[..|trace| - 1], slot), slot, trace[|trace| - 1], Latest(trace[..|trace| - 1]));
    }
  }

  lemma SlateStep(s: Slate, slot: Slot, e: LogEvent, now: nat)
    requires (!s.active ==> s == Closed(s)) && s.reported <= s.suppressed
    requires s.active ==> s.since <= now && s.lines + s.suppressed > 0
    requires !e.SessionStarted? ==> now <= e.at && (SlotOf(e) == slot ==> Allowed(s, e))
    ensures var after := Watch(s, slot, e);
            && (!after.active ==> after == Closed(after)) && after.reported <= after.suppressed
            && (after.active ==> !e.SessionStarted? && after.since <= e.at && after.lines + after.suppressed > 0)
  {
  }

  lemma CountsGrow(trace: seq<LogEvent>, slot: Slot, p: nat)
    requires p < |trace|
    ensures var e, before := trace[|trace| - 1], trace[..|trace| - 1][p..];
            && Written(trace[p..], slot) == Written(before, slot)
               + (if e.FailureWritten? && e.slot == slot then 1 else 0)
            && Unwritten(trace[p..], slot)
               == Unwritten(before, slot) + (if (e.FailureHeld? || e.FailureLost?) && e.slot == slot then 1 else 0)
            && Told(trace[p..], slot)
               == Told(before, slot) + if (e.FailureWritten? || e.SummaryWritten?) && e.slot == slot then e.reported
                 else 0
  {
    var n := |trace| - 1;
    assert trace[p..][..n - p] == trace[..n][p..];
  }

  /** The slate of a period counts exactly the events of that period. */
  lemma {:induction false} SlateCountsPeriod(trace: seq<LogEvent>, slot: Slot, p: nat)
    requires Legal(trace) && PeriodSince(trace, slot, p)
    ensures var s := Recall(trace, slot);
            && s.lines == Written(trace[p..], slot)
            && s.suppressed == Unwritten(trace[p..], slot)
            && s.reported == Told(trace[p..], slot)
  {
    if p == |trace| {
      assert trace[..p] == trace;
      SlateIsSound(trace, slot);
    } else {
      hide Watch, Closes, Written, Unwritten, Told;
      var n := |trace| - 1;
      assert trace[..n][..p] == trace[..p];
      SlateCountsPeriod(trace[..n], slot, p);
      LastStep(trace, slot);
      SlateIsSound(trace[..n], slot);
      CountStep(Recall(trace[..n], slot), slot, trace[n]);
      CountsGrow(trace, slot, p);
    }
  }

  /** Every active period began somewhere. */
  lemma {:induction false} PeriodBegan(trace: seq<LogEvent>, slot: Slot) returns (p: nat)
    requires Legal(trace) && Recall(trace, slot).active
    ensures p < |trace| && PeriodSince(trace, slot, p)
  {
    var n := |trace| - 1;
    if Recall(trace[..n], slot).active {
      p := PeriodBegan(trace[..n], slot);
      assert trace[..n][..p] == trace[..p];
    } else {
      p := n;
    }
  }

  /** Conservation. Within a failure period, what failure lines and summaries have reported as
      suppressed never exceeds what was suppressed, and each line reports all that is left. */
  lemma {:induction false} SuppressedIsReported(trace: seq<LogEvent>, slot: Slot, p: nat)
    requires Legal(trace) && PeriodSince(trace, slot, p)
    ensures Told(trace[p..], slot) <= Unwritten(trace[p..], slot)
    ensures |trace| > p && trace[|trace| - 1].FailureWritten? && trace[|trace| - 1].slot == slot ==>
              Told(trace[p..], slot) == Unwritten(trace[p..], slot)
    ensures |trace| > p && trace[|trace| - 1].SummaryWritten? && trace[|trace| - 1].slot == slot ==>
              Told(trace[p..], slot) == Unwritten(trace[p..], slot)
  {
    SlateCountsPeriod(trace, slot, p);
    SlateIsSound(trace, slot);
    if |trace| > p {
      LastStep(trace, slot);
      SlateIsSound(trace[..|trace| - 1], slot);
    }
  }

  /** A recovery record tells the whole failure period: how many failures there were, how many of
      their lines were not written, how many of those no line has mentioned, and how long it lasted. */
  lemma {:induction false} RecoveryTellsAll(trace: seq<LogEvent>, i: nat)
    requires Legal(trace) && i < |trace| && trace[i].RecoveryWritten?
    ensures exists p :: 0 <= p < i && RecoveryTells(trace, i, p)
  {
    var slot := Own(trace[i].key);
    LegalAt(trace, i);
    var p := PeriodBegan(trace[..i], slot);
    SlateCountsPeriod(trace[..i], slot, p);
    assert trace[..i][p..] == trace[p..i];
    assert trace[..i][..p] == trace[..p];
    assert RecoveryTells(trace, i, p);
  }

  ghost predicate RecoveryTells(trace: seq<LogEvent>, i: nat, p: nat)
    requires p < i < |trace| && trace[i].RecoveryWritten?
  {
    var slot, period := Own(trace[i].key), trace[p..i];
    && PeriodSince(trace[..i], slot, p)
    && trace[i].total == Written(period, slot) + Unwritten(period, slot)
    && trace[i].suppressed == Unwritten(period, slot)
    && trace[i].reported == Unwritten(period, slot) - Told(period, slot)
    && Written(period, slot) > 0
  }

  // ---------------------------------------------------------------- cooldowns

  /** An attempt to write a line of the slot, and how long it closes the slot. */
  ghost predicate Attempts(e: LogEvent, slot: Slot) {
    (e.FailureLost? || e.FailureWritten?) && e.slot == slot
  }

  lemma CooldownStep(s: Slate, slot: Slot, e: LogEvent)
    requires !e.SessionStarted? && (SlotOf(e) == slot ==> Allowed(s, e))
    ensures var after := Watch(s, slot, e);
            && s.nextAllowed <= after.nextAllowed
            && (Attempts(e, slot) ==> e.at >= s.nextAllowed && after.nextAllowed == e.at + e.interval)
  {
  }

  lemma {:induction false} CooldownIsRemembered(trace: seq<LogEvent>, slot: Slot, i: nat)
    requires Legal(trace) && i < |trace| && Attempts(trace[i], slot)
    requires forall k :: i < k < |trace| ==> !trace[k].SessionStarted?
    ensures Recall(trace, slot).nextAllowed >= trace[i].at + trace[i].interval
  {
    hide Allowed, Watch;
    var n := |trace| - 1;
    LastStep(trace, slot);
    CooldownStep(Recall(trace[..n], slot), slot, trace[n]);
    if i < n {
      CooldownIsRemembered(trace[..n], slot, i);
    }
  }

  /** The cooldown survives flapping: within a session, after an attempt at `t` with interval `d`, no
      attempt for the same slot comes before `t + d`, whatever recoveries, silent closes, erasures
      and re-creations lie between. */
  lemma {:induction false} CooldownIsKept(trace: seq<LogEvent>, slot: Slot, i: nat, j: nat)
    requires Legal(trace) && i < j < |trace| && Attempts(trace[i], slot) && Attempts(trace[j], slot)
    requires forall k :: i < k < j ==> !trace[k].SessionStarted?
    ensures trace[j].at >= trace[i].at + trace[i].interval
  {
    LegalAt(trace, j);
    CooldownIsRemembered(trace[..j], slot, i);
  }

  /** A failure is held back only within the cooldown of an attempt of the same session. */
  lemma {:induction false} HeldOnlyInCooldown(trace: seq<LogEvent>, j: nat)
    requires Legal(trace) && j < |trace| && trace[j].FailureHeld?
    ensures exists i :: 0 <= i < j && HoldsBack(trace, i, j)
  {
    LegalAt(trace, j);
    var i := CooldownHasCause(trace[..j], trace[j].slot);
    assert HoldsBack(trace, i, j);
  }

  ghost predicate HoldsBack(trace: seq<LogEvent>, i: nat, j: nat)
    requires i < j < |trace| && trace[j].FailureHeld?
  {
    && Attempts(trace[i], trace[j].slot) && trace[j].at < trace[i].at + trace[i].interval
    && forall k :: i < k < j ==> !trace[k].SessionStarted?
  }

  lemma {:induction false} CooldownHasCause(trace: seq<LogEvent>, slot: Slot) returns (i: nat)
    requires Recall(trace, slot).nextAllowed > 0
    ensures i < |trace| && Attempts(trace[i], slot)
            && Recall(trace, slot).nextAllowed == trace[i].at + trace[i].interval
    ensures forall k :: i < k < |trace| ==> !trace[k].SessionStarted?
  {
    var n := |trace| - 1;
    if Attempts(trace[n], slot) {
      i := n;
    } else {
      i := CooldownHasCause(trace[..n], slot);
    }
  }

  /** The same for recovery records: a lost one is tried again after 30 seconds. */
  lemma RetryStep(s: Slate, slot: Slot, e: LogEvent)
    requires !e.SessionStarted? && !(e.RecoveryWritten? && Own(e.key) == slot)
             && !(e.ClosedSilently? && Own(e.key) == slot)
    requires SlotOf(e) == slot ==> Allowed(s, e)
    ensures var after := Watch(s, slot, e);
            && s.retryAt <= after.retryAt
            && (e.RecoveryLost? && Own(e.key) == slot ==> after.retryAt == e.at + RECOVERY_RETRY_MS)
  {
  }

  lemma {:induction false} LossIsRemembered(trace: seq<LogEvent>, i: nat)
    requires Legal(trace) && i < |trace| && trace[i].RecoveryLost?
    requires forall k :: i < k < |trace| ==> !Closes(trace[k], Own(trace[i].key))
    ensures Recall(trace, Own(trace[i].key)).retryAt >= trace[i].at + RECOVERY_RETRY_MS
  {
    hide Allowed, Watch;
    var n := |trace| - 1;
    var slot := Own(trace[i].key);
    LastStep(trace, slot);
    RetryStep(Recall(trace[..n], slot), slot, trace[n]);
    if i < n {
      LossIsRemembered(trace[..n], i);
    }
  }

  lemma {:induction false} RecoveryRetriesAreSpaced(trace: seq<LogEvent>, i: nat, j: nat)
    requires Legal(trace) && i < j < |trace| && trace[i].RecoveryLost?
    requires (trace[j].RecoveryLost? || trace[j].RecoveryWritten?) && trace[j].key == trace[i].key
    requires forall k :: i < k < j ==> !Closes(trace[k], Own(trace[i].key))
    ensures trace[j].at >= trace[i].at + RECOVERY_RETRY_MS
  {
    LegalAt(trace, j);
    LossIsRemembered(trace[..j], i);
  }
}
