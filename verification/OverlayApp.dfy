/** The overlay reconciler of the dev build, with the Win32 calls it makes.

    Every Win32 call may fail, and during every call that can dispatch messages the environment may
    hide or destroy the overlay and re-enter the reconciler any number of times (`Interfere`). Ghost
    events record what happens; `Emit` demands that each of them be allowed by `OverlayProtocol`. */
module OverlayApp {
  import opened OverlayPolicy
  import opened Ticks
  import opened OverlayObservation
  import opened OverlayProtocol
  import opened OverlaySteps

  /** `window.overlay_hwnd`, `placement.taskbar_owner` and the present diagnostics of that window. */
  datatype OverlayRecord =
    OverlayRecord(hwnd: Hwnd, taskbarOwner: Hwnd, createdTick: Tick, lastPresentTick: Tick)

  const NO_OVERLAY := OverlayRecord(0, 0, 0, 0)

  datatype OwnerBinding =
    OwnerBinding(target: Hwnd, nextRetryMs: nat, attempts: nat, pending: bool, exhausted: bool)

  const NO_BINDING := OwnerBinding(0, 0, 0, false, false)

  /** Requests that no pass has received. `unheard` says that the last wake-up could not be posted. */
  datatype Inbox = Inbox(
    pending: bool, pendingFlags: set<Flag>, queuedFlags: set<Flag>, messageQueued: bool, ghost unheard: bool) {
    /** Somebody will come back for what is in the inbox, unless the wake-up could not be posted. */
    ghost predicate Awaited() {
      messageQueued || unheard
    }
  }

  datatype SuppressionState = SuppressionState(
    policy: SuppressionPolicyState, overlayUpdateFrozen: bool,
    startedTick: Tick, refreshResumeTick: Tick, decisionSequence: nat)

  datatype Schedule = Schedule(
    deferredFlags: set<Flag>, nextDestroyRetryTick: Tick, nextVisibilityRetryTick: Tick,
    recreatePending: bool, visibilityRetryPending: bool, lastRepairTick: Tick)

  /** The system's side: which overlay windows exist and are visible, posted messages, and the time. */
  datatype Desktop = Desktop(alive: set<Hwnd>, visible: set<Hwnd>, posted: nat, clock: nat)

  /** What `CaptureOverlayState` reports of an overlay that should be visible. */
  datatype OverlaySnapshot = OverlaySnapshot(seen: RepairObservation, cloaked: bool)

  function DeadlineTick(since: Moment, delay: nat): Tick {
    if since.Never? then 0 else AddTicks(TickOf(since.ms), delay)
  }

  /** The stored deadline tick of a wait says what the wait says. */
  lemma DeadlineReads(since: Moment, delay: nat, now: nat)
    ensures var deadline := DeadlineTick(since, delay);
            WaitOver(since, delay, now) <==> deadline == 0 || TickPassed(TickOf(now), deadline)
  {
    if since.At? {
      AddTicksIsReal(since.ms, delay);
    }
  }

  /** The last present of the overlay, or its creation if it has had none, is too long ago. */
  predicate IsStale(record: OverlayRecord, tick: Tick) {
    if record.lastPresentTick != 0 then TicksSince(tick, record.lastPresentTick) > STALE_THRESHOLD_MS
    else record.createdTick != 0 && TickPassed(tick, AddTicks(record.createdTick, STALE_THRESHOLD_MS))
  }

  /** Within the 49 days that the clock can tell, a presented overlay reads as stale exactly when that was
      over five seconds ago. Only a present at tick 0, which is stored as 1, reads as stale at once, in the
      same millisecond, and else one millisecond late. */
  lemma StaleMeansOld(record: OverlayRecord, presented: nat, now: nat)
    requires record.lastPresentTick == NonZeroTick(TickOf(presented)) && presented <= now < presented + TICK_MODULUS
    ensures IsStale(record, TickOf(now)) <==>
            if TickOf(presented) != 0 then now - presented > STALE_THRESHOLD_MS
            else now == presented || now - presented > STALE_THRESHOLD_MS + 1
  {
    if TickOf(presented) != 0 {
      assert TicksSince(TickOf(now), TickOf(presented)) == now - presented;
    } else if now > presented {
      ZeroIsStoredAsOne(presented);
      assert TicksSince(TickOf(now), TickOf(presented + 1)) == now - (presented + 1);
    }
  }

  /** An overlay that was never presented reads as stale once five seconds have passed since its creation. */
  lemma NeverPresentedIsStale(record: OverlayRecord, created: nat, now: nat)
    requires record.lastPresentTick == 0 && record.createdTick == NonZeroTick(TickOf(created)) && created <= now
    ensures IsStale(record, TickOf(now)) ==> now >= created + STALE_THRESHOLD_MS
    ensures created + STALE_THRESHOLD_MS < now < created + STALE_THRESHOLD_MS + HALF_RANGE ==>
              IsStale(record, TickOf(now))
  {
    if IsStale(record, TickOf(now)) {
      NeverPassedEarlyNonZero(created, STALE_THRESHOLD_MS, now);
    } else {
      NotPassedMeansNonZero(created, STALE_THRESHOLD_MS, now);
    }
  }

  /** What a pass remembers of its earlier parts. */
  datatype PassFacts = PassFacts(incoming: set<Flag>, created: bool, identityChanged: bool, restored: bool) {
    ghost predicate Match(pass: Pass) {
      && pass.Running? && pass.incoming == incoming && pass.life.created == created
      && pass.view.identityChanged == identityChanged && pass.view.restored == restored
    }
  }

  // ---------------------------------------------------------------- what the fields owe to the history

  /** Windows: at most the one on record exists, and nothing is visible that was not presented. */
  ghost predicate WorldBy(world: World, alive: set<Hwnd>, visible: set<Hwnd>, recorded: Hwnd) {
    && alive == world.alive && visible == world.visible
    && visible <= world.presented <= alive <= {recorded} && 0 !in alive
  }

  /** Requests: what no pass has received is in the inbox. `loose` are requests about to be put there. */
  ghost predicate MailBy(mail: Mail, inbox: Inbox, posted: nat, passes: nat, loose: set<Flag>) {
    && mail.passes == passes
    && mail.outstanding <= inbox.pendingFlags + inbox.queuedFlags + loose
    && mail.handed + inbox.pendingFlags + inbox.queuedFlags <= mail.requested
    && mail.requested <= mail.handed + inbox.pendingFlags + inbox.queuedFlags + loose
    && (inbox.pendingFlags != {} ==> inbox.pending)
    && posted == (if inbox.messageQueued then 1 else 0)
    && (inbox.queuedFlags != {} ==> inbox.Awaited())
  }

  /** A pass takes over what was about to be put into the inbox. */
  lemma MailIsHanded(mail: Mail, inbox: Inbox, posted: nat, passes: nat, flags: set<Flag>)
    requires MailBy(mail, inbox, posted, passes, flags) && flags <= mail.requested
    ensures MailBy(WatchMail(mail, PassBegan(flags)), inbox, posted, passes + 1, {})
  {
  }

  lemma LooseRequests(mail: Mail, inbox: Inbox, posted: nat, passes: nat, flags: set<Flag>)
    requires MailBy(mail, inbox, posted, passes, {})
    ensures MailBy(mail, inbox, posted, passes, flags)
  {
  }

  /** A request is noted and put into the queue, and somebody is told to come back for it if possible. */
  lemma RequestIsQueued(mail: Mail, inbox: Inbox, posted: nat, passes: nat, flags: set<Flag>, inbox': Inbox,
                        posted': nat)
    requires MailBy(mail, inbox, posted, passes, {})
    requires inbox'.pending == inbox.pending && inbox'.pendingFlags == inbox.pendingFlags
    requires inbox'.queuedFlags == inbox.queuedFlags + flags && inbox'.Awaited()
    requires posted' == if inbox'.messageQueued then 1 else 0
    ensures MailBy(WatchMail(mail, Requested(flags)), inbox', posted', passes, {})
  {
  }

  /** A request is noted and left for the next pass. */
  lemma RequestIsPending(mail: Mail, inbox: Inbox, posted: nat, passes: nat, flags: set<Flag>)
    requires MailBy(mail, inbox, posted, passes, flags)
    ensures var pending := inbox.(pending := true, pendingFlags := inbox.pendingFlags + flags);
            MailBy(WatchMail(mail, Requested(flags)), pending, posted, passes, {})
  {
  }

  ghost predicate InThePast(moment: Moment, clock: nat) {
    moment.At? ==> moment.ms <= clock
  }

  /** Every retry deadline is where the history puts it. */
  ghost predicate PacedBy(pace: Pace, schedule: Schedule) {
    && schedule.recreatePending == pace.recreate
    && schedule.nextDestroyRetryTick == DeadlineTick(pace.teardownRefused, REPAIR_INTERVAL_MS)
    && schedule.nextVisibilityRetryTick == DeadlineTick(pace.showRefused, REPAIR_INTERVAL_MS)
    && schedule.visibilityRetryPending == pace.showRefused.At?
    && schedule.lastRepairTick == (if pace.repaired.Never? then 0 else NonZeroTick(TickOf(pace.repaired.ms)))
    && InThePast(pace.teardownRefused, pace.clock) && InThePast(pace.showRefused, pace.clock)
    && InThePast(pace.repaired, pace.clock)
  }

  ghost predicate BoundBy(pace: Pace, binding: OwnerBinding) {
    binding.pending ==>
      && pace.armed && binding.attempts == pace.ownerSets
      && (pace.ownerSetAt.At? ==> binding.nextRetryMs >= pace.ownerSetAt.ms + BINDING_RETRY_MS)
  }

  /** A binding that has been dropped, or armed afresh and not used since. */
  ghost predicate Rearmed(pace: Pace, binding: OwnerBinding) {
    binding.pending ==>
      pace.armed && binding.attempts == 0 && pace.ownerSets == 0 && pace.ownerSetAt.Never?
  }

  /** What others may do to the owner binding while one of our calls runs. */
  ghost predicate BindingKept(pace: Pace, binding: OwnerBinding, pace': Pace, binding': OwnerBinding) {
    || Rearmed(pace', binding')
    || (&& binding' == binding && pace'.armed == pace.armed && pace'.ownerSets == pace.ownerSets
        && pace'.ownerSetAt == pace.ownerSetAt)
  }

  lemma BindingStaysBound(pace: Pace, binding: OwnerBinding, pace': Pace, binding': OwnerBinding)
    requires BoundBy(pace, binding) && BindingKept(pace, binding, pace', binding')
    ensures BoundBy(pace', binding')
  {
  }

  lemma OwnerSetIsDue(h: History, binding: OwnerBinding, now: nat)
    requires h.pass.Running? && h.pace.clock <= now && BoundBy(h.pace, binding) && binding.pending
    requires binding.attempts < BINDING_MAX_ATTEMPTS && now >= binding.nextRetryMs
    ensures Allowed(h, OwnerSet(now))
  {
    OwnerSetAllowed(h, now);
  }

  /** The time of the next attempt may be set whatever others have done. */
  lemma RetryStaysBound(pace: Pace, binding: OwnerBinding, pace': Pace, binding': OwnerBinding, next: nat)
    requires BoundBy(pace, binding.(nextRetryMs := next)) && BindingKept(pace, binding, pace', binding')
    ensures BoundBy(pace', binding'.(nextRetryMs := next))
  {
  }

  /** What goes by the waits and conclusions still does. */
  lemma KeptAnyway(h: History, h': History, schedule: Schedule, identity: TaskbarIdentityState,
                   suppression: SuppressionState)
    requires Disturbed(h, h') && PacedBy(h.pace, schedule)
    requires ConcludedBy(h.mind, h.pace.clock, identity, suppression)
    ensures PacedBy(h'.pace, schedule) && ConcludedBy(h'.mind, h'.pace.clock, identity, suppression)
  {
  }

  /** The conclusions drawn from the observations. */
  ghost predicate ConcludedBy(mind: Mind, clock: nat, identity: TaskbarIdentityState, suppression: SuppressionState) {
    && identity == mind.identity
    && suppression.policy == mind.suppression
    && suppression.overlayUpdateFrozen == mind.frozen
    && suppression.decisionSequence == mind.decisions
    && (suppression.startedTick != 0 <==> !suppression.policy.committed.None?)
    && suppression.refreshResumeTick == (if mind.resumeAt.Never? then 0 else TickOf(mind.resumeAt.ms))
    && (mind.resumeAt.At? ==> suppression.refreshResumeTick != 0 && mind.resumeAt.ms <= clock + RESUME_DELAY_MS)
  }

  /** The conclusion drawn from a look at the foreground window. */
  lemma ForegroundConcluded(h: History, identity: TaskbarIdentityState, suppression: SuppressionState,
                            screenshot: bool, at: nat)
    requires h.pass.Running? && ConcludedBy(h.mind, h.pace.clock, identity, suppression) && h.pace.clock <= at
    ensures var resumeTick := if screenshot == h.mind.frozen then suppression.refreshResumeTick
                              else if screenshot then 0 else AddTicks(TickOf(at), RESUME_DELAY_MS);
            ConcludedBy(Watch(h, ForegroundSeen(screenshot, at)).mind, at, identity,
                        suppression.(overlayUpdateFrozen := screenshot, refreshResumeTick := resumeTick))
  {
    AddTicksIsReal(at, RESUME_DELAY_MS);
    ForegroundEffect(h, screenshot, at);
    hide Watch;
  }

  lemma ResumeConcluded(h: History, identity: TaskbarIdentityState, suppression: SuppressionState, at: nat)
    requires h.pass.Running? && ConcludedBy(h.mind, h.pace.clock, identity, suppression) && h.pace.clock <= at
    requires suppression.refreshResumeTick != 0 && TickPassed(TickOf(at), suppression.refreshResumeTick)
    requires !h.mind.frozen && suppression.policy.committed.None?
    ensures Allowed(h, ResumeFinished(at))
    ensures ConcludedBy(Watch(h, ResumeFinished(at)).mind, at, identity, suppression.(refreshResumeTick := 0))
  {
    ResumeEffect(h, at);
    hide Watch;
  }

  /** Only the clock has moved. */
  lemma ClockMoves(h: History, now: nat)
    requires h.pace.clock <= now
    ensures forall schedule :: PacedBy(h.pace, schedule) ==> PacedBy(h.pace.(clock := now), schedule)
  {
  }

  /** The owner binding and the conclusions do not depend on the other waits. */
  lemma BoundAndConcluded(h: History, h': History)
    requires h'.mind == h.mind && h.pace.clock <= h'.pace.clock
    requires h'.pace.armed == h.pace.armed && h'.pace.ownerSets == h.pace.ownerSets
             && h'.pace.ownerSetAt == h.pace.ownerSetAt
    ensures forall binding :: BoundBy(h.pace, binding) ==> BoundBy(h'.pace, binding)
    ensures forall identity, suppression ::
              (ConcludedBy(h.mind, h.pace.clock, identity, suppression)
               ==> ConcludedBy(h'.mind, h'.pace.clock, identity, suppression))
  {
  }

  /** A look at the taskbar: everything that goes by the history still does. */
  lemma TaskbarKept(h: History, h': History, result: TaskbarIdentityResult, schedule: Schedule, binding: OwnerBinding,
                    suppression: SuppressionState, owner: Hwnd)
    requires GenerationSeen(h, h', result) && h.pace.clock <= h'.pace.clock
    requires PacedBy(h.pace, schedule) && BoundBy(h.pace, binding)
    requires ConcludedBy(h.mind, h.pace.clock, h.mind.identity, suppression)
    requires OwnedBy(h.world, h.pace.recreate, owner, h.mind.identity.committed.hwnd)
    requires !result.committedChanged ==> result.state.committed == h.mind.identity.committed
    ensures PacedBy(h'.pace, if result.committedChanged
                             then schedule.(recreatePending := true, nextDestroyRetryTick := 0) else schedule)
    ensures BoundBy(h'.pace, binding) && ConcludedBy(h'.mind, h'.pace.clock, result.state, suppression)
    ensures OwnedBy(h'.world, h'.pace.recreate, owner, result.state.committed.hwnd)
  {
  }

  lemma TaskbarWorld(h: History, h': History, result: TaskbarIdentityResult, alive: set<Hwnd>, visible: set<Hwnd>,
                     recorded: Hwnd)
    requires GenerationSeen(h, h', result) && WorldBy(h.world, alive, visible, recorded)
    ensures WorldBy(h'.world, alive, visible, recorded) && h'.pass.Running?
    ensures h'.mail == h.mail && h'.world.presents == h.world.presents && h'.world.created == h.world.created
  {
  }

  /** A decision on the desktop: the policy follows the history, and the start tick marks a suppression. */
  lemma SuppressionConcluded(h: History, seen: SuppressionObservation, at: nat, identity: TaskbarIdentityState,
                             before: SuppressionState, after: SuppressionState)
    requires h.pass.Running? && ConcludedBy(h.mind, h.pace.clock, identity, before) && h.pace.clock <= at
    requires var result := ReduceSuppressionPolicy(h.mind.suppression, seen, at, SHIPPED_CONFIG);
             after == before.(
               policy := result.state, startedTick := after.startedTick,
               decisionSequence := before.decisionSequence + if result.committedChanged then 1 else 0)
    requires after.startedTick != 0 <==> !after.policy.committed.None?
    ensures ConcludedBy(Watch(h, SuppressionSeen(seen, at)).mind, at, identity, after)
  {
    SuppressionEffect(h, seen, at);
    hide Watch, ReduceSuppressionPolicy;
  }

  lemma BoundLater(pace: Pace, pace': Pace, binding: OwnerBinding)
    requires BoundBy(pace, binding) && pace' == pace.(clock := pace'.clock)
    ensures BoundBy(pace', binding)
  {
  }

  /** The tick of a repair is put where the next one looks for it. */
  lemma RepairIsPaced(pace: Pace, schedule: Schedule, now: nat)
    requires PacedBy(pace, schedule) && pace.clock <= now
    ensures PacedBy(pace.(clock := now, repaired := At(now)),
                    schedule.(lastRepairTick := NonZeroTick(TickOf(now))))
  {
  }

  lemma PacedAnyway(pace: Pace, before: Schedule, after: Schedule)
    requires PacedBy(pace, before) && after == before.(deferredFlags := after.deferredFlags)
    ensures PacedBy(pace, after)
  {
  }

  /** Events that change nothing but the record of the pass and call under way. */
  ghost predicate Light(e: Event) {
    || IsQuiet(e) || e.TaskbarProbed? || e.OverlayRefused? || e.OverlayFound? || e.OwnerBound? || e.SawVisible?
       || e.HideTried?
    || e.PrepareBegan? || e.PrepareEnded? || e.PromoteBegan? || e.PromoteEnded? || e.Inspected?
  }

  lemma LightChanges(h: History, e: Event)
    requires Light(e)
    ensures var h' := Watch(h, e);
            h'.mail == h.mail && h'.world == h.world && h'.mind == h.mind && h'.pace == h.pace
    ensures h.pass.Running? ==> Watch(h, e).pass.Running?
  {
    hide WatchPass, WatchCall, WatchOwed, WatchFaults;
    LightIsInside(h.pass, h.owed, h.mind, e);
  }

  lemma LightIsInside(pass: Pass, owed: set<Flag>, mind: Mind, e: Event)
    requires Light(e)
    ensures pass.Running? ==> WatchPass(pass, owed, mind, e).Running?
  {
    hide WatchTodo, WatchDone, WatchView, WatchLife, WatchShow, WatchUpkeep;
  }

  /** An overlay that need not be replaced belongs to the committed taskbar and is younger than it. */
  ghost predicate OwnedBy(world: World, recreate: bool, owner: Hwnd, committed: Hwnd) {
    world.alive != {} && !recreate ==> world.current && owner == committed && committed != 0
  }

  /** An overlay that is still there is still owned; one that is not needs no owner. */
  lemma OwnedAnyway(h: History, h': History, alive: set<Hwnd>, visible: set<Hwnd>, record: OverlayRecord,
                    record': OverlayRecord, committed: Hwnd)
    requires Disturbed(h, h') && (record' == record || record' == NO_OVERLAY)
    requires WorldBy(h'.world, alive, visible, record'.hwnd)
    requires OwnedBy(h.world, h.pace.recreate, record.taskbarOwner, committed)
    ensures OwnedBy(h'.world, h'.pace.recreate, record'.taskbarOwner, committed)
  {
  }

  /** Others make no window, and the pass that calls them goes on. */
  lemma CalledOut(h: History, desktop: Desktop, recorded: Hwnd, h': History, desktop': Desktop, recorded': Hwnd)
    requires Disturbed(h, h') && WorldBy(h.world, desktop.alive, desktop.visible, recorded)
    requires WorldBy(h'.world, desktop'.alive, desktop'.visible, recorded')
    ensures desktop'.alive <= desktop.alive && desktop'.visible <= desktop.visible
    ensures h'.pass == h.pass && h'.world.presents == h.world.presents && h'.world.created == h.world.created
  {
  }

  class App {
    const showKeyWidget: bool
    const monitorInitialized: bool
    var hasController: bool
    var overlayDestroyExpected: bool
    var overlay: OverlayRecord
    var binding: OwnerBinding
    var inbox: Inbox
    var active: bool
    var identity: TaskbarIdentityState
    var suppression: SuppressionState
    var schedule: Schedule
    var presentSequence: nat
    var generation: nat
    var desktop: Desktop

    ghost const start: TaskbarIdentity
    ghost var run: seq<Event>
    ghost var hist: History
    ghost var passes: nat

    /** The history is the recollection of a legal run. */
    ghost predicate Recorded()
      reads this`run, this`hist
    {
      Legal(start, run) && hist == Recall(start, run)
    }

    /** What holds at every moment, also inside Win32 calls. */
    ghost predicate Core(loose: set<Flag>)
      reads this`run, this`hist, this`desktop, this`overlay, this`inbox, this`passes
    {
      && Recorded()
      && WorldBy(hist.world, desktop.alive, desktop.visible, overlay.hwnd)
      && MailBy(hist.mail, inbox, desktop.posted, passes, loose)
      && hist.pace.clock <= desktop.clock
    }

    /** The other fields are functions of the history too. */
    ghost predicate Kept()
      reads this`hist, this`schedule, this`binding, this`suppression, this`identity, this`overlay,
            this`presentSequence, this`generation
    {
      && PacedBy(hist.pace, schedule)
      && BoundBy(hist.pace, binding)
      && ConcludedBy(hist.mind, hist.pace.clock, identity, suppression)
      && OwnedBy(hist.world, hist.pace.recreate, overlay.taskbarOwner, identity.committed.hwnd)
      && presentSequence == hist.world.presents && generation == hist.world.created
    }

    /** No pass is under way: what was deferred is exactly what is owed, and nothing is exposed. */
    ghost predicate Between()
      reads this
    {
      && Kept() && hist.pass.NoPass? && hist.call.Idle? && !overlayDestroyExpected
      && schedule.deferredFlags == hist.owed <= DURABLE && NotExposed(hist)
    }

    /** The invariant between calls of the public methods. */
    ghost predicate Valid()
      reads this
    {
      Core({}) && Between() && !active && (inbox.pending ==> inbox.Awaited())
    }

    /** A pass is under way. */
    ghost predicate Working()
      reads this
    {
      Core({}) && Kept() && active && hist.pass.Running?
    }

    /** A pass is under way that still has `todo` to do. */
    ghost predicate Serving(todo: set<Flag>)
      reads this
    {
      && Working() && hist.call.Idle? && Unstarted(hist.pass)
      && schedule.deferredFlags == {}
      && hist.owed == todo * DURABLE
      && todo <= hist.pass.todo <= todo + hist.pass.done
    }

    /** The pass serves the overlay `hwnd`, which belongs to the committed taskbar. */
    ghost predicate ServingOverlay(todo: set<Flag>, hwnd: Hwnd)
      reads this
    {
      && Serving(todo) && !hist.pace.recreate && hist.pass.view.taskbar.Ready? && hist.pass.life.ensured
      && desktop.alive <= {hwnd}
    }

    constructor (identity: TaskbarIdentity, hasController: bool, monitorInitialized: bool, showKeyWidget: bool)
      ensures Valid() && start == identity && run == []
    {
      this.showKeyWidget := showKeyWidget;
      this.monitorInitialized := monitorInitialized;
      this.hasController := hasController;
      overlayDestroyExpected := false;
      overlay := NO_OVERLAY;
      binding := NO_BINDING;
      inbox := Inbox(false, {}, {}, false, false);
      active := false;
      this.identity := TaskbarIdentityState(identity, identity, 0, false);
      suppression := SuppressionState(OverlayPolicy.Settled(None), false, 0, 0, 0);
      schedule := Schedule({}, 0, 0, false, false, 0);
      presentSequence, generation := 0, 0;
      desktop := Desktop({}, {}, 0, 0);
      start := identity;
      run := [];
      hist := Beginning(identity);
      passes := 0;
    }

    ghost method Emit(e: Event)
      requires Recorded() && Allowed(hist, e)
      modifies this`run, this`hist
      ensures Recorded()
      ensures run == old(run) + [e] && hist == Watch(old(hist), e)
    {
      OneMore(start, run, e);
      run := run + [e];
      hist := Watch(hist, e);
    }

    ghost method NoteRequest(flags: set<Flag>)
      requires Recorded()
      modifies this`run, this`hist
      ensures Recorded()
      ensures run == old(run) + [Requested(flags)]
      ensures hist == old(hist).(mail := WatchMail(old(hist.mail), Requested(flags)))
    {
      hide Legal, Recall, Watch;
      RequestEffect(hist, flags);
      Emit(Requested(flags));
    }

    // -------------------------------------------------------------- environment

    method GetTickCount64() returns (now: nat)
      modifies this`desktop
      ensures now >= old(desktop.clock) && desktop == old(desktop).(clock := now)
    {
      var waited: int :| waited >= 0;
      now := desktop.clock + waited;
      desktop := desktop.(clock := now);
    }

    predicate IsWindow(hwnd: Hwnd)
      reads this`desktop
    {
      hwnd != 0 && hwnd in desktop.alive
    }

    predicate IsWindowVisible(hwnd: Hwnd)
      reads this`desktop
    {
      hwnd in desktop.visible
    }

    /** WM_DESTROY for the overlay, as its window procedure handles it. */
    method HandleOverlayDestroyed(hwnd: Hwnd)
      requires Core({}) && hwnd !in desktop.alive
      modifies this`overlay, this`binding, this`inbox, this`desktop, this`run, this`hist
      ensures Core({}) && Disturbed(old(hist), hist) && hist.pace == old(hist.pace)
      ensures overlay == if old(overlay.hwnd) == hwnd then NO_OVERLAY else old(overlay)
      ensures binding == if old(overlay.hwnd) == hwnd then NO_BINDING else old(binding)
      ensures old(overlay.hwnd) == hwnd && !overlayDestroyExpected && monitorInitialized && hasController ==>
                inbox.queuedFlags == old(inbox.queuedFlags) + {Reposition, Render} && inbox.Awaited()
      ensures desktop.clock == old(desktop.clock)
      ensures inbox == old(inbox) || (inbox.pending == old(inbox.pending) && inbox.Awaited())
    {
      if overlay.hwnd == hwnd {
        overlay := NO_OVERLAY;
        binding := NO_BINDING;
        if !overlayDestroyExpected && monitorInitialized && hasController {
          RequestOverlayReconcile({Reposition, Render});
        }
      }
    }

    /** Something outside our control happens: time passes, the overlay is hidden or destroyed. */
    method EnvironmentStep()
      requires Core({})
      modifies this`overlay, this`binding, this`inbox, this`desktop, this`run, this`hist
      ensures Core({}) && Disturbed(old(hist), hist) && hist.pace == old(hist.pace)
      ensures overlay == old(overlay) || overlay == NO_OVERLAY
      ensures binding == old(binding) || binding == NO_BINDING
      ensures desktop.clock >= old(desktop.clock)
      ensures inbox == old(inbox) || (inbox.pending == old(inbox.pending) && inbox.Awaited())
    {
      hide Legal, Recall, Watch, Allowed, MailBy;
      var hwnd := overlay.hwnd;
      var hidden: bool := *;
      if * {
        var _ := GetTickCount64();
      } else if hwnd in desktop.visible && hidden {
        VanishDisturbs(hist, hwnd);
        Emit(Vanished(hwnd));
        desktop := desktop.(visible := desktop.visible - {hwnd});
      } else if hwnd in desktop.alive {
        DestroyOverlayUnasked(hwnd);
      }
    }

    /** The overlay is destroyed; its window procedure hears of that unless the process was torn down. */
    method DestroyOverlayUnasked(hwnd: Hwnd)
      requires Core({}) && hwnd in desktop.alive
      modifies this`overlay, this`binding, this`inbox, this`desktop, this`run, this`hist
      ensures Core({}) && Disturbed(old(hist), hist) && hist.pace == old(hist.pace)
      ensures overlay == old(overlay) || overlay == NO_OVERLAY
      ensures binding == old(binding) || binding == NO_BINDING
      ensures desktop.clock >= old(desktop.clock)
      ensures inbox == old(inbox) || (inbox.pending == old(inbox.pending) && inbox.Awaited())
    {
      hide Legal, Recall, Watch, Allowed, MailBy, Disturbed;
      DestroyDisturbs(hist, hwnd);
      Emit(Destroyed(hwnd));
      desktop := desktop.(alive := desktop.alive - {hwnd}, visible := desktop.visible - {hwnd});
      ghost var destroyed := hist;
      DisturbedNot(hist);
      if * {
        HandleOverlayDestroyed(hwnd);
      }
      DisturbedTwice(old(hist), destroyed, hist);
    }

    /** What may happen while one of our calls into the system runs. */
    method Interfere()
      requires Core({}) && active
      modifies this`overlay, this`binding, this`inbox, this`desktop, this`run, this`hist
      ensures Core({}) && Disturbed(old(hist), hist)
      ensures overlay == old(overlay) || overlay == NO_OVERLAY
      ensures BindingKept(old(hist.pace), old(binding), hist.pace, binding)
      ensures desktop.clock >= old(desktop.clock)
      decreases 2
    {
      hide Legal, Recall, Watch, Allowed, WorldBy, MailBy, PacedBy, BoundBy, ConcludedBy, OwnedBy, Disturbed;
      DisturbedNot(hist);
      var steps: int :| steps >= 0;
      for i := 0 to steps
        invariant Core({}) && Disturbed(old(hist), hist)
        invariant overlay == old(overlay) || overlay == NO_OVERLAY
        invariant BindingKept(old(hist.pace), old(binding), hist.pace, binding)
        invariant desktop.clock >= old(desktop.clock)
      {
        ghost var before := hist;
        var flags: set<Flag> := *;
        if * {
          EnvironmentStep();
        } else if * {
          RequestOverlayReconcile(flags);
        } else if * {
          LooseRequests(hist.mail, inbox, desktop.posted, passes, flags);
          ReconcileOverlayState(flags);
        } else if * {
          ArmInitialOwnerBindingVerification(overlay.hwnd, identity.committed.hwnd, 0);
          DisturbedByArming(before, hist);
        } else if desktop.posted > 0 {
          HandleQueuedOverlayReconcile();
        } else {
          DisturbedNot(hist);
        }
        DisturbedTwice(old(hist), before, hist);
      }
    }

    // -------------------------------------------------------------- requests

    method RequestOverlayReconcile(flags: set<Flag>)
      requires Core({})
      modifies this`inbox, this`desktop, this`run, this`hist
      ensures Core({}) && Disturbed(old(hist), hist)
      ensures var mail := old(hist.mail).(requested := hist.mail.requested, outstanding := hist.mail.outstanding);
              hist == old(hist).(mail := mail)
      ensures inbox.queuedFlags == old(inbox.queuedFlags) + flags && inbox.Awaited()
      ensures inbox.pending == old(inbox.pending) && inbox.pendingFlags == old(inbox.pendingFlags)
      ensures desktop == old(desktop).(posted := desktop.posted)
      ensures old(Between()) ==> Between()
    {
      hide Legal, Recall, Watch, Allowed, MailBy, PacedBy, BoundBy, ConcludedBy, OwnedBy, NotExposed;
      MessageIsOnTheWay();
      NoteRequest(flags);
      ExposureIsOfTheWorld(old(hist), hist);
      PostReconcile(flags);
      RequestIsQueued(old(hist.mail), old(inbox), old(desktop.posted), passes, flags, inbox, desktop.posted);
    }

    /** A message is in the queue exactly when the inbox says so. */
    lemma MessageIsOnTheWay()
      requires Core({})
      ensures desktop.posted == if inbox.messageQueued then 1 else 0
    {
      hide Legal, Recall;
    }

    /** Posts a message unless one is on its way; a message that cannot be posted leaves no trace. */
    method PostReconcile(flags: set<Flag>)
      requires desktop.posted == if inbox.messageQueued then 1 else 0
      modifies this`inbox, this`desktop
      ensures inbox == old(inbox).(
                queuedFlags := old(inbox.queuedFlags) + flags, messageQueued := inbox.messageQueued,
                unheard := inbox.unheard)
      ensures inbox.Awaited() && desktop == old(desktop).(posted := desktop.posted)
      ensures desktop.posted == if inbox.messageQueued then 1 else 0
    {
      inbox := inbox.(queuedFlags := inbox.queuedFlags + flags);
      if inbox.messageQueued {
        return;
      }
      if !hasController {
        inbox := inbox.(unheard := true);
        return;
      }
      inbox := inbox.(messageQueued := true);
      var posted: bool := *;
      if posted {
        desktop := desktop.(posted := desktop.posted + 1);
        inbox := inbox.(unheard := false);
      } else {
        inbox := inbox.(messageQueued := false, unheard := true);
      }
    }

    /** WM_RECONCILE has been taken from the message queue. */
    method HandleQueuedOverlayReconcile()
      requires desktop.posted > 0
      requires Core({}) && (active || Valid())
      modifies if active then {} else {this}, this`inbox, this`desktop, this`run, this`hist
      ensures Core({}) && desktop.clock >= old(desktop.clock)
      ensures old(active) ==> Disturbed(old(hist), hist) && hist.pace == old(hist.pace)
      ensures old(active) ==> inbox.queuedFlags == {}
                              && inbox.pendingFlags == old(inbox.pendingFlags + inbox.queuedFlags)
      ensures !old(active) ==> Valid() && old(passes) < passes <= old(passes) + 4
      decreases if active then 1 else 21
    {
      hide Legal, Recall, PacedBy, BoundBy, ConcludedBy, OwnedBy;
      desktop := desktop.(posted := desktop.posted - 1);
      inbox := inbox.(messageQueued := false);
      var flags := inbox.queuedFlags;
      inbox := inbox.(queuedFlags := {});
      ReconcileOverlayState(flags);
    }

    /** At most four passes, while requests are pending. */
    method RunPasses()
      requires Core({}) && Between() && active && inbox.pending
      modifies this
      ensures Core({}) && Between() && active && desktop.clock >= old(desktop.clock)
      ensures old(passes) < passes <= old(passes) + 4
      decreases 16
    {
      hide Legal, Recall, Watch, Allowed, PacedBy, BoundBy, ConcludedBy, OwnedBy, WorldBy, NotExposed;
      var pass := 0;
      while pass < 4 && inbox.pending
        invariant pass <= 4 && Core({}) && Between() && active && desktop.clock >= old(desktop.clock)
        invariant passes == old(passes) + pass && (pass == 0 ==> inbox.pending)
        decreases 4 - pass
      {
        var pendingFlags := inbox.pendingFlags;
        inbox := inbox.(pending := false, pendingFlags := {});
        ReconcileOverlayStateOnce(pendingFlags);
        pass := pass + 1;
      }
    }

    method ReconcileOverlayState(flags: set<Flag>)
      requires Core(flags) && (active || Between())
      modifies if active then {} else {this}, this`inbox, this`desktop, this`run, this`hist
      ensures Core({}) && desktop.clock >= old(desktop.clock)
      ensures old(active) ==> Disturbed(old(hist), hist) && hist.pace == old(hist.pace)
      ensures old(active) ==> inbox == old(inbox).(pending := true, pendingFlags := old(inbox.pendingFlags) + flags)
      ensures !old(active) ==> Valid() && old(passes) < passes <= old(passes) + 4
      decreases if active then 0 else 20
    {
      hide Legal, Recall, Watch, Allowed, MailBy, PacedBy, BoundBy, ConcludedBy, OwnedBy, WorldBy, NotExposed;
      RequestIsPending(hist.mail, inbox, desktop.posted, passes, flags);
      NoteRequest(flags);
      ExposureIsOfTheWorld(old(hist), hist);
      inbox := inbox.(pending := true, pendingFlags := inbox.pendingFlags + flags);
      if active {
        return;
      }

      active := true;
      RunPasses();
      var needsFollowUp := inbox.pending;
      active := false;
      if needsFollowUp {
        RequestOverlayReconcile({});
      }
    }

    /** The environment moves while the reconciler rests. */
    method LetBe()
      requires Valid()
      modifies this`overlay, this`binding, this`inbox, this`desktop, this`run, this`hist
      ensures Valid()
    {
      hide Legal, Recall, Watch, Allowed, MailBy, PacedBy, ConcludedBy;
      EnvironmentStep();
    }

    /** Everything that can happen to the reconciler, in any order and for any length of time. Manual
        recovery is an arming without delay, followed by a request. */
    method Live()
      requires Valid()
      modifies this
      ensures Valid()
    {
      hide Legal, Recall, Watch, Allowed, PacedBy, BoundBy, ConcludedBy, OwnedBy, WorldBy;
      var steps: int :| steps >= 0;
      for i := 0 to steps
        invariant Valid()
      {
        var flags: set<Flag> := *;
        if * {
          LetBe();
        } else if * {
          RequestOverlayReconcile(flags);
        } else if * {
          ReconcileOverlayState(flags);
        } else if * {
          ArmInitialOwnerBindingVerification(overlay.hwnd, identity.committed.hwnd, 0);
        } else if desktop.posted > 0 {
          HandleQueuedOverlayReconcile();
        }
      }
    }

    // -------------------------------------------------------------- single calls into the system

    /** Records an event that only concerns the pass or call under way. */
    ghost method Note(e: Event)
      requires Working() && Light(e) && Allowed(hist, e)
      modifies this`run, this`hist
      ensures Working() && hist == Watch(old(hist), e)
      ensures hist.mail == old(hist.mail) && hist.world == old(hist.world)
      ensures hist.mind == old(hist.mind) && hist.pace == old(hist.pace)
    {
      hide Legal, Recall, Watch, Light, Allowed, WorldBy, MailBy, PacedBy, BoundBy, ConcludedBy, OwnedBy;
      LightChanges(hist, e);
      Emit(e);
    }

    /** One of our calls into the system, as far as it lets others in. */
    method CallOut()
      requires Working()
      modifies this`overlay, this`binding, this`inbox, this`desktop, this`run, this`hist
      ensures Working() && Disturbed(old(hist), hist)
      ensures desktop.clock >= old(desktop.clock)
      ensures desktop.alive <= old(desktop.alive) && desktop.visible <= old(desktop.visible)
      decreases 3
    {
      hide Legal, Recall, Watch, Allowed, MailBy, PacedBy, BoundBy, BindingKept, ConcludedBy;
      Interfere();
      KeptAnyway(old(hist), hist, schedule, identity, suppression);
      BindingStaysBound(old(hist.pace), old(binding), hist.pace, binding);
    }

    /** A call that works on the overlay and teaches the pass nothing. */
    method Perform(ghost e: Event)
      requires Working() && IsQuiet(e) && Allowed(hist, e)
      modifies this`overlay, this`binding, this`inbox, this`desktop, this`run, this`hist
      ensures Working() && QuietStep(old(hist), e, hist)
      ensures desktop.clock >= old(desktop.clock)
      ensures desktop.alive <= old(desktop.alive) && desktop.visible <= old(desktop.visible)
      decreases 4
    {
      hide Legal, Recall, Watch, Allowed, WorldBy, MailBy, PacedBy, BoundBy, ConcludedBy, OwnedBy, Disturbed, QuietStep,
           IsQuiet;
      Note(e);
      CallOut();
      QuietlyDone(old(hist), e, hist);
    }

    method UpdateLayeredStyle(hwnd: Hwnd) returns (ok: bool)
      requires Working()
      modifies this`overlay, this`binding, this`inbox, this`desktop, this`run, this`hist
      ensures Working() && QuietStep(old(hist), StyleTried(ok), hist)
      ensures desktop.clock >= old(desktop.clock)
      ensures desktop.alive <= old(desktop.alive) && desktop.visible <= old(desktop.visible)
      decreases 5
    {
      hide Legal, Recall, Watch, Allowed, WorldBy, MailBy, PacedBy, BoundBy, ConcludedBy, OwnedBy, QuietStep;
      ok := *;
      StyleAllowed(hist, ok);
      Perform(StyleTried(ok));
    }

    method ResetLayeredSurface(hwnd: Hwnd)
      requires Working() && Allowed(hist, SurfaceCleared)
      modifies this`overlay, this`binding, this`inbox, this`desktop, this`run, this`hist
      ensures Working() && QuietStep(old(hist), SurfaceCleared, hist)
      ensures desktop.clock >= old(desktop.clock)
      ensures desktop.alive <= old(desktop.alive) && desktop.visible <= old(desktop.visible)
      decreases 5
    {
      hide Legal, Recall, Watch, Allowed, WorldBy, MailBy, PacedBy, BoundBy, ConcludedBy, OwnedBy, QuietStep;
      Perform(SurfaceCleared);
    }

    method SampleMetricsNow()
      requires Working() && Allowed(hist, MetricsSampled)
      modifies this`overlay, this`binding, this`inbox, this`desktop, this`run, this`hist
      ensures Working() && QuietStep(old(hist), MetricsSampled, hist)
      ensures desktop.clock >= old(desktop.clock)
      ensures desktop.alive <= old(desktop.alive) && desktop.visible <= old(desktop.visible)
      decreases 5
    {
      hide Legal, Recall, Watch, Allowed, WorldBy, MailBy, PacedBy, BoundBy, ConcludedBy, OwnedBy, QuietStep;
      Perform(MetricsSampled);
    }

    method RefreshTrayIconForCommittedTaskbar()
      requires Working()
      modifies this`overlay, this`binding, this`inbox, this`desktop, this`run, this`hist
      ensures Working() && QuietStep(old(hist), TrayRefreshed, hist)
      ensures desktop.clock >= old(desktop.clock)
      ensures desktop.alive <= old(desktop.alive) && desktop.visible <= old(desktop.visible)
      decreases 5
    {
      hide Legal, Recall, Watch, Allowed, WorldBy, MailBy, PacedBy, BoundBy, ConcludedBy, OwnedBy, QuietStep;
      StyleAllowed(hist, true);
      Perform(TrayRefreshed);
    }

    /** Moves the overlay next to the tray; the result says whether its rectangle changed. */
    method RepositionWindow() returns (changed: bool)
      requires Working() && Allowed(hist, Placed)
      modifies this`overlay, this`binding, this`inbox, this`desktop, this`run, this`hist
      ensures Working() && QuietStep(old(hist), Placed, hist)
      ensures desktop.clock >= old(desktop.clock)
      ensures desktop.alive <= old(desktop.alive) && desktop.visible <= old(desktop.visible)
      decreases 5
    {
      hide Legal, Recall, Watch, Allowed, WorldBy, MailBy, PacedBy, BoundBy, ConcludedBy, OwnedBy, QuietStep;
      changed := *;
      Perform(Placed);
    }

    /** Raises an overlay that is visible, without moving or filling it. */
    method PromoteVisibleOverlayTopmost(hwnd: Hwnd)
      requires Working() && hist.call.Idle? && hist.pass.view.decided && !hist.mind.frozen
      requires hist.mind.suppression.committed.None?
      modifies this`overlay, this`binding, this`inbox, this`desktop, this`run, this`hist
      ensures Working() && Quiet(old(hist), hist) && hist.call.Idle?
      ensures hist.owed == old(hist.owed) && hist.faults == old(hist.faults)
      ensures hist.pass.done == old(hist.pass.done) && hist.pass.life == old(hist.pass.life)
      ensures desktop.clock >= old(desktop.clock)
      ensures desktop.alive <= old(desktop.alive) && desktop.visible <= old(desktop.visible)
      decreases 5
    {
      hide Legal, Recall, Watch, Allowed, MailBy, PacedBy, BoundBy, ConcludedBy, OwnedBy;
      if IsWindow(hwnd) && IsWindowVisible(hwnd) {
        RaiseAllowed(hist, hwnd);
        Perform(Raised(hwnd));
      }
    }

    /** The overlay becomes hidden at our own request. */
    method MakeHidden(hwnd: Hwnd)
      requires Working() && hwnd in desktop.visible && !hist.call.Promoting?
      modifies this`desktop, this`run, this`hist
      ensures Working() && hist == old(hist).(world := old(hist.world).(visible := old(hist.world.visible) - {hwnd}))
      ensures desktop == old(desktop).(visible := old(desktop.visible) - {hwnd})
    {
      hide Legal, Recall, Watch, MailBy, PacedBy, BoundBy, ConcludedBy;
      VanishEffect(hist, hwnd);
      Emit(Vanished(hwnd));
      desktop := desktop.(visible := desktop.visible - {hwnd});
    }

    /** The overlay becomes visible. */
    method MakeVisible(hwnd: Hwnd)
      requires Working() && MayShow(hist, hwnd)
      modifies this`desktop, this`run, this`hist
      ensures Working() && hist == Watch(old(hist), Shown(hwnd))
      ensures desktop == old(desktop).(visible := old(desktop.visible) + {hwnd})
    {
      hide Legal, Recall, Watch, MailBy, PacedBy, BoundBy, ConcludedBy;
      ShownEffect(hist, hwnd);
      Emit(Shown(hwnd));
      desktop := desktop.(visible := desktop.visible + {hwnd});
    }

    method MarkPresentSuccess(hwnd: Hwnd)
      requires Working() && Allowed(hist, Presented(hwnd)) && hwnd in desktop.alive
      modifies this`overlay, this`desktop, this`run, this`hist, this`presentSequence
      ensures Working() && hist == Watch(old(hist), Presented(hwnd))
      ensures presentSequence == old(presentSequence) + 1
      ensures desktop == old(desktop).(clock := desktop.clock) && desktop.clock >= old(desktop.clock)
    {
      hide Legal, Recall, Watch, Allowed, MailBy, PacedBy, BoundBy, ConcludedBy;
      var now := GetTickCount64();
      overlay := overlay.(lastPresentTick := NonZeroTick(TickOf(now)));
      presentSequence := presentSequence + 1;
      PresentChangesLittle(hist, hwnd);
      Emit(Presented(hwnd));
    }

    method CommitOverlayHidden(hwnd: Hwnd) returns (ok: bool)
      requires Working() && desktop.alive <= {hwnd} && !hist.call.Promoting?
      modifies this`overlay, this`binding, this`inbox, this`desktop, this`run, this`hist
      ensures Working() && HiddenOrRefused(hist) && (ok ==> desktop.visible == {})
      ensures HideAttempted(old(hist), hist, ok)
      ensures desktop.clock >= old(desktop.clock)
      ensures desktop.alive <= old(desktop.alive) && desktop.visible <= old(desktop.visible)
      decreases 4
    {
      hide Legal, Recall, Watch, MailBy, PacedBy, BoundBy, ConcludedBy, OwnedBy, Disturbed, HideAttempted;
      HideNotNeeded(hist);
      if !IsWindow(hwnd) || !IsWindowVisible(hwnd) {
        return true;
      }
      CallOut();
      DisturbedCallStays(old(hist), hist);
      ghost var called := hist;
      ok := *;
      var visible := IsWindowVisible(hwnd);
      if ok && visible {
        MakeHidden(hwnd);
      }
      ghost var hidden := hist;
      Note(HideTried(ok));
      HideInSteps(old(hist), called, hidden, hist, hwnd, ok && visible, ok);
    }

    /** Presents at most one frame. */
    method RenderOverlay(hwnd: Hwnd)
      requires Working() && Allowed(hist, RenderTried) && (hwnd in desktop.alive ==> Allowed(hist, Presented(hwnd)))
      requires Open(hist) && !hist.call.Promoting?
      requires hist.call.Preparing? ==> hist.call.hwnd == hwnd && !hist.call.presented
      modifies this`overlay, this`binding, this`inbox, this`desktop, this`run, this`hist, this`presentSequence
      ensures Working() && Rendered(old(hist), hist, hwnd, presentSequence > old(presentSequence))
      ensures presentSequence >= old(presentSequence)
      ensures desktop.clock >= old(desktop.clock)
      ensures desktop.alive <= old(desktop.alive) && desktop.visible <= old(desktop.visible)
      decreases 6
    {
      hide Legal, Recall, Watch, Allowed, MailBy, PacedBy, BoundBy, ConcludedBy, OwnedBy, Disturbed, QuietStep,
           Rendered, Open;
      Perform(RenderTried);
      PresentStaysAllowed(old(hist), hist, hwnd);
      RenderIsOpen(old(hist), hist);
      ghost var mid := hist;
      PresentPixels(hwnd);
      if presentSequence == old(presentSequence) {
        MissedAllowed(hist);
        Note(FrameMissed);
      }
      RenderedInSteps(old(hist), mid, hist, hwnd, presentSequence > old(presentSequence));
    }

    method PresentPixels(hwnd: Hwnd)
      requires Working() && (hwnd in desktop.alive ==> Allowed(hist, Presented(hwnd)))
      modifies this`overlay, this`binding, this`inbox, this`desktop, this`run, this`hist, this`presentSequence
      ensures Working() && presentSequence >= old(presentSequence)
      ensures presentSequence > old(presentSequence) ==>
                hwnd in old(desktop.alive) && Disturbed(Watch(old(hist), Presented(hwnd)), hist)
      ensures presentSequence == old(presentSequence) ==> hist == old(hist)
      ensures desktop.clock >= old(desktop.clock)
      ensures desktop.alive <= old(desktop.alive) && desktop.visible <= old(desktop.visible)
      decreases 4
    {
      hide Legal, Recall, Watch, Allowed, MailBy, PacedBy, BoundBy, ConcludedBy, OwnedBy, Disturbed, WorldBy;
      var updated: bool := *;
      if updated && IsWindow(hwnd) {
        MarkPresentSuccess(hwnd);
        CallOut();
      }
    }

    method PrepareOverlayForShow(hwnd: Hwnd, resetSurface: bool) returns (ok: bool)
      requires Working() && Open(hist) && hist.call.Idle? && desktop.alive <= {hwnd} && hist.pass.life.ensured
      requires !hist.pace.recreate && ApplyStyle !in hist.owed
      modifies this`overlay, this`binding, this`inbox, this`desktop, this`run, this`hist, this`presentSequence
      ensures Working() && ShowDone(old(hist), hist, resetSurface, ok)
      ensures ok ==> IsWindowVisible(hwnd)
      ensures desktop.clock >= old(desktop.clock) && desktop.alive <= old(desktop.alive)
      decreases 9
    {
      hide Legal, Recall, Watch, Allowed, MailBy, PacedBy, BoundBy, ConcludedBy, OwnedBy, ShowDone, Showing, Open;
      ghost var h := hist;
      ghost var step := Begun(hwnd, resetSurface);
      ShowBegins(h, hwnd, resetSurface);
      Note(PrepareBegan(hwnd, resetSurface));
      ShowIsUnderWay(h, hist, step);
      if !IsWindow(hwnd) {
        EndShow(h, step, false);
        return false;
      }
      if resetSurface && IsWindowVisible(hwnd) {
        label hiding:
        var hidden := CommitOverlayHidden(hwnd);
        ShowHides(h, old@hiding(hist), hist, step, hidden);
        step := hist.call;
        ShowIsUnderWay(h, hist, step);
        if !hidden {
          EndShow(h, step, false);
          return false;
        }
      }
      ok := StyleThenPresent(hwnd, resetSurface, h, step);
    }

    /** The middle of a show: style, place, and clear the surface if asked. */
    method StyleThenPresent(hwnd: Hwnd, resetSurface: bool, ghost before: History, ghost begun: Call) returns (ok: bool)
      requires Working() && Showing(before, hist, begun) && begun.hwnd == hwnd && begun.reset == resetSurface
      requires !begun.presented && !begun.styled && !begun.placed && begun.verdict.Unasked?
      requires ApplyStyle !in before.owed
      requires desktop.alive <= {hwnd} && !hist.pace.recreate && (resetSurface ==> desktop.visible == {})
      modifies this`overlay, this`binding, this`inbox, this`desktop, this`run, this`hist, this`presentSequence
      ensures Working() && ShowDone(before, hist, resetSurface, ok)
      ensures ok ==> IsWindowVisible(hwnd)
      ensures desktop.clock >= old(desktop.clock) && desktop.alive <= old(desktop.alive)
      decreases 8
    {
      hide Legal, Recall, Watch, Allowed, MailBy, PacedBy, BoundBy, ConcludedBy, OwnedBy, ShowDone, Showing, QuietStep;
      ghost var step := begun;
      ShowIsUnderWay(before, hist, step);
      var styled := UpdateLayeredStyle(hwnd);
      ShowGoesOn(before, old(hist), StyleTried(styled), hist, step);
      step := WatchCall(step, StyleTried(styled));
      ShowIsUnderWay(before, hist, step);
      if !styled {
        EndShow(before, step, false);
        return false;
      }
      ShowMayPlace(before, hist, step);
      label placing:
      var _ := RepositionWindow();
      ShowGoesOn(before, old@placing(hist), Placed, hist, step);
      step := WatchCall(step, Placed);
      ShowMayPlace(before, hist, step);
      ShowIsUnderWay(before, hist, step);
      if resetSurface {
        label clearing:
        ResetLayeredSurface(hwnd);
        ShowGoesOn(before, old@clearing(hist), SurfaceCleared, hist, step);
        step := WatchCall(step, SurfaceCleared);
        ShowIsUnderWay(before, hist, step);
      }
      ok := PresentThenShow(hwnd, before, step);
    }

    /** The second half of a show: nothing becomes visible without a frame presented here. */
    method PresentThenShow(hwnd: Hwnd, ghost before: History, ghost step: Call) returns (ok: bool)
      requires Working() && Showing(before, hist, step) && ReadyToPresent(step) && !step.presented
      requires step.verdict.Unasked?
      requires step.hwnd == hwnd && desktop.alive <= {hwnd} && !hist.pace.recreate
      modifies this`overlay, this`binding, this`inbox, this`desktop, this`run, this`hist, this`presentSequence
      ensures Working() && ShowDone(before, hist, step.reset, ok)
      ensures ok ==> IsWindowVisible(hwnd)
      ensures desktop.clock >= old(desktop.clock) && desktop.alive <= old(desktop.alive)
      decreases 7
    {
      hide Legal, Recall, Watch, Allowed, MailBy, PacedBy, BoundBy, ConcludedBy, ShowDone, Showing, Rendered;
      var requiredAfter := presentSequence;
      ShowMayRender(before, hist, step);
      ShowIsUnderWay(before, hist, step);
      RenderOverlay(hwnd);
      assert step.Preparing?;
      var presented := HasNewPresentation(presentSequence, requiredAfter);
      ShowRenders(before, old(hist), hist, step, presented);
      ghost var rendered := step.(rendered := true, presented := presented, missed := step.missed || !presented);
      ShowIsUnderWay(before, hist, rendered);
      if !presented {
        AbandonShow(hwnd, before, rendered);
        return false;
      }
      ok := ShowPresented(hwnd, before, rendered);
    }

    /** There is no frame to show. */
    method AbandonShow(hwnd: Hwnd, ghost before: History, ghost step: Call)
      requires Working() && Showing(before, hist, step) && hist.call == step && step.Preparing? && step.missed
      requires desktop.alive <= {hwnd}
      modifies this`overlay, this`binding, this`inbox, this`desktop, this`run, this`hist
      ensures Working() && ShowDone(before, hist, step.reset, false)
      ensures desktop.clock >= old(desktop.clock) && desktop.alive <= old(desktop.alive)
      decreases 5
    {
      hide Legal, Recall, Watch, Allowed, MailBy, PacedBy, BoundBy, ConcludedBy, OwnedBy, ShowDone, Showing;
      if !IsWindowVisible(hwnd) {
        var hidden := CommitOverlayHidden(hwnd);
        ShowHides(before, old(hist), hist, step, hidden);
        ShowIsUnderWay(before, hist, hist.call);
      }
      EndShow(before, hist.call, false);
    }

    /** `SetWindowPos` with `SWP_SHOWWINDOW` on a window that has just been presented. Others come in before
        the window is visible, and after. */
    method ShowPresented(hwnd: Hwnd, ghost before: History, ghost step: Call) returns (ok: bool)
      requires Working() && Showing(before, hist, step) && MayAsk(step)
      requires step.hwnd == hwnd && !hist.pace.recreate
      modifies this`overlay, this`binding, this`inbox, this`desktop, this`run, this`hist
      ensures Working() && ShowDone(before, hist, step.reset, ok)
      ensures ok ==> IsWindowVisible(hwnd)
      ensures desktop.clock >= old(desktop.clock) && desktop.alive <= old(desktop.alive)
      decreases 5
    {
      hide Legal, Recall, Watch, Allowed, MayShow, MailBy, PacedBy, BoundBy, ConcludedBy, Disturbed, ShowDone, Showing;
      RevealWindow(hwnd, before, step);
      var shown: bool := *;
      ShowAnswers(before, hist, step, shown);
      Note(ShowCalled(shown));
      ShowIsUnderWay(before, hist, step.(verdict := if shown then Worked else Failed));
      ok := shown && IsWindowVisible(hwnd);
      EndShow(before, step.(verdict := if shown then Worked else Failed), ok);
    }

    method RevealWindow(hwnd: Hwnd, ghost before: History, ghost step: Call)
      requires Working() && Showing(before, hist, step) && MayAsk(step)
      requires step.hwnd == hwnd && !hist.pace.recreate
      modifies this`overlay, this`binding, this`inbox, this`desktop, this`run, this`hist
      ensures Working() && Showing(before, hist, step)
      ensures desktop.clock >= old(desktop.clock) && desktop.alive <= old(desktop.alive)
      decreases 4
    {
      hide Legal, Recall, Watch, Allowed, MayShow, MailBy, PacedBy, BoundBy, ConcludedBy, Disturbed, Showing, MayAsk;
      CallOut();
      DisturbedPaceStays(old(hist), hist);
      ShowWaits(before, old(hist), hist, step);
      var took: bool := *;
      if took && IsWindow(hwnd) && !IsWindowVisible(hwnd) {
        ShowReveals(before, hist, step);
        MakeVisible(hwnd);
      }
      label revealed:
      CallOut();
      ShowWaits(before, old@revealed(hist), hist, step);
    }

    ghost method EndShow(before: History, step: Call, shown: bool)
      requires Working() && Showing(before, hist, step) && hist.call == step && step.Preparing?
               && ShowMayEnd(hist, shown)
      modifies this`run, this`hist
      ensures Working() && ShowDone(before, hist, step.reset, shown) && hist.world == old(hist.world)
    {
      hide Legal, Recall, Watch, MailBy, PacedBy, BoundBy, ConcludedBy, OwnedBy, WorldBy, ShowDone, Quiet, Open;
      Note(PrepareEnded(shown));
      ShowEnds(before, old(hist), hist, step, shown);
    }

    // -------------------------------------------------------------- overlay lifetime

    method MakeDestroyed(hwnd: Hwnd)
      requires Working() && hwnd in desktop.alive && !hist.call.Promoting?
      modifies this`desktop, this`run, this`hist
      ensures Working() && Disturbed(old(hist), hist)
      ensures desktop.alive == {} && desktop.visible == {} && desktop.clock == old(desktop.clock)
    {
      hide Legal, Recall, Watch, MailBy, PacedBy, BoundBy, ConcludedBy;
      DestroyDisturbs(hist, hwnd);
      Emit(Destroyed(hwnd));
      desktop := desktop.(alive := desktop.alive - {hwnd}, visible := desktop.visible - {hwnd});
    }

    /** Forgets a window that no longer exists. */
    method ForgetOverlay()
      requires Working() && desktop.alive == {}
      modifies this`overlay, this`binding
      ensures Working() && overlay == NO_OVERLAY && binding == NO_BINDING
    {
      hide Legal, Recall, MailBy, PacedBy, ConcludedBy;
      overlay := NO_OVERLAY;
      binding := NO_BINDING;
    }

    method DestroyOverlayWindow() returns (ok: bool)
      requires Working() && !hist.call.Promoting? && !overlayDestroyExpected
      modifies this`overlay, this`binding, this`inbox, this`desktop, this`run, this`hist, this`overlayDestroyExpected
      ensures Working() && Disturbed(old(hist), hist) && !overlayDestroyExpected
      ensures ok <==> desktop.alive == {}
      ensures ok ==> overlay == NO_OVERLAY && binding == NO_BINDING
      ensures desktop.clock >= old(desktop.clock)
      decreases 4
    {
      hide Legal, Recall, Watch, Allowed, MailBy, PacedBy, BoundBy, ConcludedBy, OwnedBy;
      var hwnd := overlay.hwnd;
      if !IsWindow(hwnd) {
        ForgetOverlay();
        return true;
      }
      overlayDestroyExpected := true;
      CallOut();
      var destroyed: bool := *;
      if destroyed && IsWindow(hwnd) {
        MakeDestroyed(hwnd);
      }
      overlayDestroyExpected := false;
      if !destroyed && IsWindow(hwnd) {
        return false;
      }
      ForgetOverlay();
      return true;
    }

    method ArmInitialOwnerBindingVerification(hwnd: Hwnd, target: Hwnd, delayMs: nat)
      requires Core({})
      modifies this`binding, this`desktop, this`run, this`hist
      ensures Core({}) && Rearmed(hist.pace, binding) && (old(Kept()) ==> Kept())
      ensures PaceKept(old(hist.pace), hist.pace) && hist == old(hist).(pace := hist.pace)
      ensures binding.pending ==>
                binding.attempts == 0 && binding.target == target && binding.nextRetryMs == desktop.clock + delayMs
      ensures desktop == old(desktop).(clock := desktop.clock) && desktop.clock >= old(desktop.clock)
    {
      hide Legal, Recall, Watch, MailBy, ConcludedBy, OwnedBy, WorldBy;
      binding := NO_BINDING;
      var targetExists: bool := *;
      if !IsWindow(hwnd) || target == 0 || !targetExists {
        return;
      }
      var now := GetTickCount64();
      binding := OwnerBinding(target, now + delayMs, 0, true, false);
      ArmEffect(hist);
      Emit(Armed);
    }

    /** `CreateWindowExW` has succeeded. */
    method AdoptOverlay(hwnd: Hwnd, taskbar: Hwnd)
      requires Working() && Allowed(hist, Created(hwnd, taskbar)) && taskbar == identity.committed.hwnd
      requires desktop.alive == {} && hwnd != 0 && taskbar != 0
      modifies this`overlay, this`desktop, this`run, this`hist, this`generation
      ensures Working() && hist == Watch(old(hist), Created(hwnd, taskbar))
      ensures generation == old(generation) + 1 && overlay.hwnd == hwnd && overlay.taskbarOwner == taskbar
      ensures desktop == old(desktop).(clock := desktop.clock, alive := {hwnd}) && desktop.clock >= old(desktop.clock)
    {
      hide Legal, Recall, Watch, Allowed, MailBy, PacedBy, BoundBy, ConcludedBy;
      var now := GetTickCount64();
      overlay := OverlayRecord(hwnd, taskbar, NonZeroTick(TickOf(now)), 0);
      generation := generation + 1;
      desktop := desktop.(alive := {hwnd});
      CreationEffect(hist, hwnd, taskbar);
      Emit(Created(hwnd, taskbar));
    }

    /** Makes sure that an overlay exists for the committed taskbar. An overlay that exists already is
        never refused for its owner: only a taskbar that is no longer valid can refuse it. */
    method EnsureOverlayWindow() returns (ok: bool, ghost taskbarValid: bool)
      requires Working() && hist.call.Idle? && !hist.pace.recreate && hist.pass.view.taskbar.Ready?
      modifies this`overlay, this`binding, this`inbox, this`desktop, this`run, this`hist, this`generation
      ensures Working() && Ensured(old(hist), hist)
      ensures old(desktop.alive) != {} ==> (ok <==> taskbarValid)
      ensures if ok then hist.pass.life.ensured
              else hist.pass.life.overlayRefused && hist.world.created == old(hist.world.created)
      ensures ok && old(desktop.alive) == {} ==> hist.world.created == old(hist.world.created) + 1
      ensures generation >= old(generation)
      ensures desktop.clock >= old(desktop.clock)
      decreases 7
    {
      hide Legal, Recall, Watch, Allowed, MailBy, PacedBy, BoundBy, ConcludedBy, Disturbed, Ensured;
      var taskbar := identity.committed.hwnd;
      var stillValid: bool := *;
      var valid := taskbar != 0 && stillValid;
      taskbarValid := valid;
      RefusalAllowed(hist, TaskbarGone);
      if valid && IsWindow(overlay.hwnd) && overlay.taskbarOwner == taskbar {
        EnsuredByFinding(hist, overlay.hwnd);
        Note(OverlayFound(overlay.hwnd));
        return true, valid;
      }
      if IsWindow(overlay.hwnd) {
        Note(OverlayRefused(TaskbarGone));
        EnsureRefused(old(hist), old(hist), hist, TaskbarGone);
        return false, valid;
      }
      ForgetOverlay();
      if !valid {
        Note(OverlayRefused(TaskbarGone));
        EnsureRefused(old(hist), old(hist), hist, TaskbarGone);
        return false, valid;
      }
      ok := CreateOverlayWindow(taskbar);
    }

    method CreateOverlayWindow(taskbar: Hwnd) returns (ok: bool)
      requires Working() && hist.call.Idle? && !hist.pace.recreate && hist.pass.view.taskbar.Ready?
      requires desktop.alive == {} && taskbar != 0 && taskbar == identity.committed.hwnd
      modifies this`overlay, this`binding, this`inbox, this`desktop, this`run, this`hist, this`generation
      ensures Working() && Ensured(old(hist), hist)
      ensures if ok then hist.pass.life.ensured
              else hist.pass.life.overlayRefused && hist.world.created == old(hist.world.created)
      ensures ok ==> hist.world.created == old(hist.world.created) + 1
      ensures generation >= old(generation)
      ensures desktop.clock >= old(desktop.clock)
      decreases 6
    {
      hide Legal, Recall, Watch, Allowed, MailBy, PacedBy, BoundBy, ConcludedBy, OwnedBy, WorldBy, Ensured, Disturbed,
           QuietStep;
      Concluded();
      WindowsOnRecord();
      CallOut();
      WindowsOnRecord();
      ghost var called := hist;
      var hwnd: Hwnd :| hwnd >= 0;
      if hwnd == 0 {
        CreationMayFail(old(hist), hist);
        Note(OverlayRefused(CreationFailed));
        EnsureRefused(old(hist), called, hist, CreationFailed);
        return false;
      }
      CreationAllowed(old(hist), called, hwnd, taskbar);
      AdoptOverlay(hwnd, taskbar);
      ghost var adopted := hist;
      var styled := UpdateLayeredStyle(hwnd);
      ghost var styledHist := hist;
      ArmInitialOwnerBindingVerification(overlay.hwnd, taskbar, BINDING_RETRY_MS);
      EnsureCreated(old(hist), called, adopted, styledHist, hist, hwnd, taskbar, styled);
      return true;
    }

    /** The history knows which windows there are. */
    lemma WindowsOnRecord()
      requires Working()
      ensures hist.world.alive == desktop.alive && hist.world.visible == desktop.visible <= desktop.alive
    {
      hide Legal, Recall, MailBy, PacedBy, BoundBy, ConcludedBy, OwnedBy;
    }

    /** One `SetWindowLongPtrW` on the owner, counted against the current arming. */
    method SetOwner(now: nat)
      requires Working() && Allowed(hist, OwnerSet(now)) && binding.pending && hist.pace.clock <= now <= desktop.clock
      modifies this`binding, this`run, this`hist
      ensures Core({}) && active
      ensures hist == Watch(old(hist), OwnerSet(now)) && hist.pass.Running? && hist.pass.life.ownerSet
      ensures hist.world == old(hist.world) && hist.mind == old(hist.mind)
              && hist.pace.recreate == old(hist.pace.recreate)
      ensures binding == old(binding).(attempts := old(binding.attempts) + 1)
      ensures PacedBy(hist.pace, schedule) && ConcludedBy(hist.mind, hist.pace.clock, identity, suppression)
      ensures OwnedBy(hist.world, hist.pace.recreate, overlay.taskbarOwner, identity.committed.hwnd)
      ensures BoundBy(hist.pace, binding.(nextRetryMs := now + BINDING_RETRY_MS))
    {
      hide Legal, Recall, Watch, Allowed, MailBy, WorldBy, OwnedBy;
      binding := binding.(attempts := binding.attempts + 1);
      OwnerSetEffect(hist, now);
      Emit(OwnerSet(now));
    }

    /** Sets the owner when its verification is due; true when the overlay is then bound to it. */
    method ReconcileInitialOwnerBinding() returns (bound: bool)
      requires Working() && hist.call.Idle?
      modifies this`overlay, this`binding, this`inbox, this`desktop, this`run, this`hist
      ensures Working() && OwnerChecked(old(hist), hist, bound)
      ensures desktop.clock >= old(desktop.clock) && desktop.alive <= old(desktop.alive)
      decreases 6
    {
      hide Legal, Recall, Watch, Allowed, MailBy, PacedBy, ConcludedBy, OwnedBy, Disturbed, OwnerChecked, WorldBy;
      var targetUsable: bool := *;
      var ownerMatches: bool := *;
      var targetValid := binding.target != 0 && binding.target == identity.committed.hwnd && targetUsable;
      var now := GetTickCount64();
      var action := DecideInitialOwnerBindingAction(
        binding.pending, IsWindow(overlay.hwnd), targetValid, ownerMatches,
        binding.attempts, BINDING_MAX_ATTEMPTS, now, binding.nextRetryMs);
      NothingChecked(hist);
      match action {
        case NoAction => return false;
        case Wait => return false;
        case Complete =>
          binding := NO_BINDING;
          return false;
        case Exhausted =>
          binding := binding.(pending := false, exhausted := true);
          return false;
        case Retry =>
      }
      bound := RetryOwner(now);
    }

    method RetryOwner(now: nat) returns (bound: bool)
      requires Working() && hist.call.Idle? && binding.pending && desktop.clock == now
      requires binding.attempts < BINDING_MAX_ATTEMPTS && now >= binding.nextRetryMs
      modifies this`overlay, this`binding, this`inbox, this`desktop, this`run, this`hist
      ensures Working() && OwnerChecked(old(hist), hist, bound)
      ensures desktop.clock >= old(desktop.clock) && desktop.alive <= old(desktop.alive)
      decreases 5
    {
      hide Legal, Recall, Watch, Allowed, MailBy, PacedBy, ConcludedBy, OwnedBy, WorldBy, OwnerChecked, Disturbed;
      OwnerSetIsDue(hist, binding, now);
      SetOwner(now);
      ghost var ownerSet := hist;
      AwaitOwner(now);
      ghost var waited := hist;
      bound := *;
      if bound {
        binding := NO_BINDING;
        OwnerBoundAllowed(hist);
        Note(OwnerBound);
      }
      OwnerCheckedInSteps(old(hist), ownerSet, waited, hist, now, bound);
    }

    /** The call that sets the owner runs; then the time of the next attempt is set. */
    method AwaitOwner(now: nat)
      requires Core({}) && active && hist.pass.Running?
      requires PacedBy(hist.pace, schedule) && ConcludedBy(hist.mind, hist.pace.clock, identity, suppression)
      requires OwnedBy(hist.world, hist.pace.recreate, overlay.taskbarOwner, identity.committed.hwnd)
      requires presentSequence == hist.world.presents && generation == hist.world.created
      requires BoundBy(hist.pace, binding.(nextRetryMs := now + BINDING_RETRY_MS))
      modifies this`overlay, this`binding, this`inbox, this`desktop, this`run, this`hist
      ensures Working() && Disturbed(old(hist), hist) && hist.pass == old(hist.pass)
      ensures desktop.clock >= old(desktop.clock) && desktop.alive <= old(desktop.alive)
      decreases 4
    {
      hide Legal, Recall, Watch, Allowed, MailBy, PacedBy, BoundBy, ConcludedBy, OwnedBy, WorldBy, BindingKept,
           Disturbed;
      Interfere();
      KeptAnyway(old(hist), hist, schedule, identity, suppression);
      OwnedAnyway(old(hist), hist, desktop.alive, desktop.visible, old(overlay), overlay, identity.committed.hwnd);
      CalledOut(old(hist), old(desktop), old(overlay.hwnd), hist, desktop, overlay.hwnd);
      RetryStaysBound(old(hist.pace), old(binding), hist.pace, binding, now + BINDING_RETRY_MS);
      binding := binding.(nextRetryMs := now + BINDING_RETRY_MS);
    }

    // -------------------------------------------------------------- conclusions

    /** `UpdateTaskbarIdentity`, and the mark that the overlay has to be replaced. */
    method UpdateTaskbarIdentity() returns (result: TaskbarIdentityResult)
      requires Working() && hist.call.Idle? && hist.pass.view.taskbar.Unsought?
      modifies this`desktop, this`identity, this`schedule, this`run, this`hist
      ensures Working() && GenerationSeen(old(hist), hist, result) && identity == result.state
      ensures schedule.deferredFlags == old(schedule.deferredFlags)
      ensures desktop == old(desktop).(clock := desktop.clock) && desktop.clock >= old(desktop.clock)
    {
      hide Legal, Recall, Watch, Allowed, MailBy, PacedBy, BoundBy, ConcludedBy, OwnedBy, WorldBy, GenerationSeen,
           ReduceTaskbarIdentity;
      Concluded();
      var hwnd: nat, processId: nat :| hwnd >= 0 && processId >= 0;
      var seen := TaskbarIdentity(hwnd, processId);
      var now := GetTickCount64();
      TaskbarSeenEffect(hist, seen, now);
      ReductionCommitsOrWaits(identity, seen, now);
      LookAllowed(hist, seen, now);
      result := ReduceTaskbarIdentity(identity, seen, now, IDENTITY_SETTLE_MS);
      identity := result.state;
      Emit(TaskbarSeen(seen, now));
      TaskbarKept(old(hist), hist, result, schedule, binding, suppression, overlay.taskbarOwner);
      TaskbarWorld(old(hist), hist, result, desktop.alive, desktop.visible, overlay.hwnd);
      if result.committedChanged {
        schedule := schedule.(recreatePending := true, nextDestroyRetryTick := 0);
      }
    }

    /** What the fields say of the taskbar and of the desktop is what the history says. */
    lemma Concluded()
      requires Kept()
      ensures identity == hist.mind.identity && suppression.policy == hist.mind.suppression
      ensures suppression.overlayUpdateFrozen == hist.mind.frozen
      ensures suppression.refreshResumeTick != 0 <==> hist.mind.resumeAt.At?
      ensures hist.mind.resumeAt.At? ==>
                && suppression.refreshResumeTick == TickOf(hist.mind.resumeAt.ms)
                && hist.mind.resumeAt.ms <= hist.pace.clock + RESUME_DELAY_MS
      ensures suppression.startedTick != 0 <==> !suppression.policy.committed.None?
    {
      hide PacedBy, BoundBy, OwnedBy;
    }

    method UpdateFreezePolicy(screenshot: bool)
      requires Working() && !hist.pass.view.looked
      requires hist.pass.view.taskbar.Ready? && hist.pass.life.ensured && !hist.pace.recreate
      modifies this`desktop, this`suppression, this`run, this`hist
      ensures Working() && hist == Watch(old(hist), ForegroundSeen(screenshot, desktop.clock))
      ensures suppression.overlayUpdateFrozen == screenshot && suppression.policy == old(suppression.policy)
      ensures desktop == old(desktop).(clock := desktop.clock) && desktop.clock >= old(desktop.clock)
    {
      hide Legal, Recall, Watch, Allowed, MailBy, WorldBy, OwnedBy;
      if screenshot == suppression.overlayUpdateFrozen {
        SeeForeground(screenshot);
        return;
      }
      var now := GetTickCount64();
      ForegroundConcluded(hist, identity, suppression, screenshot, now);
      ForegroundEffect(hist, screenshot, now);
      ForegroundAllowed(hist, screenshot, now);
      var resumeTick := if screenshot then 0 else AddTicks(TickOf(now), RESUME_DELAY_MS);
      suppression := suppression.(overlayUpdateFrozen := screenshot, refreshResumeTick := resumeTick);
      Emit(ForegroundSeen(screenshot, now));
    }

    /** The foreground is as it was. */
    ghost method SeeForeground(screenshot: bool)
      requires Working() && !hist.pass.view.looked && screenshot == suppression.overlayUpdateFrozen
      requires hist.pass.view.taskbar.Ready? && hist.pass.life.ensured && !hist.pace.recreate
      modifies this`run, this`hist
      ensures Working() && hist == Watch(old(hist), ForegroundSeen(screenshot, desktop.clock))
    {
      hide Legal, Recall, Watch, Allowed, MailBy, WorldBy, OwnedBy;
      ForegroundConcluded(hist, identity, suppression, screenshot, desktop.clock);
      ForegroundEffect(hist, screenshot, desktop.clock);
      ForegroundAllowed(hist, screenshot, desktop.clock);
      Emit(ForegroundSeen(screenshot, desktop.clock));
    }

    method UpdateSuppressionPolicy(scene: Scene) returns (changed: bool)
      requires Working() && hist.pass.view.looked && !hist.pass.view.decided
      requires scene.screenshot == suppression.overlayUpdateFrozen
      modifies this`desktop, this`suppression, this`run, this`hist
      ensures Working()
      ensures hist == Watch(old(hist), SuppressionSeen(ObserveSuppression(scene, old(suppression.policy.committed)),
                                                       desktop.clock))
      ensures suppression.overlayUpdateFrozen == old(suppression.overlayUpdateFrozen)
      ensures suppression.refreshResumeTick == old(suppression.refreshResumeTick)
      ensures changed <==> suppression.policy.committed != old(suppression.policy.committed)
      ensures desktop == old(desktop).(clock := desktop.clock) && desktop.clock >= old(desktop.clock)
    {
      hide Legal, Recall, Watch, Allowed, MailBy, WorldBy, OwnedBy, PacedBy, BoundBy, ConcludedBy,
           ReduceSuppressionPolicy,
           ObserveSuppression, SlowToHide;
      Concluded();
      var seen := ObserveSuppression(scene, suppression.policy.committed);
      PipelineShape(scene, suppression.policy.committed);
      var now := GetTickCount64();
      SuppressionAllowed(hist, seen, now);
      SuppressionEffect(hist, seen, now);
      var result := ReduceSuppressionPolicy(suppression.policy, seen, now, SHIPPED_CONFIG);
      ReductionMoves(suppression.policy, seen, now);
      AcceptSuppression(result, now);
      changed := result.committedChanged;
      SuppressionConcluded(hist, seen, now, identity, old(suppression), suppression);
      ClockMoves(hist, now);
      Emit(SuppressionSeen(seen, now));
      BoundLater(old(hist.pace), hist.pace, binding);
    }

    /** Takes over the reducer's result, counts the decision and times the suppression. */
    method AcceptSuppression(result: SuppressionPolicyResult, now: nat)
      requires result.committedChanged <==> result.state.committed != suppression.policy.committed
      requires suppression.startedTick != 0 <==> !suppression.policy.committed.None?
      modifies this`suppression
      ensures suppression == old(suppression).(
                policy := result.state,
                startedTick := suppression.startedTick, decisionSequence := suppression.decisionSequence)
      ensures suppression.decisionSequence
              == old(suppression.decisionSequence) + if result.committedChanged then 1 else 0
      ensures suppression.startedTick != 0 <==> !suppression.policy.committed.None?
      ensures suppression.startedTick != old(suppression.startedTick) ==>
                && result.committedChanged
                && suppression.startedTick == (if result.state.committed.None? then 0 else NonZeroTick(TickOf(now)))
    {
      var before := suppression.policy.committed;
      suppression := suppression.(policy := result.state);
      if !result.committedChanged {
        return;
      }
      suppression := suppression.(decisionSequence := suppression.decisionSequence + 1);
      if before.None? && !result.state.committed.None? {
        suppression := suppression.(startedTick := NonZeroTick(TickOf(now)));
      } else if !before.None? && result.state.committed.None? {
        suppression := suppression.(startedTick := 0);
      }
    }

    // -------------------------------------------------------------- promotion and repair

    /** `SetWindowPos` with `SWP_SHOWWINDOW` on an overlay that was just seen visible: it shows the
        window again if it was hidden in the meantime. Only the request for it leads here. */
    method PromoteVisibleOverlayForTaskView(hwnd: Hwnd)
      requires Working() && Open(hist) && hist.call.Idle? && !hist.pace.recreate
      requires hist.pass.upkeep.Keeping? && PromoteForTaskView in hist.pass.todo
      modifies this`overlay, this`binding, this`inbox, this`desktop, this`run, this`hist
      ensures Working() && (hwnd in old(desktop.visible) ==> Promoted(old(hist), hist))
      ensures hwnd !in old(desktop.visible) ==> hist == old(hist)
      ensures desktop.clock >= old(desktop.clock) && desktop.alive <= old(desktop.alive)
      decreases 5
    {
      hide Legal, Recall, Watch, Allowed, MailBy, PacedBy, BoundBy, ConcludedBy, Disturbed, MayShow, Open, Promoted;
      if !IsWindow(hwnd) || !IsWindowVisible(hwnd) {
        return;
      }
      PromotionAllowed(hist, hwnd);
      Note(PromoteBegan(hwnd));
      CallOut();
      PromotionMayShow(old(hist), hist, hwnd);
      PromotionBegins(old(hist), hist, hwnd);
      ghost var waited := hist;
      var took: bool := *;
      if took && IsWindow(hwnd) && !IsWindowVisible(hwnd) {
        MakeVisible(hwnd);
      }
      ghost var revealed := hist;
      CallOut();
      PromotionGoesOn(old(hist), waited, revealed, hist, hwnd);
      PromotionEnds(old(hist), hist);
      Note(PromoteEnded);
    }

    method CaptureOverlayState() returns (snapshot: OverlaySnapshot)
      modifies this`desktop
      ensures desktop == old(desktop).(clock := desktop.clock) && desktop.clock >= old(desktop.clock)
      ensures snapshot.seen.valid == IsWindow(overlay.hwnd) && snapshot.seen.visible == IsWindowVisible(overlay.hwnd)
      ensures snapshot.seen.presentStale <==>
              snapshot.seen.valid && !suppression.overlayUpdateFrozen && IsStale(overlay, TickOf(desktop.clock))
    {
      var topmost: bool := *;
      var layered: bool := *;
      var rectValid: bool := *;
      var cloaked: bool := *;
      var now := GetTickCount64();
      var tick := TickOf(now);
      var stale := !suppression.overlayUpdateFrozen && IsStale(overlay, tick);
      if !IsWindow(overlay.hwnd) {
        return OverlaySnapshot(
            RepairObservation(false, IsWindowVisible(overlay.hwnd), false, false, false, false), false);
      }
      snapshot := OverlaySnapshot(
        RepairObservation(true, IsWindowVisible(overlay.hwnd), topmost, layered, rectValid, stale), cloaked);
    }

    /** Claims the right to repair now, exactly if the wrapped clock reads the wait after the last repair as
        over. */
    method BeginRepair() returns (due: bool)
      requires Working() && Open(hist) && hist.call.Idle?
      requires hist.pass.upkeep.Examined? && !hist.pass.upkeep.begun && NeedsRepair(hist.pass.upkeep.found)
      modifies this`desktop, this`schedule, this`run, this`hist
      ensures Working() && schedule.deferredFlags == old(schedule.deferredFlags)
      ensures due ==> hist == Watch(old(hist), RepairBegan(desktop.clock, desktop.visible != {}))
      ensures !due ==> hist == old(hist)
      ensures due <==> !RepairMustWait(old(hist).pace, desktop.clock)
      ensures desktop == old(desktop).(clock := desktop.clock) && desktop.clock >= old(desktop.clock)
    {
      hide Legal, Recall, Watch, Allowed, MailBy, OwnedBy, WorldBy, Open, NeedsRepair;
      var now := GetTickCount64();
      var tick := TickOf(now);
      if schedule.lastRepairTick != 0 && !TickPassed(tick, AddTicks(schedule.lastRepairTick, REPAIR_INTERVAL_MS)) {
        return false;
      }
      ClaimRepair(now);
      due := true;
    }

    method ClaimRepair(now: nat)
      requires Working() && Open(hist) && hist.call.Idle? && hist.pace.clock <= now <= desktop.clock
      requires hist.pass.upkeep.Examined? && !hist.pass.upkeep.begun && NeedsRepair(hist.pass.upkeep.found)
      requires !RepairMustWait(hist.pace, now)
      modifies this`schedule, this`run, this`hist
      ensures Working() && schedule.deferredFlags == old(schedule.deferredFlags)
      ensures hist == Watch(old(hist), RepairBegan(now, desktop.visible != {}))
    {
      hide Legal, Recall, Watch, Allowed, MailBy, OwnedBy, WorldBy, Open, NeedsRepair, PacedBy, BoundBy, ConcludedBy;
      WindowsOnRecord();
      RepairIsPaced(hist.pace, schedule, now);
      RepairAllowed(hist, now);
      RepairEffect(hist, now, desktop.visible != {});
      schedule := schedule.(lastRepairTick := NonZeroTick(TickOf(now)));
      Emit(RepairBegan(now, desktop.visible != {}));
      BoundAndConcluded(old(hist), hist);
    }

    /** Repairs what the snapshot shows to be broken, step by step as the plan says, unless it must wait. */
    method RepairOverlayInvariant(before: OverlaySnapshot)
      requires Working() && Open(hist) && Equipped(hist) && hist.call.Idle? && hist.owed == {}
      requires hist.pass.upkeep == Examined(before.seen, false, {})
      requires !before.seen.valid ==> desktop.alive == {}
      modifies this`overlay, this`binding, this`inbox, this`desktop, this`run, this`hist, this`schedule,
               this`generation, this`presentSequence
      ensures Working() && Carried(old(hist), hist) && schedule.deferredFlags == old(schedule.deferredFlags)
      ensures !NeedsRepair(before.seen) ==> hist == old(hist)
      ensures NeedsRepair(before.seen) ==>
                || (hist == old(hist) && RepairMustWait(hist.pace, desktop.clock))
                || (hist.pass.upkeep.begun
                    && RepairFollowed(hist, ComputeOverlayRepairIntent(before.seen), hist.pass.upkeep.fixed))
      ensures desktop.clock >= old(desktop.clock)
      decreases 12
    {
      hide Legal, Recall, Watch, Allowed, MailBy, PacedBy, BoundBy, ConcludedBy, OwnedBy, WorldBy, Carried, Open,
           RepairMustWait, RepairFollowed, NeedsRepair;
      NothingCarried(hist);
      if !NeedsRepair(before.seen) {
        return;
      }
      var due := BeginRepair();
      if !due {
        return;
      }
      RepairBegins(old(hist), desktop.clock, desktop.visible != {});
      ghost var begin := hist;
      var plan := ComputeOverlayRepairIntent(before.seen);
      Repair(plan);
      CarriedOn(old(hist), begin, hist);
      BegunStays(begin, hist);
    }

    method Repair(plan: RepairIntent)
      requires Working() && Open(hist) && Equipped(hist) && hist.call.Idle? && hist.owed == {}
      requires hist.pass.upkeep.Examined? && hist.pass.upkeep.begun && (plan.ensureExists ==> desktop.alive == {})
      requires desktop.visible != {} ==> InSight in hist.pass.upkeep.fixed
      modifies this`overlay, this`binding, this`inbox, this`desktop, this`run, this`hist, this`generation,
               this`presentSequence
      ensures Working() && Carried(old(hist), hist) && RepairFollowed(hist, plan, hist.pass.upkeep.fixed)
      ensures desktop.clock >= old(desktop.clock)
      decreases 11
    {
      hide Legal, Recall, Watch, Allowed, MailBy, PacedBy, BoundBy, ConcludedBy, OwnedBy, Ensured, Carried, Open,
           RepairFollowed;
      NothingCarried(hist);
      WindowsOnRecord();
      var created := false;
      if plan.ensureExists {
        var generationBefore := generation;
        var ensured, _ := EnsureOverlayWindow();
        CarriedByEnsure(old(hist), hist);
        created := generation != generationBefore;
      }
      ghost var ensured := hist;
      CarriedWell(old(hist), hist);
      WindowsOnRecord();
      RepairFound(plan, created);
      CarriedOn(old(hist), ensured, hist);
    }

    /** Shows the overlay, or repairs it in place if it is visible. */
    method RepairFound(plan: RepairIntent, created: bool)
      requires Working() && Open(hist) && Equipped(hist) && hist.call.Idle? && hist.owed == {}
      requires hist.pass.upkeep.Examined? && hist.pass.upkeep.begun
      requires plan.ensureExists ==> FixLife in hist.pass.upkeep.fixed
      requires created || desktop.alive == {} || desktop.visible == {} || InSight in hist.pass.upkeep.fixed
      modifies this`overlay, this`binding, this`inbox, this`desktop, this`run, this`hist, this`presentSequence
      ensures Working() && Carried(old(hist), hist) && RepairFollowed(hist, plan, hist.pass.upkeep.fixed)
      ensures desktop.clock >= old(desktop.clock)
      decreases 10
    {
      hide Legal, Recall, Watch, Allowed, MailBy, PacedBy, BoundBy, ConcludedBy, OwnedBy, Carried, Open, ShowDone;
      var hwnd := overlay.hwnd;
      if !IsWindow(hwnd) {
        NothingCarried(hist);
        return;
      }
      if created || !IsWindowVisible(hwnd) {
        var shown := PrepareOverlayForShow(hwnd, false);
        CarriedByShow(old(hist), hist, shown);
      } else {
        RepairInPlace(plan, hwnd);
      }
    }

    /** Style, placement and a frame for an overlay that is visible. */
    method RepairInPlace(plan: RepairIntent, hwnd: Hwnd)
      requires Working() && Open(hist) && hist.call.Idle? && hist.pass.upkeep.Examined? && hist.pass.upkeep.begun
      requires !hist.pace.recreate
      modifies this`overlay, this`binding, this`inbox, this`desktop, this`run, this`hist, this`presentSequence
      ensures Working() && Carried(old(hist), hist) && hist.pass.upkeep.Examined?
      ensures var fixed := hist.pass.upkeep.fixed;
              && old(hist.pass.upkeep.fixed) <= fixed
              && (plan.applyStyle ==> FixStyle in fixed) && (plan.reposition ==> FixPlace in fixed)
              && (plan.present ==> FixFrame in fixed || (plan.applyStyle && hist.faults.styleFailed))
      ensures plan.applyStyle && hist.faults.styleFailed ==> presentSequence == old(presentSequence)
      ensures desktop.clock >= old(desktop.clock)
      decreases 8
    {
      hide Legal, Recall, Watch, Allowed, MailBy, PacedBy, BoundBy, ConcludedBy, OwnedBy, WorldBy, QuietStep, Carried,
           Open;
      NothingCarried(hist);
      var canPresent := true;
      if plan.applyStyle {
        canPresent := UpdateLayeredStyle(hwnd);
        CarriedByStep(old(hist), StyleTried(canPresent), hist);
      }
      ghost var styled := hist;
      CarriedWell(old(hist), hist);
      PlaceInRepair(plan, hwnd, canPresent);
      CarriedOn(old(hist), styled, hist);
    }

    /** Placement, and a frame if the overlay could be styled and one is due. */
    method PlaceInRepair(plan: RepairIntent, hwnd: Hwnd, canPresent: bool)
      requires Working() && Open(hist) && hist.call.Idle? && hist.pass.upkeep.Examined? && hist.pass.upkeep.begun
      requires !hist.pace.recreate
      modifies this`overlay, this`binding, this`inbox, this`desktop, this`run, this`hist, this`presentSequence
      ensures Working() && Carried(old(hist), hist) && hist.pass.upkeep.Examined? && hist.faults == old(hist.faults)
      ensures old(hist.pass.upkeep.fixed) <= hist.pass.upkeep.fixed
      ensures plan.reposition ==> FixPlace in hist.pass.upkeep.fixed
      ensures plan.present && canPresent ==> FixFrame in hist.pass.upkeep.fixed
      ensures !canPresent ==> presentSequence == old(presentSequence)
      ensures desktop.clock >= old(desktop.clock)
      decreases 7
    {
      hide Legal, Recall, Watch, Allowed, MailBy, PacedBy, BoundBy, ConcludedBy, OwnedBy, WorldBy, QuietStep, Carried,
           Open, Rendered;
      NothingCarried(hist);
      OpenAllows(hist);
      var geometryChanged := false;
      if plan.reposition {
        geometryChanged := RepositionWindow();
        CarriedByStep(old(hist), Placed, hist);
      }
      ghost var placed := hist;
      CarriedWell(old(hist), placed);
      if canPresent && (plan.present || geometryChanged) {
        MayRenderNow(hwnd);
        RenderOverlay(hwnd);
        CarriedByRender(placed, hist, hwnd, presentSequence > old(presentSequence));
        CarriedOn(old(hist), placed, hist);
      }
    }

    /** An overlay that need not be replaced may be filled while nothing else is under way. */
    lemma MayRenderNow(hwnd: Hwnd)
      requires Working() && Open(hist) && hist.call.Idle? && !hist.pace.recreate
      ensures Allowed(hist, Placed) && Allowed(hist, RenderTried)
      ensures hwnd in desktop.alive ==> Allowed(hist, Presented(hwnd))
    {
      hide Legal, Recall, Allowed, Open, MailBy, PacedBy, BoundBy, ConcludedBy;
      OpenAllows(hist);
      if hwnd in desktop.alive {
        OpenAllowsPresent(hist, hwnd);
      }
    }

    // -------------------------------------------------------------- one pass

    /** A pass has just ended, for the reason that is on record. */
    ghost predicate PassDone()
      reads this
    {
      Core({}) && Between() && active && |run| > 0 && run[|run| - 1].PassEnded?
    }

    /** It ended for this reason. */
    ghost predicate PassDoneFor(outcome: Outcome)
      reads this
    {
      PassDone() && run[|run| - 1] == PassEnded(outcome)
    }

    /** Takes the requests of a pass, and what earlier passes deferred. */
    method BeginPass(flags: set<Flag>) returns (todo: set<Flag>)
      requires Core(flags) && Between() && active && flags <= hist.mail.requested
      modifies this`schedule, this`run, this`hist, this`passes
      ensures Serving(todo) && !overlayDestroyExpected && NotExposed(hist) && flags <= todo
      ensures hist.pass == Running(flags, todo, {}, UNSEEN, UNTOUCHED, NoShow, NoUpkeep)
      ensures passes == old(passes) + 1
      ensures hist.world == old(hist.world) && hist.mind == old(hist.mind)
    {
      hide Legal, Recall, Watch, Allowed, MailBy, PacedBy, BoundBy, ConcludedBy, OwnedBy, WorldBy, NotExposed;
      todo := flags + schedule.deferredFlags;
      schedule := schedule.(deferredFlags := {});
      passes := passes + 1;
      BeginAllowed(hist, flags);
      PacedAnyway(hist.pace, old(schedule), schedule);
      MailIsHanded(hist.mail, inbox, desktop.posted, old(passes), flags);
      Emit(PassBegan(flags));
      ExposureIsOfTheWorld(old(hist), hist);
    }

    /** Ends the pass, and defers what is left of the `kept` kinds of work. */
    method EndPass(todo: set<Flag>, kept: set<Flag>, ghost outcome: Outcome)
      requires Working() && hist.call.Idle? && !overlayDestroyExpected
      requires schedule.deferredFlags == {} && hist.owed == todo * kept && kept <= DURABLE
      requires ShowSettled(hist.pass) && MayEnd(hist, outcome) && NotExposed(hist)
      modifies this`schedule, this`run, this`hist
      ensures PassDoneFor(outcome)
      ensures schedule == old(schedule).(deferredFlags := todo * kept) && hist.pace == old(hist.pace)
    {
      hide Legal, Recall, Watch, Allowed, MailBy, PacedBy, BoundBy, ConcludedBy, OwnedBy, WorldBy, MayEnd, NotExposed;
      EndEffect(hist, outcome);
      schedule := schedule.(deferredFlags := schedule.deferredFlags + todo * kept);
      PacedAnyway(hist.pace, old(schedule), schedule);
      Emit(PassEnded(outcome));
      ExposureIsOfTheWorld(old(hist), hist);
    }

    method ReconcileOverlayStateOnce(flags: set<Flag>)
      requires Core(flags) && Between() && active && flags <= hist.mail.requested
      modifies this
      ensures PassDone() && passes == old(passes) + 1 && desktop.clock >= old(desktop.clock)
      decreases 15
    {
      hide Legal, Recall, Watch, Allowed, MailBy, PacedBy, BoundBy, ConcludedBy, OwnedBy, WorldBy;
      var todo := BeginPass(flags);
      var ended: bool;
      var identityChanged;
      todo, identityChanged, ended := ReconcileGeneration(todo);
      if ended {
        return;
      }
      var hwnd, created;
      todo, hwnd, created, ended := ReconcileLifetime(todo);
      if ended {
        return;
      }
      DecideAndAct(todo, hwnd, flags, created, identityChanged);
    }

    /** The part of a pass that looks at the desktop and then acts. */
    method DecideAndAct(flags: set<Flag>, hwnd: Hwnd, incoming: set<Flag>, created: bool, identityChanged: bool)
      requires ServingOverlay(flags, hwnd) && !overlayDestroyExpected && RefreshTrayIcon !in flags
      requires hist.pass.incoming == incoming && (ResetSurface in incoming ==> ResetSurface in flags)
      requires hist.pass.life.created == created && hist.pass.view.identityChanged == identityChanged
      requires !hist.pass.view.looked && !hist.pass.view.decided
      modifies this`overlay, this`binding, this`inbox, this`desktop, this`run, this`hist, this`generation,
               this`schedule, this`suppression, this`presentSequence
      ensures PassDone() && desktop.clock >= old(desktop.clock)
      decreases 14, 9
    {
      hide Legal, Recall, Watch, Allowed, MailBy, PacedBy, BoundBy, OwnedBy, WorldBy;
      var screenshot: bool := *;
      var scene := LookAround(screenshot);
      var changed := DecideVisibility(screenshot, scene);
      var facts := PassFacts(incoming, created, identityChanged, changed && suppression.policy.committed.None?);
      ReconcileVisibility(flags, hwnd, screenshot, facts);
    }

    /** The part of a pass that follows the taskbar: identity, teardown, tray icon. */
    method ReconcileGeneration(flags: set<Flag>) returns (todo: set<Flag>, identityChanged: bool, ended: bool)
      requires Serving(flags) && !overlayDestroyExpected && NotExposed(hist)
      requires hist.pass.view.taskbar.Unsought? && !hist.pass.life.ensured
      modifies this`overlay, this`binding, this`inbox, this`desktop, this`run, this`hist, this`overlayDestroyExpected,
               this`identity, this`schedule
      ensures ended ==> PassDone()
      ensures !ended ==> Serving(todo) && !overlayDestroyExpected && NotExposed(hist)
      ensures !ended ==>
                && GenerationDone(old(hist), hist) && RefreshTrayIcon !in todo
                && hist.pass.view.identityChanged == identityChanged
      ensures !ended && ResetSurface in flags ==> ResetSurface in todo
      ensures desktop.clock >= old(desktop.clock)
      decreases 11
    {
      hide Legal, Recall, Watch, Allowed, MailBy, PacedBy, BoundBy, ConcludedBy, OwnedBy, WorldBy, NotExposed;
      todo := flags;
      var ready, result := ObserveGeneration(todo);
      identityChanged := result.committedChanged;
      if result.pending {
        LeaveWithoutTaskbar(todo, DURABLE, ready, AwaitingIdentity);
        return todo, identityChanged, true;
      }
      todo, ended := ReplaceOverlay(todo);
      if ended {
        return;
      }
      todo, ended := ServeTaskbar(todo, ready);
    }

    /** Refreshes the tray icon if asked to, and gives up when there is no taskbar to sit on. */
    method ServeTaskbar(flags: set<Flag>, ready: bool) returns (todo: set<Flag>, ended: bool)
      requires Serving(flags) && !overlayDestroyExpected && NotExposed(hist)
      requires hist.pass.view.taskbar == (if ready then Ready else Missing) && !hist.pace.recreate
      modifies this`overlay, this`binding, this`inbox, this`desktop, this`run, this`hist, this`schedule
      ensures ended ==> PassDone()
      ensures !ended ==> Serving(todo) && !overlayDestroyExpected && NotExposed(hist) && Served(old(hist), hist)
      ensures !ended ==> RefreshTrayIcon !in todo && ready && flags - {RefreshTrayIcon} <= todo
      ensures desktop.clock >= old(desktop.clock)
      decreases 10, 0
    {
      hide Legal, Recall, Watch, Allowed, MailBy, PacedBy, BoundBy, ConcludedBy, OwnedBy, WorldBy, NotExposed,
           QuietStep;
      todo := flags;
      if RefreshTrayIcon in todo {
        RefreshTrayIconForCommittedTaskbar();
        TrayWasRefreshed(old(hist), hist);
        todo := todo - {RefreshTrayIcon};
      }
      if !ready {
        LeaveWithoutTaskbar(todo, {ResetSurface, ApplyStyle}, ready, NoTaskbar);
        return todo, true;
      }
      ended := false;
    }

    /** Hides the overlay when the taskbar it belongs to is gone, and ends the pass. */
    method LeaveWithoutTaskbar(todo: set<Flag>, kept: set<Flag>, ready: bool, ghost outcome: Outcome)
      requires Working() && hist.call.Idle? && !overlayDestroyExpected && NotExposed(hist)
      requires schedule.deferredFlags == {} && hist.owed == todo * kept && kept <= DURABLE
      requires hist.pass.view.taskbar == (if ready then Ready else Missing) && ShowSettled(hist.pass)
      requires (outcome == AwaitingIdentity && hist.pass.view.identityPending) || (outcome == NoTaskbar && !ready)
      modifies this`overlay, this`binding, this`inbox, this`desktop, this`run, this`hist, this`schedule
      ensures PassDoneFor(outcome) && desktop.clock >= old(desktop.clock)
      decreases 9
    {
      hide Legal, Recall, Watch, Allowed, MailBy, PacedBy, BoundBy, ConcludedBy, OwnedBy;
      if !ready {
        var hidden := CommitOverlayHidden(overlay.hwnd);
        HideOutsideShow(old(hist), hist, hidden);
      }
      EndPass(todo, kept, outcome);
    }

    /** Destroys the overlay of an earlier taskbar, or waits until that may be tried again. */
    method ReplaceOverlay(flags: set<Flag>) returns (todo: set<Flag>, ended: bool)
      requires Serving(flags) && !overlayDestroyExpected && NotExposed(hist)
      requires Surveyed(hist.pass) && !hist.pass.life.ensured
      modifies this`overlay, this`binding, this`inbox, this`desktop, this`run, this`hist, this`overlayDestroyExpected,
               this`schedule
      ensures ended ==> PassDone()
      ensures !ended ==> Serving(todo) && !overlayDestroyExpected && NotExposed(hist) && Served(old(hist), hist)
      ensures !ended ==> flags <= todo
      ensures desktop.clock >= old(desktop.clock)
      decreases 9
    {
      hide Legal, Recall, Watch, Allowed, MailBy, BoundBy, ConcludedBy, OwnedBy, NotExposed;
      todo := flags;
      if !schedule.recreatePending {
        return todo, false;
      }
      var now := GetTickCount64();
      DeadlineReads(hist.pace.teardownRefused, REPAIR_INTERVAL_MS, now);
      if schedule.nextDestroyRetryTick != 0 && !TickPassed(TickOf(now), schedule.nextDestroyRetryTick)
         && IsWindow(overlay.hwnd) {
        EndPass(todo, DURABLE, AwaitingTeardown(now));
        return todo, true;
      }
      todo, ended := TearDown(todo, now);
    }

    method TearDown(flags: set<Flag>, now: nat) returns (todo: set<Flag>, ended: bool)
      requires Serving(flags) && !overlayDestroyExpected && NotExposed(hist)
      requires Surveyed(hist.pass) && !hist.pass.life.ensured
      requires hist.pace.recreate && hist.pace.clock <= now <= desktop.clock
      requires desktop.alive == {} || WaitOver(hist.pace.teardownRefused, REPAIR_INTERVAL_MS, now)
      modifies this`overlay, this`binding, this`inbox, this`desktop, this`run, this`hist, this`overlayDestroyExpected,
               this`schedule
      ensures ended ==> PassDone()
      ensures !ended ==> Serving(todo) && !overlayDestroyExpected && NotExposed(hist) && Served(old(hist), hist)
      ensures !ended ==> flags <= todo
      ensures desktop.clock >= old(desktop.clock)
      decreases 8
    {
      hide Legal, Recall, Watch, Allowed, MailBy, PacedBy, BoundBy, ConcludedBy, OwnedBy, NotExposed, HiddenOrRefused,
           HideAttempted, Disturbed;
      todo := flags;
      TryTeardown(now);
      var destroyed := HideAndDestroy();
      if !destroyed {
        AbandonTeardown(todo, now);
        return todo, true;
      }
      ghost var removed := hist;
      FinishTeardown();
      ExposureIsOfTheWorld(removed, hist);
      todo := todo + {RefreshTrayIcon};
      ended := false;
    }

    /** The overlay could not be destroyed: the pass ends, and the next attempt has to wait. */
    method AbandonTeardown(todo: set<Flag>, now: nat)
      requires Serving(todo) && !overlayDestroyExpected && NotExposed(hist) && HiddenOrRefused(hist)
      requires Surveyed(hist.pass)
      requires hist.pace.recreate && hist.pace.clock <= now <= desktop.clock && desktop.alive != {}
      requires hist.pass.life.teardown.Tried?
      modifies this`schedule, this`run, this`hist
      ensures PassDoneFor(TeardownFailed) && schedule.nextDestroyRetryTick == AddTicks(TickOf(now), REPAIR_INTERVAL_MS)
    {
      hide Legal, Recall, Watch, Allowed, MailBy, PacedBy, BoundBy, ConcludedBy, OwnedBy, NotExposed, HiddenOrRefused;
      RefuseTeardown(now);
      ExposureIsOfTheWorld(old(hist), hist);
      EndPass(todo, DURABLE, TeardownFailed);
    }

    ghost method TryTeardown(now: nat)
      requires Working() && hist.pace.recreate && hist.pace.clock <= now <= desktop.clock
      requires desktop.alive == {} || WaitOver(hist.pace.teardownRefused, REPAIR_INTERVAL_MS, now)
      requires Surveyed(hist.pass) && !hist.pass.life.ensured
      modifies this`run, this`hist
      ensures Working()
      ensures hist == old(hist).(
                pace := old(hist.pace).(clock := now),
                pass := old(hist.pass).(
                  life := old(hist.pass.life).(teardown := Tried)))
    {
      hide Legal, Recall, Watch, Allowed, MailBy, OwnedBy, BoundBy, ConcludedBy;
      TeardownTriedEffect(hist, now);
      TeardownAllowed(hist, now);
      ClockMoves(hist, now);
      Emit(TeardownTried(now));
      BoundAndConcluded(old(hist), hist);
    }

    /** Hides the overlay and destroys it, as far as the system lets us. */
    method HideAndDestroy() returns (destroyed: bool)
      requires Working() && hist.call.Idle? && !overlayDestroyExpected
      modifies this`overlay, this`binding, this`inbox, this`desktop, this`run, this`hist, this`overlayDestroyExpected
      ensures Working() && Removed(old(hist), hist) && !overlayDestroyExpected
      ensures destroyed <==> desktop.alive == {}
      ensures desktop.clock >= old(desktop.clock)
      decreases 7
    {
      hide Legal, Recall, Watch, Allowed, MailBy, PacedBy, BoundBy, ConcludedBy, OwnedBy, NotExposed, HiddenOrRefused,
           HideAttempted, Disturbed;
      var hidden := CommitOverlayHidden(overlay.hwnd);
      HideOutsideShow(old(hist), hist, hidden);
      ghost var kept := hist;
      destroyed := DestroyOverlayWindow();
      RemovedInSteps(old(hist), kept, hist);
    }

    method RefuseTeardown(now: nat)
      requires Working() && hist.pace.recreate && hist.pace.clock <= now <= desktop.clock && desktop.alive != {}
      requires hist.pass.life.teardown.Tried?
      modifies this`schedule, this`run, this`hist
      ensures Working()
      ensures hist == old(hist).(
                pace := old(hist.pace).(clock := now, teardownRefused := At(now)),
                pass := old(hist.pass).(
                  life := old(hist.pass.life).(teardown := Refused)))
      ensures hist.world == old(hist.world)
      ensures schedule == old(schedule).(nextDestroyRetryTick := AddTicks(TickOf(now), REPAIR_INTERVAL_MS))
    {
      hide Legal, Recall, Watch, MailBy, OwnedBy;
      TeardownRefusedEffect(hist, now);
      schedule := schedule.(nextDestroyRetryTick := AddTicks(TickOf(now), REPAIR_INTERVAL_MS));
      Emit(TeardownRefused(now));
    }

    method FinishTeardown()
      requires Working() && hist.pace.recreate && desktop.alive == {} && hist.pass.life.teardown.Tried?
      requires !hist.pass.life.ensured
      modifies this`schedule, this`run, this`hist
      ensures Working()
      ensures hist == old(hist).(
                pace := old(hist.pace).(recreate := false, teardownRefused := Never, showRefused := Never),
                owed := old(hist.owed) + {RefreshTrayIcon},
                pass := old(hist.pass).(
                  todo := old(hist.pass.todo) + {RefreshTrayIcon}))
      ensures schedule.deferredFlags == old(schedule.deferredFlags)
    {
      hide Legal, Recall, Watch, MailBy, ConcludedBy;
      TornDownEffect(hist);
      schedule := schedule.(recreatePending := false, nextDestroyRetryTick := 0);
      schedule := schedule.(nextVisibilityRetryTick := 0, visibilityRetryPending := false);
      Emit(TornDown);
    }

    method ObserveGeneration(ghost todo: set<Flag>) returns (ready: bool, result: TaskbarIdentityResult)
      requires Serving(todo) && NotExposed(hist) && hist.pass.view.taskbar.Unsought?
      modifies this`desktop, this`identity, this`schedule, this`run, this`hist
      ensures Serving(todo) && NotExposed(hist)
      ensures GenerationObserved(old(hist), hist, ready, result)
      ensures ready ==> identity.committed.hwnd != 0
      ensures desktop == old(desktop).(clock := desktop.clock) && desktop.clock >= old(desktop.clock)
    {
      hide Legal, Recall, Watch, Allowed, MailBy, PacedBy, BoundBy, ConcludedBy, OwnedBy, WorldBy, GenerationSeen,
           NotExposed;
      result := UpdateTaskbarIdentity();
      var usable: bool := *;
      ready := identity.committed.hwnd != 0 && usable;
      ProbedAfterSeen(old(hist), hist, result, ready);
      Note(TaskbarProbed(ready));
    }

    /** The part of a pass that makes sure of an overlay and its owner. */
    method ReconcileLifetime(flags: set<Flag>) returns (todo: set<Flag>, hwnd: Hwnd, created: bool, ended: bool)
      requires Serving(flags) && !overlayDestroyExpected && NotExposed(hist)
      requires !hist.pace.recreate && hist.pass.view.taskbar.Ready? && RefreshTrayIcon !in flags
      requires !hist.pass.view.decided && !hist.pass.life.created
      modifies this`overlay, this`binding, this`inbox, this`desktop, this`run, this`hist, this`generation, this`schedule
      ensures ended ==> PassDone()
      ensures !ended ==> ServingOverlay(todo, hwnd) && !overlayDestroyExpected && RefreshTrayIcon !in todo
      ensures !ended ==> LifetimeDone(old(hist), hist) && hist.pass.life.created == created && NotExposed(hist)
      ensures !ended ==> flags <= todo
      ensures desktop.clock >= old(desktop.clock)
      decreases 10
    {
      hide Legal, Recall, Watch, Allowed, MailBy, PacedBy, BoundBy, ConcludedBy, OwnedBy, NotExposed, Ensured,
           OwnerChecked;
      todo := flags;
      var generationBefore := generation;
      var ensured, _ := EnsureOverlayWindow();
      EnsuredCreates(old(hist), hist);
      if !ensured {
        EnsureRefusedInPass(old(hist), hist);
        EndPass(todo, {ResetSurface, ApplyStyle}, NoOverlay);
        return todo, 0, false, true;
      }
      hwnd := overlay.hwnd;
      created := generation != generationBefore;
      ghost var found := hist;
      var bound := ReconcileInitialOwnerBinding();
      LifetimeInSteps(old(hist), found, hist, bound);
      if bound {
        todo := todo + {Reposition, Render};
      }
      ended := false;
    }

    /** What the desktop shows at this moment. */
    method LookAround(screenshot: bool) returns (scene: Scene)
      ensures scene.screenshot == screenshot
    {
      var taskbar: TaskbarVisibility := *;
      var notification: NotificationState := *;
      var notificationKnown: bool := *;
      var coverage: Coverage := *;
      var powerPointForeground: bool := *;
      var powerPointEditor: bool := *;
      scene := Scene(taskbar, screenshot, notification, notificationKnown, coverage, powerPointForeground,
                     powerPointEditor);
    }

    /** One look at the desktop: screenshot freeze and suppression. */
    method DecideVisibility(screenshot: bool, scene: Scene) returns (changed: bool)
      requires Working() && !hist.pass.view.looked && !hist.pass.view.decided && scene.screenshot == screenshot
      requires hist.pass.view.taskbar.Ready? && hist.pass.life.ensured && !hist.pace.recreate
      modifies this`desktop, this`suppression, this`run, this`hist
      ensures Working() && Decided(old(hist), hist, changed) && hist.mind.frozen == screenshot
      ensures desktop == old(desktop).(clock := desktop.clock) && desktop.clock >= old(desktop.clock)
    {
      hide Legal, Recall, Watch, Allowed, MailBy, PacedBy, BoundBy, OwnedBy, WorldBy, ObserveSuppression;
      ForegroundShape(hist, screenshot);
      UpdateFreezePolicy(screenshot);
      ghost var looked := hist;
      changed := UpdateSuppressionPolicy(scene);
      DecidedInSteps(old(hist), looked, hist, screenshot);
    }

    /** The part of a pass that acts on its decisions. */
    method ReconcileVisibility(flags: set<Flag>, hwnd: Hwnd, screenshot: bool, facts: PassFacts)
      requires ServingOverlay(flags, hwnd) && !overlayDestroyExpected && RefreshTrayIcon !in flags
               && facts.Match(hist.pass)
      requires ResetSurface in facts.incoming ==> ResetSurface in flags
      requires hist.pass.view.looked && hist.pass.view.decided && hist.mind.frozen == screenshot
      modifies this`overlay, this`binding, this`inbox, this`desktop, this`run, this`hist, this`generation,
               this`schedule, this`suppression, this`presentSequence
      ensures PassDone() && desktop.clock >= old(desktop.clock)
      decreases 14, 8
    {
      hide Legal, Recall, Watch, Allowed, MailBy, PacedBy, BoundBy, OwnedBy, ConcludedBy, WorldBy, QuietStep,
           NotExposed;
      var todo := flags;
      if ApplyStyle in todo {
        var styled := UpdateLayeredStyle(hwnd);
        StyledInPass(old(hist), hist, styled);
        if !styled {
          EndPass(todo, {ResetSurface, ApplyStyle}, StyleRefused);
          return;
        }
        todo := todo - {ApplyStyle};
      }
      ActOnIntent(todo, hwnd, screenshot, facts);
    }

    method ActOnIntent(flags: set<Flag>, hwnd: Hwnd, screenshot: bool, facts: PassFacts)
      requires ServingOverlay(flags, hwnd) && !overlayDestroyExpected && facts.Match(hist.pass)
      requires ResetSurface in facts.incoming ==> ResetSurface in flags
      requires RefreshTrayIcon !in flags && ApplyStyle !in flags
      requires hist.pass.view.looked && hist.pass.view.decided && hist.mind.frozen == screenshot
      modifies this`overlay, this`binding, this`inbox, this`desktop, this`run, this`hist, this`generation,
               this`schedule, this`suppression, this`presentSequence
      ensures PassDone() && desktop.clock >= old(desktop.clock)
      decreases 14, 7
    {
      hide Legal, Recall, Watch, Allowed, MailBy, PacedBy, BoundBy, ConcludedBy, OwnedBy, WorldBy, HideAttempted;
      Concluded();
      var intent := ComputeOverlayIntent(true, suppression.policy.committed, screenshot);
      if !intent.shouldBeVisible {
        var hidden := CommitOverlayHidden(hwnd);
        HideOutsideShow(old(hist), hist, hidden);
        EndPass(flags, {ResetSurface}, Suppressed);
        return;
      }
      var now := GetTickCount64();
      var resumePending :=
        suppression.refreshResumeTick != 0 && !TickPassed(TickOf(now), suppression.refreshResumeTick);
      if intent.updatesFrozen {
        EndPass(flags, {ResetSurface}, OverlayProtocol.Frozen);
        return;
      }
      if ShouldPromoteDuringScreenshotResume(intent, screenshot, resumePending) {
        RaiseAndWait(flags, hwnd, now);
        return;
      }
      if suppression.refreshResumeTick != 0 {
        ResumeUpdates(flags, hwnd, facts, now);
      } else {
        ReconcileOpen(flags, hwnd, facts);
      }
    }

    /** The quiet time after a screenshot is not over: the overlay is raised, and otherwise left alone. */
    method RaiseAndWait(flags: set<Flag>, hwnd: Hwnd, now: nat)
      requires ServingOverlay(flags, hwnd) && !overlayDestroyExpected && RefreshTrayIcon !in flags
               && ApplyStyle !in flags
      requires hist.pass.view.decided && !hist.mind.frozen && suppression.policy.committed.None?
      requires suppression.refreshResumeTick != 0 && !TickPassed(TickOf(now), suppression.refreshResumeTick)
      requires hist.pace.clock <= now
      modifies this`overlay, this`binding, this`inbox, this`desktop, this`run, this`hist, this`schedule
      ensures PassDoneFor(Resuming(now)) && desktop.clock >= old(desktop.clock)
      decreases 8
    {
      hide Legal, Recall, Watch, Allowed, MailBy, PacedBy, BoundBy, ConcludedBy, OwnedBy, WorldBy;
      Concluded();
      PromoteVisibleOverlayTopmost(hwnd);
      EndPass(flags, {ResetSurface}, Resuming(now));
    }

    /** The first pass after the quiet time that follows a screenshot. */
    method ResumeUpdates(flags: set<Flag>, hwnd: Hwnd, facts: PassFacts, now: nat)
      requires ServingOverlay(flags, hwnd) && !overlayDestroyExpected && facts.Match(hist.pass)
      requires ResetSurface in facts.incoming ==> ResetSurface in flags
      requires RefreshTrayIcon !in flags && ApplyStyle !in flags
      requires hist.pass.view.looked && hist.pass.view.decided && !hist.mind.frozen
               && suppression.policy.committed.None?
      requires suppression.refreshResumeTick != 0 && TickPassed(TickOf(now), suppression.refreshResumeTick)
      requires hist.pace.clock <= now <= desktop.clock
      modifies this`overlay, this`binding, this`inbox, this`desktop, this`run, this`hist, this`generation,
               this`schedule, this`suppression, this`presentSequence
      ensures PassDone() && desktop.clock >= old(desktop.clock)
      decreases 14, 6
    {
      hide Legal, Recall, Watch, Allowed, MailBy, PacedBy, BoundBy, OwnedBy, WorldBy;
      FinishResume(now);
      PromoteVisibleOverlayTopmost(hwnd);
      ReconcileOpen(flags + {SampleMetrics, Reposition, Render}, hwnd, facts);
    }

    method FinishResume(now: nat)
      requires Working() && suppression.refreshResumeTick != 0 && TickPassed(TickOf(now), suppression.refreshResumeTick)
      requires hist.pace.clock <= now <= desktop.clock && !hist.mind.frozen && suppression.policy.committed.None?
      modifies this`suppression, this`run, this`hist
      ensures Working() && suppression == old(suppression).(refreshResumeTick := 0)
      ensures hist == old(hist).(
                mind := old(hist.mind).(resumeAt := Never), pace := old(hist.pace).(clock := now),
                pass := old(hist.pass).(
                  todo := old(hist.pass.todo) + {SampleMetrics, Reposition, Render}))
    {
      hide Legal, Recall, Watch, Allowed, MailBy, OwnedBy, WorldBy, ConcludedBy;
      ResumeConcluded(hist, identity, suppression, now);
      ResumeEffect(hist, now);
      suppression := suppression.(refreshResumeTick := 0);
      Emit(ResumeFinished(now));
    }

    /** The part of a pass that may place, fill and show the overlay: a show when one is needed, else upkeep. */
    method ReconcileOpen(flags: set<Flag>, hwnd: Hwnd, facts: PassFacts)
      requires ServingOverlay(flags, hwnd) && !overlayDestroyExpected && Open(hist) && facts.Match(hist.pass)
      requires ResetSurface in facts.incoming ==> ResetSurface in flags
      requires RefreshTrayIcon !in flags && ApplyStyle !in flags
      modifies this`overlay, this`binding, this`inbox, this`desktop, this`run, this`hist, this`generation,
               this`schedule, this`suppression, this`presentSequence
      ensures PassDone() && desktop.clock >= old(desktop.clock)
      decreases 14, 5
    {
      hide Legal, Recall, Watch, Allowed, MailBy, BoundBy, ConcludedBy, OwnedBy, WorldBy;
      var resetSurface := ResetSurface in flags;
      var visibilityMissing := !IsWindowVisible(hwnd);
      var prepareRequired :=
        || facts.created || facts.identityChanged || facts.restored || resetSurface
        || visibilityMissing || schedule.visibilityRetryPending;
      if !prepareRequired {
        KeepUp(flags, hwnd);
        return;
      }
      var now := GetTickCount64();
      DeadlineReads(hist.pace.showRefused, REPAIR_INTERVAL_MS, now);
      var retryReady :=
        schedule.nextVisibilityRetryTick == 0 || TickPassed(TickOf(now), schedule.nextVisibilityRetryTick);
      var forced :=
        facts.created || facts.identityChanged || facts.restored || ResetSurface in facts.incoming;
      if !forced && !retryReady {
        EndPass(flags, {ResetSurface}, BackingOff(now));
        return;
      }
      AttemptShow(flags, hwnd, now);
    }

    /** One show, and the record of how it went: a refused one has to wait five seconds. */
    method AttemptShow(flags: set<Flag>, hwnd: Hwnd, now: nat)
      requires ServingOverlay(flags, hwnd) && !overlayDestroyExpected && Open(hist)
               && hist.pace.clock <= now <= desktop.clock
      requires Forced(hist.pass) || WaitOver(hist.pace.showRefused, REPAIR_INTERVAL_MS, now)
      requires RefreshTrayIcon !in flags && ApplyStyle !in flags
      modifies this`overlay, this`binding, this`inbox, this`desktop, this`run, this`hist, this`schedule,
               this`presentSequence
      ensures PassDoneFor(OverlayProtocol.ShowAttempted) && desktop.clock >= old(desktop.clock)
      ensures if schedule.visibilityRetryPending
              then schedule.nextVisibilityRetryTick == AddTicks(TickOf(now), REPAIR_INTERVAL_MS)
                   && hist.pace.showRefused == At(now)
              else schedule.nextVisibilityRetryTick == 0 && hist.pace.showRefused.Never?
      decreases 10
    {
      hide Legal, Recall, Watch, Allowed, MailBy, PacedBy, BoundBy, ConcludedBy, OwnedBy, WorldBy;
      NoteShow(now);
      var shown := PrepareOverlayForShow(hwnd, ResetSurface in flags);
      RecordShow(shown, now);
      ShowAttemptEnds(hist);
      EndPass(flags, {}, OverlayProtocol.ShowAttempted);
    }

    ghost method NoteShow(now: nat)
      requires Working() && Open(hist) && Unstarted(hist.pass) && hist.pace.clock <= now <= desktop.clock
      requires Forced(hist.pass) || WaitOver(hist.pace.showRefused, REPAIR_INTERVAL_MS, now)
      modifies this`run, this`hist
      ensures Working()
      ensures hist == old(hist).(pace := old(hist.pace).(clock := now), pass := old(hist.pass).(show := ShowPending))
    {
      hide Legal, Recall, Watch, Allowed, MailBy, OwnedBy, WorldBy, Open, Forced, BoundBy, ConcludedBy;
      ShowMayBeTried(hist, now);
      ShowTriedEffect(hist, now);
      ClockMoves(hist, now);
      Emit(ShowTried(now));
      BoundAndConcluded(old(hist), hist);
    }

    method RecordShow(shown: bool, now: nat)
      requires Working() && hist.pass.show == ShowEnded(shown) && hist.call.Idle?
      requires hist.pace.clock == now && now <= desktop.clock
      modifies this`schedule, this`run, this`hist
      ensures Working() && schedule.visibilityRetryPending == !shown
      ensures schedule.nextVisibilityRetryTick == if shown then 0 else AddTicks(TickOf(now), REPAIR_INTERVAL_MS)
      ensures hist == old(hist).(pace := old(hist.pace).(showRefused := if shown then Never else At(now)),
                                 pass := old(hist.pass).(show := ShowConcluded(shown)))
      ensures schedule.deferredFlags == old(schedule.deferredFlags)
    {
      hide Legal, Recall, Watch, Allowed, MailBy, OwnedBy, WorldBy, BoundBy, ConcludedBy;
      ShowConcludedEffect(hist, now);
      ConclusionAllowed(hist, now);
      if shown {
        schedule := schedule.(nextVisibilityRetryTick := 0, visibilityRetryPending := false);
        Emit(ShowGranted);
      } else {
        schedule := schedule.(
          nextVisibilityRetryTick := AddTicks(TickOf(now), REPAIR_INTERVAL_MS), visibilityRetryPending := true);
        Emit(ShowRefused(now));
      }
      BoundAndConcluded(old(hist), hist);
    }

    /** Nothing has to be shown: sample, promote, place and render as asked, then repair what is broken. */
    method KeepUp(flags: set<Flag>, hwnd: Hwnd)
      requires ServingOverlay(flags, hwnd) && !overlayDestroyExpected && Open(hist) && !Forced(hist.pass)
      requires RefreshTrayIcon !in flags && ApplyStyle !in flags && ResetSurface !in flags
      requires IsWindowVisible(hwnd) && hist.pace.showRefused.Never?
      modifies this`overlay, this`binding, this`inbox, this`desktop, this`run, this`hist, this`generation,
               this`schedule, this`presentSequence
      ensures PassDone() && run[|run| - 1].outcome.Steady? && desktop.clock >= old(desktop.clock)
      decreases 14, 4
    {
      hide Legal, Recall, Watch, Allowed, MailBy, PacedBy, BoundBy, ConcludedBy, OwnedBy, Upkept, Open, Forced;
      UpkeepBegins(hist);
      Note(SawVisible);
      UpkeptIsOpen(old(hist), hist, {});
      var shouldRender := SampleAndPromote(flags, hwnd, old(hist));
      UpkeptIsOpen(old(hist), hist, flags * {SampleMetrics, PromoteForTaskView});
      PlaceAndRender(flags, hwnd, shouldRender, old(hist));
      UpkeptIsOpen(old(hist), hist, flags * {SampleMetrics, PromoteForTaskView, Reposition, Render});
      FinishUpkeep(flags, old(hist));
    }

    /** Repairs what is broken, and ends the pass. */
    method FinishUpkeep(flags: set<Flag>, ghost begin: History)
      requires Working() && Open(begin) && hist.call.Idle? && hist.owed == {}
      requires Upkept(begin, hist, flags * {SampleMetrics, PromoteForTaskView, Reposition, Render})
      requires Equipped(begin) && !hist.pace.recreate && begin.pass.todo <= flags + begin.pass.done
      requires begin.pass.show.NoShow?
      requires !overlayDestroyExpected && schedule.deferredFlags == {}
      requires RefreshTrayIcon !in flags && ApplyStyle !in flags && ResetSurface !in flags
      modifies this`overlay, this`binding, this`inbox, this`desktop, this`run, this`hist, this`generation,
               this`schedule, this`presentSequence
      ensures PassDone() && run[|run| - 1].outcome.Steady? && desktop.clock >= old(desktop.clock)
      decreases 13
    {
      hide Legal, Recall, Watch, Allowed, MailBy, PacedBy, BoundBy, ConcludedBy, OwnedBy, Upkept, Open, Carried, MayEnd,
           NotExposed, NeedsRepair, RepairFollowed, RepairMustWait, UpkeepComplete;
      var snapshot := CaptureOverlayState();
      Inspects(begin, hist, flags * {SampleMetrics, PromoteForTaskView, Reposition, Render}, snapshot.seen);
      Note(Inspected(snapshot.seen));
      ghost var inspected := hist;
      RepairOverlayInvariant(snapshot);
      CarriedWell(inspected, hist);
      UpkeepIsComplete(hist, desktop.clock);
      UpkeepEnds(begin, inspected, hist, flags, desktop.clock);
      EndPass(flags, {}, Steady(desktop.clock));
    }

    method SampleAndPromote(flags: set<Flag>, hwnd: Hwnd, ghost begin: History) returns (shouldRender: bool)
      requires Working() && Open(begin) && Upkept(begin, hist, {}) && desktop.alive <= {hwnd} && !hist.pace.recreate
      requires flags <= begin.pass.todo
      modifies this`overlay, this`binding, this`inbox, this`desktop, this`run, this`hist
      ensures Working() && Upkept(begin, hist, flags * {SampleMetrics, PromoteForTaskView})
      ensures Render in flags ==> shouldRender
      ensures desktop.clock >= old(desktop.clock) && desktop.alive <= old(desktop.alive)
      decreases 8
    {
      hide Legal, Recall, Watch, Allowed, MailBy, PacedBy, BoundBy, OwnedBy, Upkept, Open, QuietStep;
      UpkeptIsOpen(begin, hist, {});
      ghost var done: set<Flag> := {};
      if SampleMetrics in flags {
        OpenAllows(hist);
        SampleMetricsNow();
        UpkeptStep(begin, old(hist), MetricsSampled, hist, done);
        done := {SampleMetrics};
        UpkeptIsOpen(begin, hist, done);
      }
      shouldRender := Render in flags;
      if SampleKeys in flags && showKeyWidget {
        var keysChanged: bool := *;
        shouldRender := shouldRender || keysChanged;
      }
      OpenMeansShown(hist);
      var intent := ComputeOverlayIntent(true, suppression.policy.committed, false);
      ghost var unpromoted := hist;
      if ShouldPromoteForTaskViewTransition(intent, IsWindowVisible(hwnd), PromoteForTaskView in flags) {
        PromoteVisibleOverlayForTaskView(hwnd);
        UpkeptPromotion(begin, unpromoted, hist, done);
        done := done + {PromoteForTaskView};
      } else if PromoteForTaskView in flags {
        MootAllowed(hist);
        Note(PromoteMoot);
        UpkeptMoot(begin, unpromoted, done);
        done := done + {PromoteForTaskView};
      }
      UpkeptLess(begin, hist, done, flags * {SampleMetrics, PromoteForTaskView});
    }

    method PlaceIfAsked(flags: set<Flag>, ghost begin: History) returns (moved: bool)
      requires Working() && Open(begin) && Upkept(begin, hist, flags * {SampleMetrics, PromoteForTaskView})
      modifies this`overlay, this`binding, this`inbox, this`desktop, this`run, this`hist
      ensures Working() && Upkept(begin, hist, flags * {SampleMetrics, PromoteForTaskView, Reposition})
      ensures moved ==> Reposition in flags
      ensures desktop.clock >= old(desktop.clock)
      decreases 7
    {
      hide Legal, Recall, Watch, Allowed, MailBy, PacedBy, BoundBy, ConcludedBy, OwnedBy, WorldBy, Upkept, Open,
           QuietStep;
      ghost var done := flags * {SampleMetrics, PromoteForTaskView};
      UpkeptIsOpen(begin, hist, done);
      OpenAllows(hist);
      moved := false;
      if Reposition in flags {
        moved := RepositionWindow();
        UpkeptStep(begin, old(hist), Placed, hist, done);
        done := done + {Reposition};
      }
      UpkeptLess(begin, hist, done, flags * {SampleMetrics, PromoteForTaskView, Reposition});
    }

    method PlaceAndRender(flags: set<Flag>, hwnd: Hwnd, shouldRender: bool, ghost begin: History)
      requires Working() && Open(begin) && desktop.alive <= {hwnd} && !hist.pace.recreate
      requires Upkept(begin, hist, flags * {SampleMetrics, PromoteForTaskView})
      requires Render in flags ==> shouldRender
      modifies this`overlay, this`binding, this`inbox, this`desktop, this`run, this`hist, this`presentSequence
      ensures Working() && Upkept(begin, hist, flags * {SampleMetrics, PromoteForTaskView, Reposition, Render})
      ensures desktop.clock >= old(desktop.clock)
      decreases 8
    {
      hide Legal, Recall, Watch, Allowed, MailBy, PacedBy, BoundBy, ConcludedBy, OwnedBy, WorldBy, Upkept, Open,
           Rendered,
           QuietStep;
      UpkeptIsOpen(begin, hist, flags * {SampleMetrics, PromoteForTaskView});
      var moved := PlaceIfAsked(flags, begin);
      ghost var placed := hist;
      ghost var done := flags * {SampleMetrics, PromoteForTaskView, Reposition};
      UpkeptIsOpen(begin, hist, done);
      MayRenderNow(hwnd);
      if shouldRender || moved {
        RenderOverlay(hwnd);
        UpkeptRender(begin, placed, hist, done, hwnd, presentSequence > old(presentSequence));
        done := done + {Render};
      }
      UpkeptLess(begin, hist, done, flags * {SampleMetrics, PromoteForTaskView, Reposition, Render});
    }
  }
}
