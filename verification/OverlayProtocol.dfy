/** What a run of the overlay reconciler may do, as a history of events.

    `Recall` summarises a history, `Allowed` says which event may come next, and a run is `Legal`
    when every one of its events was allowed. The reconciler is proved to produce only legal runs;
    `OverlayRuns` and the modules that use it say what every legal run is worth. */
module OverlayProtocol {
  import opened OverlayPolicy
  import opened Ticks
  import opened OverlayObservation

  /** A window handle; 0 is null. */
  type Hwnd = nat

  datatype Flag =
    SampleMetrics | SampleKeys | Reposition | Render | ResetSurface | RefreshTrayIcon | ApplyStyle | PromoteForTaskView

  /** The requests that are kept until they have been acted on. */
  const DURABLE: set<Flag> := {ResetSurface, RefreshTrayIcon, ApplyStyle}

  const IDENTITY_SETTLE_MS: nat := 250
  const REPAIR_INTERVAL_MS: nat := 5000
  const STALE_THRESHOLD_MS: nat := 5000
  const RESUME_DELAY_MS: nat := 800
  const BINDING_RETRY_MS: nat := 500
  const BINDING_MAX_ATTEMPTS: nat := 8

  /** A point in real time, or none. */
  datatype Moment = Never | At(ms: nat)

  /** Where a pass may stop. */
  datatype Outcome =
    | AwaitingIdentity
    | AwaitingTeardown(at: nat)
    | TeardownFailed
    | NoTaskbar
    | NoOverlay
    | StyleRefused
    | Suppressed
    | Frozen
    | Resuming(at: nat)
    | BackingOff(at: nat)
    | ShowAttempted
    | Steady(at: nat)

  /** Why no overlay could be had: the taskbar has gone since the pass found it, or no window could be made. */
  datatype Refusal = TaskbarGone | CreationFailed

  datatype Event =
      // Requests, and the passes that serve them.
    | Requested(flags: set<Flag>)
    | PassBegan(flags: set<Flag>)
    | PassEnded(outcome: Outcome)
      // The taskbar and the overlay that belongs to it.
    | TaskbarSeen(identity: TaskbarIdentity, at: nat)
    | TaskbarProbed(ready: bool)
    | TeardownTried(at: nat)
    | TeardownRefused(at: nat)
    | TornDown
    | Created(hwnd: Hwnd, owner: Hwnd)
    | OverlayRefused(why: Refusal)
    | OverlayFound(hwnd: Hwnd)
    | Destroyed(hwnd: Hwnd)
    | TrayRefreshed
    | Armed
    | OwnerSet(at: nat)
    | OwnerBound
      // What the desktop looks like.
    | ForegroundSeen(screenshot: bool, at: nat)
    | SuppressionSeen(seen: SuppressionObservation, at: nat)
    | ResumeFinished(at: nat)
    | SawVisible
      // What is done to the overlay window.
    | StyleTried(ok: bool)
    | HideTried(ok: bool)
    | Vanished(hwnd: Hwnd)
    | ShowTried(at: nat)
    | ShowRefused(at: nat)
    | ShowGranted
    | PrepareBegan(hwnd: Hwnd, reset: bool)
    | Placed
    | SurfaceCleared
    | RenderTried
    | Presented(hwnd: Hwnd)
    | FrameMissed
    | ShowCalled(ok: bool)
    | Shown(hwnd: Hwnd)
    | PrepareEnded(shown: bool)
    | PromoteBegan(hwnd: Hwnd)
    | PromoteMoot
    | PromoteEnded
    | MetricsSampled
    | Raised(hwnd: Hwnd)
    | Inspected(found: RepairObservation)
    | RepairBegan(at: nat, visible: bool)

  // ---------------------------------------------------------------- what a history amounts to

  /** Requests: everything ever asked for, everything ever handed to a pass, what no pass has
      received since it was last asked for, and how many passes there were. */
  datatype Mail = Mail(requested: set<Flag>, handed: set<Flag>, outstanding: set<Flag>, passes: nat)

  /** Overlay windows. `presented` were presented in their own lifetime; `current` says that a window
      was created after the latest taskbar identity commit. */
  datatype World = World(
    alive: set<Hwnd>, visible: set<Hwnd>, presented: set<Hwnd>, current: bool,
    created: nat, destroyed: nat, presents: nat)

  /** What has been concluded from the observations. */
  datatype Mind = Mind(
    identity: TaskbarIdentityState, suppression: SuppressionPolicyState, decisions: nat,
    frozen: bool, resumeAt: Moment)

  /** When things last happened, and what is still to be retried. */
  datatype Pace = Pace(
    recreate: bool, teardownRefused: Moment, showRefused: Moment, repaired: Moment,
    armed: bool, ownerSets: nat, ownerSetAt: Moment, clock: nat)

  /** Whether the last attempt to hide the overlay, and to set its style, failed. */
  datatype Faults = Faults(hideFailed: bool, styleFailed: bool)

  /** What the call that makes the overlay visible returned. */
  datatype Verdict = Unasked | Failed | Worked

  /** The show or promote call that is under way. `missed` says that no frame was presented for it,
      `refused` that the system refused to hide or style the overlay for it. */
  datatype Call =
    | Idle
    | Preparing(
        hwnd: Hwnd, reset: bool, styled: bool, placed: bool, cleared: bool, presented: bool,
        rendered: bool, missed: bool, refused: bool, verdict: Verdict)
    | Promoting(hwnd: Hwnd, lost: bool)

  /** A show that has just begun. */
  function Begun(hwnd: Hwnd, reset: bool): Call {
    Preparing(hwnd, reset, false, false, false, false, false, false, false, Unasked)
  }

  /** What a pass knows of the taskbar: it has to be looked up, and then asked whether it is usable. */
  datatype Sight = Unsought | Sighted | Missing | Ready

  /** What a pass has seen and concluded. */
  datatype View = View(
    identityChanged: bool, identityPending: bool, taskbar: Sight, looked: bool, decided: bool, restored: bool)

  const UNSEEN := View(false, false, Unsought, false, false, false)

  /** How far the pass got in destroying an overlay. */
  datatype Teardown = Untried | Tried | Refused

  /** What became of the overlay window in the pass. */
  datatype Life = Life(
    teardown: Teardown, ensured: bool, created: bool, ownerSet: bool, overlayRefused: bool, styleRefused: bool)

  const UNTOUCHED := Life(Untried, false, false, false, false, false)

  /** How far the show of the pass got. */
  datatype ShowWork = NoShow | ShowPending | ShowEnded(shown: bool) | ShowConcluded(shown: bool)

  /** The steps a repair may take; `InSight` says that the overlay was visible when it began. */
  datatype Fix = InSight | FixLife | FixStyle | FixPlace | FixFrame | FixShow

  /** Upkeep of a visible overlay: it ends with an inspection, and `fixed` are the steps taken since. */
  datatype Upkeep = NoUpkeep | Keeping | Examined(found: RepairObservation, begun: bool, fixed: set<Fix>)

  /** What the pass under way has received, seen and done. */
  datatype Pass =
    | NoPass
    | Running(
        incoming: set<Flag>, todo: set<Flag>, done: set<Flag>, view: View, life: Life, show: ShowWork, upkeep: Upkeep)

  /** `owed` is the durable work that passes have received and not acted on. */
  datatype History = History(
    mail: Mail, owed: set<Flag>, world: World, mind: Mind, pace: Pace, faults: Faults, call: Call, pass: Pass)

  function Beginning(identity: TaskbarIdentity): History {
    History(
      Mail({}, {}, {}, 0), {},
      World({}, {}, {}, false, 0, 0, 0),
      Mind(TaskbarIdentityState(identity, identity, 0, false), Settled(None), 0, false, Never),
      Pace(false, Never, Never, Never, false, 0, Never, 0), Faults(false, false),
      Idle, NoPass)
  }

  function WatchMail(mail: Mail, e: Event): Mail {
    match e
    case Requested(flags) => mail.(requested := mail.requested + flags, outstanding := mail.outstanding + flags)
    case PassBegan(flags) =>
      mail.(handed := mail.handed + flags, outstanding := mail.outstanding - flags, passes := mail.passes + 1)
    case _ => mail
  }

  function WatchOwed(owed: set<Flag>, pass: Pass, e: Event): set<Flag> {
    match e
    case PassBegan(flags) => owed + flags * DURABLE
    case TornDown => owed + {RefreshTrayIcon}
    case TrayRefreshed => owed - {RefreshTrayIcon}
    case StyleTried(ok) =>
      // The style given to a new window before the pass has decided anything does not count.
      if ok && pass.Running? && pass.view.decided then owed - {ApplyStyle} else owed
    case PrepareBegan(_, reset) => if reset then owed - {ResetSurface} else owed
    case _ => owed
  }

  function SeeTaskbar(mind: Mind, e: Event): TaskbarIdentityResult
    requires e.TaskbarSeen?
  {
    ReduceTaskbarIdentity(mind.identity, e.identity, e.at, IDENTITY_SETTLE_MS)
  }

  function SeeSuppression(mind: Mind, e: Event): SuppressionPolicyResult
    requires e.SuppressionSeen?
  {
    ReduceSuppressionPolicy(mind.suppression, e.seen, e.at, SHIPPED_CONFIG)
  }

  function WatchWorld(world: World, mind: Mind, e: Event): World {
    match e
    case TaskbarSeen(_, _) => if SeeTaskbar(mind, e).committedChanged then world.(current := false) else world
    case Created(w, _) =>
      world.(alive := world.alive + {w}, visible := world.visible - {w}, presented := world.presented - {w},
             current := true, created := world.created + 1)
    case Destroyed(w) =>
      world.(alive := world.alive - {w}, visible := world.visible - {w}, presented := world.presented - {w},
             destroyed := world.destroyed + 1)
    case Vanished(w) => world.(visible := world.visible - {w})
    case Shown(w) => world.(visible := world.visible + {w})
    case Presented(w) => world.(presented := world.presented + {w}, presents := world.presents + 1)
    case _ => world
  }

  /** The end of the quiet time after a screenshot; a deadline that wraps to tick 0 reads as none. */
  function ResumeMoment(at: nat): Moment {
    if TickOf(at + RESUME_DELAY_MS) == 0 then Never else At(at + RESUME_DELAY_MS)
  }

  function WatchMind(mind: Mind, e: Event): Mind {
    match e
    case TaskbarSeen(_, _) => mind.(identity := SeeTaskbar(mind, e).state)
    case ForegroundSeen(screenshot, at) =>
      if screenshot == mind.frozen then mind
      else mind.(frozen := screenshot, resumeAt := if screenshot then Never else ResumeMoment(at))
    case SuppressionSeen(_, _) =>
      var step := SeeSuppression(mind, e);
      mind.(suppression := step.state, decisions := mind.decisions + if step.committedChanged then 1 else 0)
    case ResumeFinished(_) => mind.(resumeAt := Never)
    case _ => mind
  }

  function WatchPace(pace: Pace, mind: Mind, e: Event): Pace {
    match e
    case TaskbarSeen(_, at) =>
      if SeeTaskbar(mind, e).committedChanged
      then pace.(clock := at, recreate := true, teardownRefused := Never)
      else pace.(clock := at)
    case TeardownTried(at) => pace.(clock := at)
    case TeardownRefused(at) => pace.(clock := at, teardownRefused := At(at))
    case TornDown => pace.(recreate := false, teardownRefused := Never, showRefused := Never)
    case Armed => pace.(armed := true, ownerSets := 0, ownerSetAt := Never)
    case OwnerSet(at) => pace.(clock := at, ownerSets := pace.ownerSets + 1, ownerSetAt := At(at))
    case ForegroundSeen(_, at) => pace.(clock := at)
    case SuppressionSeen(_, at) => pace.(clock := at)
    case ResumeFinished(at) => pace.(clock := at)
    case ShowTried(at) => pace.(clock := at)
    case ShowRefused(at) => pace.(clock := at, showRefused := At(at))
    case ShowGranted => pace.(showRefused := Never)
    case RepairBegan(at, _) => pace.(clock := at, repaired := At(at))
    case _ => pace
  }

  function WatchFaults(faults: Faults, e: Event): Faults {
    match e
    case StyleTried(ok) => faults.(styleFailed := !ok)
    case HideTried(ok) => faults.(hideFailed := !ok)
    case _ => faults
  }

  function WatchCall(call: Call, e: Event): Call {
    match e
    case PrepareBegan(w, reset) => Begun(w, reset)
    case PrepareEnded(_) => Idle
    case PromoteBegan(w) => Promoting(w, false)
    case PromoteEnded => Idle
    case StyleTried(ok) => if call.Preparing? then call.(styled := ok, refused := call.refused || !ok) else call
    case HideTried(ok) => if call.Preparing? then call.(refused := call.refused || !ok) else call
    case RenderTried => if call.Preparing? then call.(rendered := true) else call
    case FrameMissed => if call.Preparing? then call.(missed := true) else call
    case ShowCalled(ok) => if call.Preparing? then call.(verdict := if ok then Worked else Failed) else call
    case Placed => if call.Preparing? then call.(placed := true) else call
    case SurfaceCleared => if call.Preparing? then call.(cleared := true) else call
    case Presented(w) => if call.Preparing? && call.hwnd == w then call.(presented := true) else call
    case Vanished(w) => if call.Promoting? && call.hwnd == w then call.(lost := true) else call
    case _ => call
  }

  function WatchTodo(todo: set<Flag>, e: Event): set<Flag> {
    match e
    case TornDown => todo + {RefreshTrayIcon}
    case OwnerBound => todo + {Reposition, Render}
    case ResumeFinished(_) => todo + {SampleMetrics, Reposition, Render}
    case _ => todo
  }

  function WatchDone(done: set<Flag>, decided: bool, e: Event): set<Flag> {
    match e
    case TrayRefreshed => done + {RefreshTrayIcon}
    case StyleTried(ok) => if ok && decided then done + {ApplyStyle} else done
    case PrepareBegan(_, reset) => if reset then done + {ResetSurface} else done
    case Placed => done + {Reposition}
    case RenderTried => done + {Render}
    case PromoteMoot => done + {PromoteForTaskView}
    case PromoteEnded => done + {PromoteForTaskView}
    case MetricsSampled => done + {SampleMetrics}
    case _ => done
  }

  function WatchView(view: View, mind: Mind, e: Event): View {
    match e
    case TaskbarSeen(_, _) =>
      var step := SeeTaskbar(mind, e);
      view.(identityChanged := step.committedChanged, identityPending := step.pending, taskbar := Sighted)
    case TaskbarProbed(ready) => view.(taskbar := if ready then Ready else Missing)
    case ForegroundSeen(_, _) => view.(looked := true)
    case SuppressionSeen(_, _) =>
      var step := SeeSuppression(mind, e);
      view.(decided := true, restored := step.committedChanged && step.state.committed.None?)
    case _ => view
  }

  function WatchLife(life: Life, e: Event): Life {
    match e
    case TeardownTried(_) => life.(teardown := Tried)
    case TeardownRefused(_) => life.(teardown := Refused)
    case OverlayFound(_) => life.(ensured := true)
    case Created(_, _) => life.(ensured := true, created := true)
    case OwnerSet(_) => life.(ownerSet := true)
    case OverlayRefused(_) => life.(overlayRefused := true)
    case StyleTried(ok) => life.(styleRefused := !ok)
    case _ => life
  }

  function WatchShow(show: ShowWork, e: Event): ShowWork {
    match e
    case ShowTried(_) => ShowPending
    case PrepareEnded(shown) => if show.ShowPending? then ShowEnded(shown) else show
    case ShowGranted => ShowConcluded(true)
    case ShowRefused(_) => ShowConcluded(false)
    case _ => show
  }

  /** The step of a repair that an event amounts to. */
  function FixOf(e: Event): set<Fix> {
    match e
    case Created(_, _) => {FixLife}
    case OverlayRefused(_) => {FixLife}
    case StyleTried(_) => {FixStyle}
    case Placed => {FixPlace}
    case RenderTried => {FixFrame}
    case PrepareBegan(_, _) => {FixShow}
    case _ => {}
  }

  function WatchUpkeep(upkeep: Upkeep, e: Event): Upkeep {
    if e.SawVisible? then Keeping
    else if e.Inspected? then Examined(e.found, false, {})
    else if !upkeep.Examined? then upkeep
    else if e.RepairBegan? then upkeep.(begun := true, fixed := if e.visible then {InSight} else {})
    else upkeep.(fixed := upkeep.fixed + FixOf(e))
  }

  function WatchPass(pass: Pass, owed: set<Flag>, mind: Mind, e: Event): Pass {
    if e.PassBegan? then Running(e.flags, e.flags + owed, {}, UNSEEN, UNTOUCHED, NoShow, NoUpkeep)
    else if e.PassEnded? || pass.NoPass? then NoPass
    else Running(
           pass.incoming, WatchTodo(pass.todo, e), WatchDone(pass.done, pass.view.decided, e),
           WatchView(pass.view, mind, e), WatchLife(pass.life, e), WatchShow(pass.show, e), WatchUpkeep(pass.upkeep, e))
  }

  function Watch(h: History, e: Event): History {
    History(
      WatchMail(h.mail, e),
      WatchOwed(h.owed, h.pass, e),
      WatchWorld(h.world, h.mind, e),
      WatchMind(h.mind, e),
      WatchPace(h.pace, h.mind, e),
      WatchFaults(h.faults, e),
      WatchCall(h.call, e),
      WatchPass(h.pass, h.owed, h.mind, e))
  }

  ghost function Recall(start: TaskbarIdentity, run: seq<Event>): History {
    if |run| == 0 then Beginning(start)
    else Watch(Recall(start, run[..|run| - 1]), run[|run| - 1])
  }

  // ---------------------------------------------------------------- what may happen next

  /** The wrapped clock reads the wait of `delay` after `since` as over: there is none, or its deadline falls
      on tick 0, or reads as passed. */
  predicate WaitOver(since: Moment, delay: nat, now: nat) {
    since.Never? || TickOf(since.ms + delay) == 0 || TickPassed(TickOf(now), TickOf(since.ms + delay))
  }

  /** A wait on the unwrapped clock. */
  predicate Waited(since: Moment, delay: nat, now: nat) {
    since.Never? || now >= since.ms + delay
  }

  /** The wrapped clock reads the wait after a repair at `since` as not over. */
  predicate RepairPends(since: nat, now: nat) {
    !TickPassed(TickOf(now), AddTicks(NonZeroTick(TickOf(since)), REPAIR_INTERVAL_MS))
  }

  predicate RepairMustWait(pace: Pace, now: nat) {
    pace.repaired.At? && RepairPends(pace.repaired.ms, now)
  }

  /** The pass has looked, and found nothing that forbids placing, filling or showing the overlay. */
  predicate Open(h: History) {
    && h.pass.Running? && h.pass.view.looked && h.pass.view.decided
    && !h.mind.frozen && h.mind.resumeAt.Never?
    && h.mind.suppression.committed.None?
  }

  /** A show that does not wait for an earlier failure. */
  predicate Forced(pass: Pass)
    requires pass.Running?
  {
    pass.life.created || pass.view.identityChanged || pass.view.restored || ResetSurface in pass.incoming
  }

  /** The overlay is hidden, or the last attempt to hide it failed. */
  predicate HiddenOrRefused(h: History) {
    h.world.visible == {} || h.faults.hideFailed
  }

  /** A suppressed overlay is hidden unless the last hide or style call failed. */
  predicate NotExposed(h: History) {
    h.mind.suppression.committed.None? || HiddenOrRefused(h) || h.faults.styleFailed
  }

  /** Something about the overlay that repair can act on. */
  predicate NeedsRepair(seen: RepairObservation) {
    !seen.valid || !seen.visible || !seen.topmost || !seen.layered || !seen.rectValid || seen.presentStale
  }

  /** The repair took the steps that its plan asks for: a window, if there was none; then a show, or, for
      an overlay that was visible when the repair began, style, placement and a frame. */
  predicate RepairFollowed(h: History, plan: RepairIntent, fixed: set<Fix>) {
    && (plan.ensureExists ==> FixLife in fixed)
    && (|| h.world.alive == {}
        || FixShow in fixed
        || (&& InSight in fixed
            && (plan.applyStyle ==> FixStyle in fixed)
            && (plan.reposition ==> FixPlace in fixed)
            && (plan.present ==> FixFrame in fixed || (plan.applyStyle && h.faults.styleFailed))))
  }

  /** The upkeep of the pass is complete: a repair that was begun followed its plan, and one that was needed
      and not begun must wait. */
  predicate UpkeepComplete(h: History, now: nat)
    requires h.pass.Running?
  {
    && h.pass.upkeep.Examined?
    && var found := h.pass.upkeep.found;
    NeedsRepair(found) ==>
      if h.pass.upkeep.begun then RepairFollowed(h, ComputeOverlayRepairIntent(found), h.pass.upkeep.fixed)
      else RepairMustWait(h.pace, now)
  }

  /** The pass has neither begun a show nor upkeep. */
  predicate Unstarted(pass: Pass)
    requires pass.Running?
  {
    pass.show.NoShow? && pass.upkeep.NoUpkeep?
  }

  /** No show of the pass lacks its conclusion. */
  predicate ShowSettled(pass: Pass)
    requires pass.Running?
  {
    pass.show.NoShow? || pass.show.ShowConcluded?
  }

  /** The taskbar has been looked up and asked. */
  predicate Surveyed(pass: Pass)
    requires pass.Running?
  {
    pass.view.taskbar.Missing? || pass.view.taskbar.Ready?
  }

  /** The pass knows its taskbar, has made sure of an overlay and has none to replace, and has decided. */
  predicate Equipped(h: History)
    requires h.pass.Running?
  {
    h.pass.view.taskbar.Ready? && h.pass.life.ensured && h.pass.view.decided && !h.pace.recreate
  }

  /** A pass has looked up the taskbar, and the reason it gives for stopping is true. */
  predicate MayEnd(h: History, outcome: Outcome)
    requires h.pass.Running?
  {
    Surveyed(h.pass) &&
    match outcome
    case AwaitingIdentity => h.pass.view.identityPending && (h.pass.view.taskbar.Ready? || HiddenOrRefused(h))
    case AwaitingTeardown(at) =>
      && h.pace.recreate && h.world.alive != {} && h.pace.clock <= at
      && !WaitOver(h.pace.teardownRefused, REPAIR_INTERVAL_MS, at)
    case TeardownFailed => h.pace.recreate && h.pass.life.teardown.Refused? && HiddenOrRefused(h)
    case NoTaskbar => h.pass.view.taskbar.Missing? && HiddenOrRefused(h)
    case NoOverlay => h.pass.life.overlayRefused
    case StyleRefused => Equipped(h) && h.pass.life.styleRefused
    case Suppressed => Equipped(h) && !h.mind.suppression.committed.None? && HiddenOrRefused(h)
    case Frozen => Equipped(h) && h.mind.frozen
    case Resuming(at) =>
      && Equipped(h) && !h.mind.frozen && h.pace.clock <= at
      && !WaitOver(h.mind.resumeAt, 0, at)
    case BackingOff(at) =>
      && Open(h) && Equipped(h) && !Forced(h.pass) && h.pace.clock <= at
      && !WaitOver(h.pace.showRefused, REPAIR_INTERVAL_MS, at)
    case ShowAttempted => Equipped(h) && h.pass.show.ShowConcluded?
    case Steady(at) =>
      && Open(h) && Equipped(h) && h.pace.clock <= at
      && h.pass.todo - {SampleKeys} <= h.pass.done && UpkeepComplete(h, at)
  }

  /** The steps of a show so far: style, placement, and a cleared surface where one was asked for. */
  predicate ReadyToPresent(call: Call)
    requires call.Preparing?
  {
    call.styled && call.placed && (call.reset ==> call.cleared)
  }

  /** A show that has come so far that the system may be asked to make the overlay visible. */
  predicate MayAsk(call: Call) {
    call.Preparing? && call.presented && ReadyToPresent(call) && call.verdict.Unasked?
  }

  /** The result of a show is what its calls amount to: it is shown if the call that shows it worked and it
      is visible now; else a call was refused, the frame was missed, or the overlay is out of sight. */
  predicate ShowMayEnd(h: History, shown: bool)
    requires h.call.Preparing?
  {
    if shown then h.call.verdict.Worked? && h.call.hwnd in h.world.visible
    else
      || h.call.refused || h.call.missed || h.call.verdict.Failed?
      || h.call.hwnd !in h.world.alive || (h.call.verdict.Worked? && h.call.hwnd !in h.world.visible)
  }

  predicate MayShow(h: History, w: Hwnd) {
    && Open(h) && w in h.world.alive && w in h.world.presented && w !in h.world.visible && h.world.current
    && match h.call
       case Preparing(hwnd, _, _, _, _, _, _, _, _, _) => hwnd == w && MayAsk(h.call)
       case Promoting(hwnd, lost) => hwnd == w && lost
       case Idle => false
  }

  predicate Allowed(h: History, e: Event) {
    match e
    case Requested(_) => true
    case PassBegan(flags) => h.pass.NoPass? && h.call.Idle? && flags <= h.mail.requested
    case PassEnded(outcome) =>
      h.pass.Running? && h.call.Idle? && ShowSettled(h.pass) && MayEnd(h, outcome) && NotExposed(h)
    case TaskbarSeen(_, at) =>
      h.pass.Running? && h.pace.clock <= at && h.call.Idle? && h.pass.view.taskbar.Unsought?
    case TaskbarProbed(_) => h.pass.Running? && h.pass.view.taskbar.Sighted?
    case TeardownTried(at) =>
      && h.pass.Running? && h.pace.clock <= at && h.pace.recreate && Surveyed(h.pass) && !h.pass.life.ensured
      && (h.world.alive != {} ==> WaitOver(h.pace.teardownRefused, REPAIR_INTERVAL_MS, at))
    case TeardownRefused(at) =>
      h.pass.Running? && h.pace.clock <= at && h.pace.recreate && h.pass.life.teardown.Tried? && h.world.alive != {}
    case TornDown =>
      && h.pass.Running? && h.pace.recreate && !h.pass.life.ensured && h.pass.life.teardown.Tried?
      && h.world.alive == {}
    case Created(w, owner) =>
      && h.pass.Running? && h.call.Idle? && h.pass.view.taskbar.Ready? && !h.pace.recreate && h.world.alive == {}
      && w != 0 && owner != 0 && owner == h.mind.identity.committed.hwnd
    case OverlayRefused(why) =>
      && h.pass.Running? && h.call.Idle? && h.pass.view.taskbar.Ready? && !h.pace.recreate
      && (why.CreationFailed? ==> h.world.alive == {})
    case OverlayFound(w) =>
      && h.pass.Running? && h.call.Idle? && h.pass.view.taskbar.Ready? && !h.pace.recreate
      && h.world.alive == {w}
    case Destroyed(w) => w in h.world.alive
    case TrayRefreshed => h.pass.Running?
    case Armed => true
    case OwnerSet(at) =>
      && h.pass.Running? && h.pace.clock <= at && h.pace.armed
      && h.pace.ownerSets < BINDING_MAX_ATTEMPTS && Waited(h.pace.ownerSetAt, BINDING_RETRY_MS, at)
    case OwnerBound => h.pass.Running? && h.pass.life.ownerSet
    case ForegroundSeen(_, at) =>
      && h.pass.Running? && h.pace.clock <= at && !h.pass.view.looked
      && h.pass.view.taskbar.Ready? && h.pass.life.ensured && !h.pace.recreate
    case SuppressionSeen(seen, at) =>
      && h.pass.Running? && h.pace.clock <= at && h.pass.view.looked && !h.pass.view.decided
      && (h.mind.frozen ==> !seen.known) && SlowToHide(seen)
    case ResumeFinished(at) =>
      && h.pass.Running? && h.pace.clock <= at && !h.mind.frozen && h.mind.suppression.committed.None?
      && h.mind.resumeAt.At? && WaitOver(h.mind.resumeAt, 0, at)
    case SawVisible =>
      && Open(h) && h.world.visible != {} && !Forced(h.pass) && h.pace.showRefused.Never? && h.owed == {}
      && Unstarted(h.pass)
    case StyleTried(_) => h.pass.Running?
    case HideTried(ok) => h.pass.Running? && (ok ==> h.world.visible == {})
    case Vanished(w) => w in h.world.visible
    case ShowTried(at) =>
      && Open(h) && h.pace.clock <= at && (Forced(h.pass) || WaitOver(h.pace.showRefused, REPAIR_INTERVAL_MS, at))
      && Unstarted(h.pass)
    case ShowRefused(at) => h.pass.Running? && h.pass.show == ShowEnded(false) && h.call.Idle? && h.pace.clock <= at
    case ShowGranted => h.pass.Running? && h.pass.show == ShowEnded(true) && h.call.Idle?
    case PrepareBegan(w, _) => Open(h) && h.call.Idle? && h.pass.life.ensured && h.world.alive <= {w}
    case Placed => Open(h) && !h.call.Promoting? && (h.call.Preparing? ==> h.call.styled)
    case SurfaceCleared => Open(h) && h.call.Preparing? && h.call.reset && h.call.placed && h.world.visible == {}
    case RenderTried => Open(h) && !h.call.Promoting? && (h.call.Preparing? ==> ReadyToPresent(h.call))
    case Presented(w) =>
      && Open(h) && w in h.world.alive && h.world.current
      && !h.call.Promoting? && (h.call.Preparing? ==> h.call.hwnd == w && ReadyToPresent(h.call))
    case FrameMissed =>
      Open(h) && !h.call.Promoting? && (h.call.Preparing? ==> h.call.rendered && !h.call.presented)
    case Shown(w) => MayShow(h, w)
    case ShowCalled(_) => Open(h) && MayAsk(h.call)
    case PrepareEnded(shown) => h.call.Preparing? && ShowMayEnd(h, shown)
    case PromoteBegan(w) =>
      Open(h) && h.call.Idle? && w in h.world.visible && h.pass.upkeep.Keeping? && PromoteForTaskView in h.pass.todo
    case PromoteMoot =>
      Open(h) && h.world.visible == {} && h.pass.upkeep.Keeping? && PromoteForTaskView in h.pass.todo
    case PromoteEnded => h.call.Promoting?
    case MetricsSampled => Open(h)
    case Raised(w) =>
      && h.pass.Running? && h.pass.view.decided && !h.mind.frozen && h.mind.suppression.committed.None?
      && h.call.Idle? && w in h.world.visible
    case Inspected(_) => Open(h) && h.call.Idle? && h.pass.upkeep.Keeping?
    case RepairBegan(at, visible) =>
      && Open(h) && h.pace.clock <= at && !RepairMustWait(h.pace, at)
      && (visible <==> h.world.visible != {})
      && h.pass.upkeep.Examined? && !h.pass.upkeep.begun && NeedsRepair(h.pass.upkeep.found)
  }

  /** Every event of the run was allowed when it happened. */
  ghost predicate Legal(start: TaskbarIdentity, run: seq<Event>) {
    |run| == 0 ||
    var n := |run| - 1;
    Legal(start, run[..n]) && Allowed(Recall(start, run[..n]), run[n])
  }

  lemma OneMore(start: TaskbarIdentity, run: seq<Event>, e: Event)
    ensures Recall(start, run + [e]) == Watch(Recall(start, run), e)
    ensures Legal(start, run + [e]) <==> Legal(start, run) && Allowed(Recall(start, run), e)
  {
    assert (run + [e])[..|run|] == run;
  }

  /** A run is legal exactly when each of its events was allowed by what came before. */
  lemma {:induction false} LegalAt(start: TaskbarIdentity, run: seq<Event>, i: nat)
    requires Legal(start, run) && i <= |run|
    ensures Legal(start, run[..i])
    ensures i < |run| ==> Allowed(Recall(start, run[..i]), run[i])
                          && Recall(start, run[..i + 1]) == Watch(Recall(start, run[..i]), run[i])
  {
    hide Watch, Allowed, Beginning;
    if i == |run| {
      assert run[..i] == run;
    } else {
      var n := |run| - 1;
      assert run[..n][..i] == run[..i];
      if i < n {
        LegalAt(start, run[..n], i);
        assert run[..n][..i + 1] == run[..i + 1];
      } else {
        assert run[..i + 1][..i] == run[..i];
        assert run[..i + 1] == run;
      }
    }
  }
}
