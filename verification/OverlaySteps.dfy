/** The steps of the overlay reconciler as relations between histories: what one event or one longer call
    leaves behind, whatever others do meanwhile. */
module OverlaySteps {
  import opened OverlayPolicy
  import opened Ticks
  import opened OverlayObservation
  import opened OverlayProtocol

  /** The waits and the clock stand; at most the owner binding has been armed afresh. */
  ghost predicate PaceKept(pace: Pace, pace': Pace) {
    pace' == pace.(armed := pace'.armed, ownerSets := pace'.ownerSets, ownerSetAt := pace'.ownerSetAt)
  }

  /** What other processes and re-entrant calls may change while one of our calls runs. */
  ghost predicate Disturbed(h: History, h': History) {
    && h'.mind == h.mind && PaceKept(h.pace, h'.pace) && h'.faults == h.faults && h'.pass == h.pass
    && h'.owed == h.owed && h'.mail.handed == h.mail.handed && h.mail.requested <= h'.mail.requested
    && h'.world.alive <= h.world.alive && h'.world.visible <= h.world.visible
    && h'.world.presented == h.world.presented - (h.world.alive - h'.world.alive)
    && h'.world.current == h.world.current
    && h'.world.created == h.world.created && h'.world.presents == h.world.presents
    && DisturbedCall(h, h')
  }

  /** A promotion learns of it when its window is hidden under it; other calls are not affected. */
  ghost predicate DisturbedCall(h: History, h': History) {
    if h.call.Promoting? then
      var w := h.call.hwnd;
      && h'.call.Promoting? && h'.call.hwnd == w && (h.call.lost ==> h'.call.lost)
      && (w in h.world.visible && w in h'.world.alive && w !in h'.world.visible ==> h'.call.lost)
    else h'.call == h.call
  }

  lemma DisturbedTwice(h: History, h1: History, h2: History)
    requires Disturbed(h, h1) && Disturbed(h1, h2)
    ensures Disturbed(h, h2)
  {
  }

  lemma DisturbedByArming(h: History, h': History)
    requires PaceKept(h.pace, h'.pace) && h' == h.(pace := h'.pace)
    ensures Disturbed(h, h')
  {
  }

  lemma DisturbedNot(h: History)
    ensures Disturbed(h, h)
  {
  }

  /** An event that is no step of a repair leaves upkeep alone. */
  lemma NoFix(upkeep: Upkeep, e: Event)
    requires FixOf(e) == {} && !e.SawVisible? && !e.Inspected? && !e.RepairBegan?
    ensures WatchUpkeep(upkeep, e) == upkeep
  {
  }

  lemma RequestEffect(h: History, flags: set<Flag>)
    ensures Allowed(h, Requested(flags))
    ensures Watch(h, Requested(flags))
            == h.(mail := h.mail.(requested := h.mail.requested + flags, outstanding := h.mail.outstanding + flags))
  {
    if h.pass.Running? {
      NoFix(h.pass.upkeep, Requested(flags));
    }
  }

  /** The overlay is hidden by somebody else. */
  lemma VanishDisturbs(h: History, hwnd: Hwnd)
    requires hwnd in h.world.visible
    ensures var h' := Watch(h, Vanished(hwnd));
            && Allowed(h, Vanished(hwnd)) && Disturbed(h, h')
            && h'.world == h.world.(visible := h.world.visible - {hwnd}) && h'.mail == h.mail && h'.pace == h.pace
  {
    if h.pass.Running? {
      NoFix(h.pass.upkeep, Vanished(hwnd));
    }
  }

  lemma DestroyDisturbs(h: History, hwnd: Hwnd)
    requires hwnd in h.world.alive
    ensures var h' := Watch(h, Destroyed(hwnd));
            && Allowed(h, Destroyed(hwnd)) && Disturbed(h, h') && h'.mail == h.mail && h'.pace == h.pace
            && h'.world == h.world.(
                 alive := h.world.alive - {hwnd}, visible := h.world.visible - {hwnd},
                 presented := h.world.presented - {hwnd}, destroyed := h.world.destroyed + 1)
  {
    if h.pass.Running? {
      NoFix(h.pass.upkeep, Destroyed(hwnd));
    }
  }

  // ---------------------------------------------------------------- getting on with a pass

  /** Upkeep of the same overlay with the same inspection, if any, and no fewer steps of repair. */
  ghost predicate UpkeepGoesOn(before: Upkeep, after: Upkeep) {
    if before.Examined?
    then after.Examined? && after == before.(fixed := after.fixed) && before.fixed <= after.fixed
    else after == before
  }

  /** The pass has done no less, and knows nothing new but whether the style could be set. */
  ghost predicate GotOn(before: Pass, after: Pass) {
    && before.Running? && after.Running?
    && after == before.(done := after.done, life := after.life, upkeep := after.upkeep)
    && before.done <= after.done
    && after.life == before.life.(styleRefused := after.life.styleRefused)
    && UpkeepGoesOn(before.upkeep, after.upkeep)
  }

  /** Nothing is known or paced differently, and windows have at most gone. */
  ghost predicate Quiet(before: History, after: History) {
    && after.mind == before.mind && PaceKept(before.pace, after.pace)
    && GotOn(before.pass, after.pass)
    && after.world.alive <= before.world.alive
    && after.world.current == before.world.current
    && after.world.created == before.world.created
  }

  /** Calls that work on the overlay and teach the pass nothing. */
  ghost predicate IsQuiet(e: Event) {
    || e.StyleTried? || e.Placed? || e.SurfaceCleared? || e.MetricsSampled? || e.TrayRefreshed? || e.PromoteMoot?
    || e.RenderTried? || e.Raised? || e.FrameMissed? || e.ShowCalled?
  }

  /** What a quiet event and the disturbance of its call change. */
  ghost predicate QuietStep(h: History, e: Event, h': History) {
    && Quiet(h, h') && h'.world.visible <= h.world.visible
    && h'.pass.done == WatchDone(h.pass.done, h.pass.view.decided, e)
    && h'.pass.life == WatchLife(h.pass.life, e)
    && h'.pass.upkeep == WatchUpkeep(h.pass.upkeep, e)
    && h'.owed == WatchOwed(h.owed, h.pass, e)
    && h'.faults == WatchFaults(h.faults, e)
    && (!h.call.Promoting? ==> h'.call == WatchCall(h.call, e))
    && h'.world.presented == h.world.presented - (h.world.alive - h'.world.alive)
  }

  lemma QuietPass(pass: Pass, owed: set<Flag>, mind: Mind, e: Event)
    requires pass.Running? && IsQuiet(e)
    ensures var after := WatchPass(pass, owed, mind, e);
            && GotOn(pass, after) && after.done == WatchDone(pass.done, pass.view.decided, e)
            && after.life == WatchLife(pass.life, e) && after.upkeep == WatchUpkeep(pass.upkeep, e)
  {
    QuietParts(pass, mind, e);
    QuietUpkeep(pass, e);
    hide WatchTodo, WatchView, WatchShow, WatchDone, WatchLife, WatchUpkeep, IsQuiet;
  }

  lemma QuietParts(pass: Pass, mind: Mind, e: Event)
    requires pass.Running? && IsQuiet(e)
    ensures !e.PassBegan? && !e.PassEnded?
    ensures WatchTodo(pass.todo, e) == pass.todo && WatchView(pass.view, mind, e) == pass.view
    ensures WatchShow(pass.show, e) == pass.show && pass.done <= WatchDone(pass.done, pass.view.decided, e)
  {
  }

  lemma QuietUpkeep(pass: Pass, e: Event)
    requires pass.Running? && IsQuiet(e)
    ensures WatchLife(pass.life, e) == pass.life.(styleRefused := WatchLife(pass.life, e).styleRefused)
    ensures UpkeepGoesOn(pass.upkeep, WatchUpkeep(pass.upkeep, e))
  {
  }

  lemma QuietWorld(h: History, e: Event)
    requires IsQuiet(e)
    ensures WatchWorld(h.world, h.mind, e) == h.world && WatchMind(h.mind, e) == h.mind
    ensures WatchPace(h.pace, h.mind, e) == h.pace && WatchMail(h.mail, e) == h.mail
  {
  }

  lemma QuietCall(call: Call, e: Event)
    requires IsQuiet(e)
    ensures call.Promoting? ==> WatchCall(call, e) == call
    ensures call.Idle? ==> WatchCall(call, e) == call
    ensures call.Preparing? ==> WatchCall(call, e).Preparing?
  {
  }

  lemma QuietlyDone(h: History, e: Event, h': History)
    requires h.pass.Running? && IsQuiet(e) && Disturbed(Watch(h, e), h')
    ensures QuietStep(h, e, h')
  {
    hide IsQuiet, WatchPass, WatchWorld, WatchMind, WatchPace, WatchMail, WatchDone, WatchLife, WatchUpkeep, WatchOwed,
         WatchFaults, WatchCall, GotOn;
    QuietPass(h.pass, h.owed, h.mind, e);
    QuietWorld(h, e);
    QuietCall(h.call, e);
  }

  lemma QuietTwice(h: History, h1: History, h2: History)
    requires Quiet(h, h1) && Quiet(h1, h2)
    ensures Quiet(h, h2)
  {
  }

  lemma QuietStaysOpen(h: History, h': History)
    requires Open(h) && Quiet(h, h')
    ensures Open(h')
  {
  }

  /** What may be done to the screen while nothing else is under way. */
  lemma OpenAllows(h: History)
    requires Open(h) && h.call.Idle?
    ensures Allowed(h, MetricsSampled) && Allowed(h, Placed) && Allowed(h, RenderTried)
  {
  }

  lemma RaiseAllowed(h: History, hwnd: Hwnd)
    requires h.pass.Running? && h.pass.view.decided && !h.mind.frozen && h.mind.suppression.committed.None?
    requires h.call.Idle? && hwnd in h.world.visible
    ensures Allowed(h, Raised(hwnd))
  {
  }

  lemma OpenAllowsPresent(h: History, hwnd: Hwnd)
    requires Open(h) && h.call.Idle? && hwnd in h.world.alive && h.world.current
    ensures Allowed(h, Presented(hwnd))
  {
  }

  lemma StyleAllowed(h: History, ok: bool)
    requires h.pass.Running?
    ensures Allowed(h, StyleTried(ok)) && Allowed(h, TrayRefreshed)
  {
  }

  // ---------------------------------------------------------------- frames

  /** A frame was rendered, and presented if `presented`. */
  ghost predicate Rendered(h: History, h': History, hwnd: Hwnd, presented: bool) {
    && Quiet(h, h') && h'.world.visible <= h.world.visible
    && h'.pass.done == h.pass.done + {Render}
    && (h.pass.upkeep.Examined? ==> FixFrame in h'.pass.upkeep.fixed)
    && h'.faults == h.faults && h'.owed == h.owed
    && h'.call == (if h.call.Preparing?
                   then h.call.(rendered := true, presented := h.call.presented || presented,
                                missed := h.call.missed || !presented)
                   else h.call)
    && (presented && hwnd in h'.world.alive ==> hwnd in h'.world.presented)
  }

  /** A window that may be presented still may after the disturbance of a call, if it is still there. */
  lemma PresentStaysAllowed(h: History, h': History, hwnd: Hwnd)
    requires h.pass.Running? && (hwnd in h.world.alive ==> Allowed(h, Presented(hwnd)))
    requires QuietStep(h, RenderTried, h')
    ensures hwnd in h'.world.alive ==> Allowed(h', Presented(hwnd))
  {
  }

  lemma PresentChangesLittle(h: History, hwnd: Hwnd)
    requires h.pass.Running?
    ensures var h' := Watch(h, Presented(hwnd));
            && h' == h.(world := h'.world, call := h'.call)
            && h'.world == h.world.(presented := h.world.presented + {hwnd}, presents := h.world.presents + 1)
            && h'.call == (if h.call.Preparing? && h.call.hwnd == hwnd then h.call.(presented := true) else h.call)
  {
  }

  /** A frame that has been tried leaves the show where it was, but for that. */
  lemma RenderIsOpen(h: History, h': History)
    requires Open(h) && !h.call.Promoting? && QuietStep(h, RenderTried, h')
    ensures Open(h') && h'.call == if h.call.Preparing? then h.call.(rendered := true) else h.call
  {
  }

  lemma MissedEffect(h: History)
    requires h.pass.Running?
    ensures Watch(h, FrameMissed) == h.(call := if h.call.Preparing? then h.call.(missed := true) else h.call)
  {
    NoFix(h.pass.upkeep, FrameMissed);
  }

  lemma MissedAllowed(h: History)
    requires Open(h) && !h.call.Promoting? && (h.call.Preparing? ==> h.call.rendered && !h.call.presented)
    ensures Allowed(h, FrameMissed)
  {
  }

  lemma RenderedInSteps(h: History, mid: History, h': History, hwnd: Hwnd, presented: bool)
    requires h.pass.Running? && !h.call.Promoting? && (h.call.Preparing? ==> h.call.hwnd == hwnd)
    requires QuietStep(h, RenderTried, mid)
    requires if presented then Disturbed(Watch(mid, Presented(hwnd)), h') && hwnd in mid.world.alive
             else h' == Watch(mid, FrameMissed)
    ensures Rendered(h, h', hwnd, presented)
  {
    hide Watch;
    PresentChangesLittle(mid, hwnd);
    MissedEffect(mid);
  }

  // ---------------------------------------------------------------- the life of the overlay

  /** An overlay has been looked for, and perhaps created, styled and armed. */
  ghost predicate Ensured(h: History, h': History) {
    && h'.mind == h.mind && h'.call == h.call
    && PaceKept(h.pace, h'.pace)
    && h.pass.Running? && h'.pass.Running?
    && h'.pass == h.pass.(done := h'.pass.done, life := h'.pass.life, upkeep := h'.pass.upkeep)
    && h.pass.done <= h'.pass.done && h'.pass.life.teardown == h.pass.life.teardown
    && h'.pass.life.ownerSet == h.pass.life.ownerSet && (h.pass.life.ensured ==> h'.pass.life.ensured)
    && UpkeepGoesOn(h.pass.upkeep, h'.pass.upkeep)
    && (h.pass.upkeep.Examined? && h.world.alive == {} ==> FixLife in h'.pass.upkeep.fixed)
    && (h'.owed == h.owed || (h.pass.view.decided && h'.owed == h.owed - {ApplyStyle}))
    && h'.faults.hideFailed == h.faults.hideFailed
    && h'.world.created >= h.world.created
    && if h'.world.created == h.world.created then
         && h'.world.alive <= h.world.alive && h'.world.visible <= h.world.visible
         && h'.pass.life.created == h.pass.life.created && h'.faults == h.faults && h'.world.current == h.world.current
       else
         h'.pass.life.created && h'.pass.life.ensured && h'.world.visible == {}
  }

  lemma RefusalAllowed(h: History, why: Refusal)
    requires h.pass.Running? && h.call.Idle? && h.pass.view.taskbar.Ready? && !h.pace.recreate
    requires why.CreationFailed? ==> h.world.alive == {}
    ensures Allowed(h, OverlayRefused(why))
  {
  }

  lemma CreationMayFail(h: History, h': History)
    requires h.pass.Running? && h.call.Idle? && h.pass.view.taskbar.Ready? && !h.pace.recreate && h.world.alive == {}
    requires Disturbed(h, h')
    ensures Allowed(h', OverlayRefused(CreationFailed))
  {
  }

  lemma RefusalEffect(h: History, why: Refusal)
    requires h.pass.Running?
    ensures var h' := Watch(h, OverlayRefused(why));
            && h' == h.(pass := h.pass.(life := h.pass.life.(overlayRefused := true), upkeep := h'.pass.upkeep))
            && UpkeepGoesOn(h.pass.upkeep, h'.pass.upkeep)
            && (h.pass.upkeep.Examined? ==> FixLife in h'.pass.upkeep.fixed)
  {
  }

  lemma FoundEffect(h: History, hwnd: Hwnd)
    requires h.pass.Running?
    ensures Watch(h, OverlayFound(hwnd)) == h.(pass := h.pass.(life := h.pass.life.(ensured := true)))
  {
    NoFix(h.pass.upkeep, OverlayFound(hwnd));
  }

  /** An overlay that exists already has been found. */
  lemma EnsuredByFinding(h: History, hwnd: Hwnd)
    requires h.pass.Running? && h.call.Idle? && h.pass.view.taskbar.Ready? && !h.pace.recreate
    requires h.world.alive == {hwnd}
    ensures Allowed(h, OverlayFound(hwnd))
    ensures var h' := Watch(h, OverlayFound(hwnd));
            Ensured(h, h') && h'.pass.life.ensured && h'.world == h.world
  {
    FoundEffect(h, hwnd);
    hide Watch;
  }

  lemma CreationEffect(h: History, hwnd: Hwnd, owner: Hwnd)
    requires h.pass.Running?
    ensures var h' := Watch(h, Created(hwnd, owner));
            && h' == h.(world := h'.world, pass := h.pass.(life := h.pass.life.(ensured := true, created := true),
                                                           upkeep := h'.pass.upkeep))
            && UpkeepGoesOn(h.pass.upkeep, h'.pass.upkeep)
            && (h.pass.upkeep.Examined? ==> FixLife in h'.pass.upkeep.fixed)
            && h'.world.created == h.world.created + 1 && h'.world.current
            && h'.world.visible == h.world.visible - {hwnd} && h'.world.alive == h.world.alive + {hwnd}
            && h'.world.presented == h.world.presented - {hwnd} && h'.world.presents == h.world.presents
  {
  }

  /** No overlay could be had, after at most one call into the system. */
  lemma EnsureRefused(h: History, h': History, h'': History, why: Refusal)
    requires h.pass.Running? && h.call.Idle? && (h' == h || Disturbed(h, h')) && h'' == Watch(h', OverlayRefused(why))
    ensures Ensured(h, h'') && h''.pass.life.overlayRefused && h''.world.created == h.world.created
  {
    hide Watch;
    RefusalEffect(h', why);
  }

  lemma CreationAllowed(h: History, h': History, hwnd: Hwnd, owner: Hwnd)
    requires h.pass.Running? && h.call.Idle? && h.pass.view.taskbar.Ready? && !h.pace.recreate && h.world.alive == {}
    requires Disturbed(h, h') && hwnd != 0 && owner != 0 && owner == h.mind.identity.committed.hwnd
    ensures Allowed(h', Created(hwnd, owner)) && h'.mind == h.mind
  {
  }

  /** A window was created and styled, and its owner may be due for verification. */
  lemma EnsureCreated(h: History, h1: History, h2: History, h3: History, h4: History, hwnd: Hwnd, owner: Hwnd, ok: bool)
    requires h.pass.Running? && h.call.Idle? && Disturbed(h, h1) && h1.world.alive == {} && h1.world.visible == {}
    requires h2 == Watch(h1, Created(hwnd, owner)) && QuietStep(h2, StyleTried(ok), h3)
    requires h4 == h3.(pace := h3.pace.(
                         armed := h4.pace.armed, ownerSets := h4.pace.ownerSets, ownerSetAt := h4.pace.ownerSetAt))
    ensures Ensured(h, h4) && h4.world.created == h.world.created + 1 && h4.pass.life.ensured
  {
    hide Watch;
    CreationEffect(h1, hwnd, owner);
  }

  /** The owner of the overlay has been checked, and set if that was due. */
  ghost predicate OwnerChecked(h: History, h': History, bound: bool) {
    && h'.mind == h.mind && h'.call == h.call && h'.owed == h.owed && h'.faults == h.faults
    && PaceKept(h.pace.(clock := h'.pace.clock), h'.pace)
    && h.pass.Running? && h'.pass.Running?
    && h'.pass.life == h.pass.life.(ownerSet := h'.pass.life.ownerSet)
    && h'.pass == h.pass.(todo := if bound then h.pass.todo + {Reposition, Render} else h.pass.todo,
                          life := h'.pass.life)
    && h'.world.alive <= h.world.alive && h'.world.visible <= h.world.visible
    && h'.world.created == h.world.created
  }

  lemma NothingChecked(h: History)
    requires h.pass.Running?
    ensures OwnerChecked(h, h, false)
  {
  }

  lemma OwnerSetEffect(h: History, at: nat)
    requires h.pass.Running?
    ensures var h' := Watch(h, OwnerSet(at));
            && h' == h.(pace := h.pace.(clock := at, ownerSets := h.pace.ownerSets + 1, ownerSetAt := At(at)),
                        pass := h.pass.(life := h.pass.life.(ownerSet := true)))
  {
    NoFix(h.pass.upkeep, OwnerSet(at));
  }

  lemma OwnerBoundEffect(h: History)
    requires h.pass.Running?
    ensures var h' := Watch(h, OwnerBound);
            h' == h.(pass := h.pass.(todo := h.pass.todo + {Reposition, Render}))
  {
    NoFix(h.pass.upkeep, OwnerBound);
  }

  /** The owner was set once, and a timer armed for the next attempt. */
  lemma OwnerCheckedInSteps(h: History, h1: History, h2: History, h': History, at: nat, bound: bool)
    requires h.pass.Running? && h.call.Idle? && h1 == Watch(h, OwnerSet(at)) && Disturbed(h1, h2)
    requires h' == if bound then Watch(h2, OwnerBound) else h2
    ensures OwnerChecked(h, h', bound)
  {
    hide Watch;
    OwnerSetEffect(h, at);
    OwnerBoundEffect(h2);
  }

  /** An overlay exists, as far as that could be helped, and nothing has been looked at yet. */
  ghost predicate LifetimeDone(h: History, h': History) {
    && h.pass.Running? && h'.pass.Running?
    && h'.pass.incoming == h.pass.incoming && h'.pass.view == h.pass.view && h'.pass.done >= h.pass.done
    && h'.call == h.call && h'.mind == h.mind && h'.pace.recreate == h.pace.recreate
  }

  lemma LifetimeInSteps(h: History, h1: History, h2: History, bound: bool)
    requires Ensured(h, h1) && OwnerChecked(h1, h2, bound) && !h.pass.view.decided
    ensures LifetimeDone(h, h2) && h2.owed == h.owed && (Unstarted(h.pass) ==> Unstarted(h2.pass))
    ensures NotExposed(h) ==> NotExposed(h2)
    ensures h2.pass.life.created == h1.pass.life.created && h2.pass.life.ensured == h1.pass.life.ensured
    ensures h2.pass.todo == if bound then h.pass.todo + {Reposition, Render} else h.pass.todo
  {
  }

  lemma EnsureRefusedInPass(h: History, h': History)
    requires Ensured(h, h') && !h.pass.view.decided && h'.world.created == h.world.created
    ensures h'.owed == h.owed && h'.call == h.call && (Unstarted(h.pass) ==> Unstarted(h'.pass))
    ensures NotExposed(h) ==> NotExposed(h')
  {
  }

  lemma EnsuredCreates(h: History, h': History)
    requires Ensured(h, h') && !h.pass.life.created
    ensures h'.pass.life.created <==> h'.world.created != h.world.created
    ensures h'.pass.view == h.pass.view && h'.pace.recreate == h.pace.recreate && h'.call == h.call
  {
  }

  // ---------------------------------------------------------------- taskbar generations

  /** The taskbar has been looked up. */
  ghost predicate GenerationSeen(h: History, h': History, result: TaskbarIdentityResult) {
    && h.pass.Running? && h'.pass.Running?
    && h' == h.(mind := h.mind.(identity := result.state), pass := h'.pass, pace := h'.pace, world := h'.world)
    && h'.pass == h.pass.(view := h.pass.view.(
                            identityChanged := result.committedChanged, identityPending := result.pending,
                            taskbar := Sighted))
    && (result.committedChanged ==> !result.pending)
    && h'.world == (if result.committedChanged then h.world.(current := false) else h.world)
    && h'.pace == (if result.committedChanged
                   then h.pace.(recreate := true, teardownRefused := Never, clock := h'.pace.clock)
                   else h.pace.(clock := h'.pace.clock))
  }

  ghost predicate GenerationObserved(h: History, h': History, ready: bool, result: TaskbarIdentityResult) {
    && h.pass.Running? && h'.pass.Running?
    && h'.pass == h.pass.(view := h.pass.view.(
                            identityChanged := result.committedChanged, identityPending := result.pending,
                            taskbar := if ready then Ready else Missing))
    && h'.faults == h.faults && h'.call == h.call && h'.owed == h.owed
    && h'.world == h.world.(current := h'.world.current)
    && h'.mind == h.mind.(identity := h'.mind.identity)
  }

  /** The overlay on record, if any, belongs to the committed taskbar, which is ready. */
  ghost predicate GenerationDone(h: History, h': History) {
    && h.pass.Running? && h'.pass.Running? && !h'.pace.recreate
    && h'.pass.incoming == h.pass.incoming && h'.pass.life == h.pass.life.(teardown := h'.pass.life.teardown)
    && h'.pass.view == h.pass.view.(
         taskbar := Ready, identityChanged := h'.pass.view.identityChanged,
         identityPending := h'.pass.view.identityPending)
    && h'.call == h.call
    && h'.mind == h.mind.(identity := h'.mind.identity)
  }

  /** The pass went on serving the taskbar: it has seen nothing new and created nothing. */
  ghost predicate Served(h: History, h': History) {
    && h.pass.Running? && h'.pass.Running?
    && h'.pass.incoming == h.pass.incoming && h'.pass.view == h.pass.view
    && h'.pass.life == h.pass.life.(teardown := h'.pass.life.teardown)
    && h'.call == h.call && h'.mind == h.mind && !h'.pace.recreate
  }

  /** The conclusion drawn from a look at the taskbar. */
  lemma TaskbarSeenEffect(h: History, seen: TaskbarIdentity, at: nat)
    requires h.pass.Running?
    ensures GenerationSeen(h, Watch(h, TaskbarSeen(seen, at)),
                           ReduceTaskbarIdentity(h.mind.identity, seen, at, IDENTITY_SETTLE_MS))
    ensures Watch(h, TaskbarSeen(seen, at)).pace.clock == at
  {
    ReductionCommitsOrWaits(h.mind.identity, seen, at);
    NoFix(h.pass.upkeep, TaskbarSeen(seen, at));
    hide ReduceTaskbarIdentity;
  }

  lemma ReductionCommitsOrWaits(state: TaskbarIdentityState, seen: TaskbarIdentity, at: nat)
    ensures var result := ReduceTaskbarIdentity(state, seen, at, IDENTITY_SETTLE_MS);
            && (result.committedChanged ==> !result.pending)
            && (!result.committedChanged ==> result.state.committed == state.committed)
  {
  }

  lemma ProbeEffect(h: History, ready: bool)
    requires h.pass.Running? && h.pass.view.taskbar.Sighted?
    ensures Allowed(h, TaskbarProbed(ready))
    ensures var h' := Watch(h, TaskbarProbed(ready));
            h' == h.(pass := h.pass.(view := h.pass.view.(taskbar := if ready then Ready else Missing)))
  {
    NoFix(h.pass.upkeep, TaskbarProbed(ready));
  }

  lemma ProbedAfterSeen(h: History, h1: History, result: TaskbarIdentityResult, ready: bool)
    requires GenerationSeen(h, h1, result)
    ensures Allowed(h1, TaskbarProbed(ready))
    ensures var h2 := Watch(h1, TaskbarProbed(ready));
            && GenerationObserved(h, h2, ready, result) && h2.pass.todo == h.pass.todo && h2.pass.done == h.pass.done
            && (NotExposed(h) ==> NotExposed(h2))
  {
    hide Watch, Allowed;
    ProbeEffect(h1, ready);
  }

  lemma HiddenStays(h: History, h': History)
    requires HiddenOrRefused(h) && Disturbed(h, h')
    ensures HiddenOrRefused(h') && NotExposed(h')
  {
  }

  lemma TrayWasRefreshed(h: History, h': History)
    requires h.call.Idle? && QuietStep(h, TrayRefreshed, h')
    ensures h'.owed == h.owed - {RefreshTrayIcon} && h'.call == h.call && h'.mind == h.mind && PaceKept(h.pace, h'.pace)
    ensures h'.pass.done == h.pass.done + {RefreshTrayIcon} && h'.pass.todo == h.pass.todo
    ensures h'.pass.incoming == h.pass.incoming && h'.pass.view == h.pass.view && h'.pass.life == h.pass.life
    ensures Unstarted(h.pass) ==> Unstarted(h'.pass)
    ensures NotExposed(h) ==> NotExposed(h')
  {
  }

  lemma TeardownTriedEffect(h: History, at: nat)
    requires h.pass.Running?
    ensures var h' := Watch(h, TeardownTried(at));
            && h' == h.(pace := h.pace.(clock := at),
                        pass := h.pass.(life := h.pass.life.(teardown := Tried)))
  {
    NoFix(h.pass.upkeep, TeardownTried(at));
  }

  lemma TeardownRefusedEffect(h: History, at: nat)
    requires h.pass.Running?
    ensures var h' := Watch(h, TeardownRefused(at));
            && h' == h.(pace := h.pace.(clock := at, teardownRefused := At(at)),
                        pass := h.pass.(life := h.pass.life.(teardown := Refused)))
  {
    NoFix(h.pass.upkeep, TeardownRefused(at));
  }

  lemma TornDownEffect(h: History)
    requires h.pass.Running?
    ensures var h' := Watch(h, TornDown);
            && h' == h.(pace := h.pace.(recreate := false, teardownRefused := Never, showRefused := Never),
                        owed := h.owed + {RefreshTrayIcon},
                        pass := h.pass.(todo := h.pass.todo + {RefreshTrayIcon}))
  {
    NoFix(h.pass.upkeep, TornDown);
  }

  lemma ExposureIsOfTheWorld(h: History, h': History)
    requires h'.mind == h.mind && h'.faults == h.faults && h'.world == h.world
    ensures NotExposed(h) <==> NotExposed(h')
    ensures HiddenOrRefused(h) <==> HiddenOrRefused(h')
  {
  }

  // ---------------------------------------------------------------- decisions

  /** Everything the pass goes by has been decided. */
  ghost predicate Decided(h: History, h': History, changed: bool) {
    && h.pass.Running? && h'.pass.Running?
    && h'.pass == h.pass.(view := h.pass.view.(
                            looked := true, decided := true,
                            restored := changed && h'.mind.suppression.committed.None?))
    && h'.call == h.call && h'.owed == h.owed && h'.world == h.world && h'.faults == h.faults
    && h'.pace == h.pace.(clock := h'.pace.clock)
    && h'.mind.identity == h.mind.identity
  }

  lemma ForegroundEffect(h: History, screenshot: bool, at: nat)
    requires h.pass.Running?
    ensures var h' := Watch(h, ForegroundSeen(screenshot, at));
            && h' == h.(mind := h.mind.(frozen := screenshot, resumeAt := h'.mind.resumeAt),
                        pace := h.pace.(clock := at),
                        pass := h.pass.(view := h.pass.view.(looked := true)))
            && h'.mind.resumeAt == if screenshot == h.mind.frozen then h.mind.resumeAt
                                   else if screenshot then Never else ResumeMoment(at)
  {
    NoFix(h.pass.upkeep, ForegroundSeen(screenshot, at));
  }

  lemma SuppressionEffect(h: History, seen: SuppressionObservation, at: nat)
    requires h.pass.Running?
    ensures var h' := Watch(h, SuppressionSeen(seen, at));
            var step := ReduceSuppressionPolicy(h.mind.suppression, seen, at, SHIPPED_CONFIG);
            && h' == h.(mind := h.mind.(
                          suppression := step.state,
                          decisions := h.mind.decisions + if step.committedChanged then 1 else 0),
                        pace := h.pace.(clock := at),
                        pass := h.pass.(view := h.pass.view.(
                                          decided := true,
                                          restored := step.committedChanged && step.state.committed.None?)))
  {
    NoFix(h.pass.upkeep, SuppressionSeen(seen, at));
    hide ReduceSuppressionPolicy;
  }

  lemma ReductionMoves(state: SuppressionPolicyState, seen: SuppressionObservation, now: nat)
    ensures var result := ReduceSuppressionPolicy(state, seen, now, SHIPPED_CONFIG);
            result.committedChanged <==> result.state.committed != state.committed
  {
  }

  lemma ResumeEffect(h: History, at: nat)
    requires h.pass.Running?
    ensures var h' := Watch(h, ResumeFinished(at));
            && h' == h.(mind := h.mind.(resumeAt := Never), pace := h.pace.(clock := at),
                        pass := h.pass.(todo := h.pass.todo + {SampleMetrics, Reposition, Render}))
  {
    NoFix(h.pass.upkeep, ResumeFinished(at));
  }

  lemma StyledInPass(h: History, h': History, ok: bool)
    requires h.call.Idle? && h.pass.Running? && h.pass.view.decided && QuietStep(h, StyleTried(ok), h')
    ensures h'.call.Idle? && h'.mind == h.mind && PaceKept(h.pace, h'.pace)
    ensures h'.pass.incoming == h.pass.incoming && h'.pass.todo == h.pass.todo && h'.pass.view == h.pass.view
    ensures h'.pass.life == h.pass.life.(styleRefused := !ok) && (Unstarted(h.pass) ==> Unstarted(h'.pass))
    ensures if ok then h'.owed == h.owed - {ApplyStyle} && h'.pass.done == h.pass.done + {ApplyStyle}
            else h'.owed == h.owed && h'.pass.done == h.pass.done && NotExposed(h')
  {
  }

  // ---------------------------------------------------------------- the steps of a show

  /** Where a show stands that began at `before`. */
  ghost predicate Showing(before: History, now: History, step: Call) {
    && step.Preparing? && now.call == step && Quiet(before, now) && Open(before)
    && now.owed == (if step.reset then before.owed - {ResetSurface} else before.owed)
    && (step.reset ==> ResetSurface in now.pass.done)
    && (before.pass.upkeep.Examined? ==> FixShow in now.pass.upkeep.fixed)
    && (step.presented && step.hwnd in now.world.alive ==> step.hwnd in now.world.presented)
  }

  lemma PrepareEffect(h: History, hwnd: Hwnd, reset: bool)
    requires h.pass.Running?
    ensures var h' := Watch(h, PrepareBegan(hwnd, reset));
            && h' == h.(call := Begun(hwnd, reset),
                        owed := if reset then h.owed - {ResetSurface} else h.owed,
                        pass := h.pass.(done := h'.pass.done, upkeep := h'.pass.upkeep))
            && h'.pass.done == (if reset then h.pass.done + {ResetSurface} else h.pass.done)
            && UpkeepGoesOn(h.pass.upkeep, h'.pass.upkeep)
            && (h.pass.upkeep.Examined? ==> FixShow in h'.pass.upkeep.fixed)
  {
  }

  lemma ShowBegins(h: History, hwnd: Hwnd, reset: bool)
    requires Open(h) && h.call.Idle? && h.pass.life.ensured && h.world.alive <= {hwnd}
    ensures Allowed(h, PrepareBegan(hwnd, reset))
    ensures Showing(h, Watch(h, PrepareBegan(hwnd, reset)), Begun(hwnd, reset))
  {
    PrepareEffect(h, hwnd, reset);
    hide Watch;
  }

  /** An attempt to hide the overlay, on behalf of the call under way. */
  ghost predicate HideAttempted(h: History, h': History, ok: bool) {
    && Disturbed(h.(faults := h'.faults, call := h'.call), h') && h'.faults.styleFailed == h.faults.styleFailed
    && (h'.call == h.call || (h.call.Preparing? && h'.call == h.call.(refused := true)))
    && (!ok && h.call.Preparing? ==> h'.call.Preparing? && h'.call.refused)
  }

  lemma HideEffect(h: History, ok: bool)
    requires h.pass.Running?
    ensures var h' := Watch(h, HideTried(ok));
            && h' == h.(faults := h.faults.(hideFailed := !ok), call := h'.call)
            && h'.call == if h.call.Preparing? then h.call.(refused := h.call.refused || !ok) else h.call
  {
    NoFix(h.pass.upkeep, HideTried(ok));
  }

  lemma HideInSteps(h: History, h1: History, h2: History, h3: History, hwnd: Hwnd, hidden: bool, ok: bool)
    requires !h.call.Promoting? && h.pass.Running? && Disturbed(h, h1)
    requires h2 == if hidden then h1.(world := h1.world.(visible := h1.world.visible - {hwnd})) else h1
    requires h3 == Watch(h2, HideTried(ok))
    ensures HideAttempted(h, h3, ok) && h3.world == h2.world
    ensures !ok ==> HiddenOrRefused(h3)
  {
    hide Watch;
    HideEffect(h2, ok);
  }

  lemma VanishEffect(h: History, hwnd: Hwnd)
    requires h.pass.Running? && !h.call.Promoting?
    ensures Watch(h, Vanished(hwnd)) == h.(world := h.world.(visible := h.world.visible - {hwnd}))
  {
    NoFix(h.pass.upkeep, Vanished(hwnd));
  }

  lemma HideNotNeeded(h: History)
    ensures HideAttempted(h, h, true)
  {
  }

  lemma ShowHides(before: History, h: History, h': History, step: Call, ok: bool)
    requires Showing(before, h, step) && HideAttempted(h, h', ok)
    ensures Showing(before, h', h'.call) && h'.call == step.(refused := h'.call.refused) && (!ok ==> h'.call.refused)
  {
  }

  /** Style, placement, and clearing the surface: the call remembers each. */
  lemma ShowGoesOn(before: History, h: History, e: Event, h': History, step: Call)
    requires Showing(before, h, step) && ApplyStyle !in before.owed && ApplyStyle !in h.owed
    requires (e.StyleTried? || e.Placed? || e.SurfaceCleared?) && QuietStep(h, e, h')
    ensures Showing(before, h', WatchCall(step, e))
    ensures h.world.visible == {} ==> h'.world.visible == {}
  {
    QuietTwice(before, h, h');
    StepRemembers(step, h.owed, h.pass, e);
    hide Quiet, Open, WatchCall, WatchOwed;
  }

  lemma StepRemembers(step: Call, owed: set<Flag>, pass: Pass, e: Event)
    requires step.Preparing? && (e.StyleTried? || e.Placed? || e.SurfaceCleared?)
    ensures var after := WatchCall(step, e);
            && after.Preparing? && after.hwnd == step.hwnd && after.reset == step.reset
            && after.presented == step.presented
    ensures ApplyStyle !in owed ==> WatchOwed(owed, pass, e) == owed
  {
  }

  lemma ShowMayPlace(before: History, h: History, step: Call)
    requires Showing(before, h, step) && step.styled
    ensures Allowed(h, Placed)
    ensures step.placed && step.reset && h.world.visible == {} ==> Allowed(h, SurfaceCleared)
  {
    QuietStaysOpen(before, h);
  }

  lemma ShowMayRender(before: History, h: History, step: Call)
    requires Showing(before, h, step) && ReadyToPresent(step) && (h.world.alive != {} ==> h.world.current)
    ensures Allowed(h, RenderTried)
    ensures step.hwnd in h.world.alive ==> Allowed(h, Presented(step.hwnd))
  {
    QuietStaysOpen(before, h);
  }

  lemma ShowRenders(before: History, h: History, h': History, step: Call, presented: bool)
    requires Showing(before, h, step) && !step.presented && Rendered(h, h', step.hwnd, presented)
    ensures Showing(before, h', step.(rendered := true, presented := presented, missed := step.missed || !presented))
  {
    QuietTwice(before, h, h');
    hide Quiet, Open;
  }

  lemma ShowWaits(before: History, h: History, h': History, step: Call)
    requires Showing(before, h, step) && Disturbed(h, h')
    ensures Showing(before, h', step)
    ensures var w := step.hwnd;
            (MayAsk(step) && w in h'.world.alive && h'.world.current && w !in h'.world.visible ==> MayShow(h', w))
  {
  }

  lemma ShownEffect(h: History, hwnd: Hwnd)
    requires h.pass.Running?
    ensures Watch(h, Shown(hwnd)) == h.(world := h.world.(visible := h.world.visible + {hwnd}))
  {
    NoFix(h.pass.upkeep, Shown(hwnd));
  }

  lemma ShowReveals(before: History, h: History, step: Call)
    requires Showing(before, h, step)
    ensures Showing(before, Watch(h, Shown(step.hwnd)), step)
  {
    ShownEffect(h, step.hwnd);
    hide Watch;
  }

  lemma AnswerEffect(h: History, ok: bool)
    requires h.pass.Running? && h.call.Preparing?
    ensures Watch(h, ShowCalled(ok)) == h.(call := h.call.(verdict := if ok then Worked else Failed))
  {
    NoFix(h.pass.upkeep, ShowCalled(ok));
  }

  /** The call that shows the overlay has returned. */
  lemma ShowAnswers(before: History, h: History, step: Call, ok: bool)
    requires Showing(before, h, step) && MayAsk(step)
    ensures Allowed(h, ShowCalled(ok))
    ensures Showing(before, Watch(h, ShowCalled(ok)), step.(verdict := if ok then Worked else Failed))
  {
    QuietStaysOpen(before, h);
    AnswerEffect(h, ok);
    hide Watch;
  }

  /** What a show leaves behind. */
  ghost predicate ShowDone(before: History, after: History, reset: bool, shown: bool) {
    && after.mind == before.mind && PaceKept(before.pace, after.pace) && after.call.Idle?
    && before.pass.Running? && after.pass.Running?
    && GotOn(before.pass, after.pass.(show := before.pass.show))
    && after.pass.show == (if before.pass.show.ShowPending? then ShowEnded(shown) else before.pass.show)
    && after.world.alive <= before.world.alive && after.world.current == before.world.current
    && after.world.created == before.world.created
    && after.owed == (if reset then before.owed - {ResetSurface} else before.owed)
    && (reset ==> ResetSurface in after.pass.done)
    && (before.pass.upkeep.Examined? ==> FixShow in after.pass.upkeep.fixed)
  }

  lemma PrepareEndedEffect(h: History, shown: bool)
    requires h.pass.Running?
    ensures Watch(h, PrepareEnded(shown))
            == h.(call := Idle, pass := h.pass.(show := if h.pass.show.ShowPending? then ShowEnded(shown)
                                                else h.pass.show))
  {
    NoFix(h.pass.upkeep, PrepareEnded(shown));
  }

  lemma ShowEnds(before: History, h: History, h': History, step: Call, shown: bool)
    requires Showing(before, h, step) && h' == Watch(h, PrepareEnded(shown))
    ensures ShowDone(before, h', step.reset, shown)
  {
    PrepareEndedEffect(h, shown);
    hide Watch;
  }

  // ---------------------------------------------------------------- the steps of upkeep

  /** Upkeep that began at `begin` has done what `done` says. */
  ghost predicate Upkept(begin: History, h: History, done: set<Flag>) {
    && h.mind == begin.mind && PaceKept(begin.pace, h.pace) && h.call.Idle? && h.owed == {} && begin.owed == {}
    && begin.pass.Running? && h.pass.Running?
    && h.pass == begin.pass.(done := h.pass.done, life := h.pass.life, upkeep := Keeping)
    && h.pass.life == begin.pass.life.(styleRefused := h.pass.life.styleRefused)
    && begin.pass.done + done <= h.pass.done
    && h.world.current == begin.world.current
  }

  lemma SawVisibleEffect(h: History)
    requires h.pass.Running?
    ensures Watch(h, SawVisible) == h.(pass := h.pass.(upkeep := Keeping))
  {
  }

  lemma UpkeepBegins(h: History)
    requires Open(h) && h.call.Idle? && h.owed == {} && h.world.visible != {} && !Forced(h.pass)
    requires h.pace.showRefused.Never? && Unstarted(h.pass)
    ensures Allowed(h, SawVisible) && Upkept(h, Watch(h, SawVisible), {})
  {
    SawVisibleEffect(h);
    hide Watch;
  }

  lemma UpkeptIsOpen(begin: History, h: History, done: set<Flag>)
    requires Open(begin) && Upkept(begin, h, done)
    ensures Open(h) && h.call.Idle? && h.pace.recreate == begin.pace.recreate && h.owed == {}
    ensures h.pass.view == begin.pass.view && h.pass.upkeep.Keeping? && h.pass.todo == begin.pass.todo
  {
  }

  lemma MootAllowed(h: History)
    requires Open(h) && h.call.Idle? && h.pass.upkeep.Keeping? && PromoteForTaskView in h.pass.todo
    ensures h.world.visible == {} ==> Allowed(h, PromoteMoot)
  {
  }

  /** Sampling, placement, and a promotion that has nothing to do. */
  lemma UpkeptStep(begin: History, h: History, e: Event, h': History, done: set<Flag>)
    requires Upkept(begin, h, done) && QuietStep(h, e, h') && (e.MetricsSampled? || e.Placed? || e.PromoteMoot?)
    ensures Upkept(begin, h', done + WatchDone({}, true, e))
  {
  }

  lemma UpkeptMoot(begin: History, h: History, done: set<Flag>)
    requires Upkept(begin, h, done)
    ensures Upkept(begin, Watch(h, PromoteMoot), done + {PromoteForTaskView})
  {
    MootEffect(h);
    hide Watch;
  }

  lemma MootEffect(h: History)
    requires h.pass.Running?
    ensures Watch(h, PromoteMoot) == h.(pass := h.pass.(done := h.pass.done + {PromoteForTaskView}))
  {
    NoFix(h.pass.upkeep, PromoteMoot);
  }

  lemma UpkeptPromotion(begin: History, h: History, h': History, done: set<Flag>)
    requires Upkept(begin, h, done) && Promoted(h, h')
    ensures Upkept(begin, h', done + {PromoteForTaskView})
  {
  }

  lemma UpkeptRender(begin: History, h: History, h': History, done: set<Flag>, hwnd: Hwnd, presented: bool)
    requires Upkept(begin, h, done) && Rendered(h, h', hwnd, presented)
    ensures Upkept(begin, h', done + {Render})
  {
  }

  lemma UpkeptLess(begin: History, h: History, done: set<Flag>, less: set<Flag>)
    requires Upkept(begin, h, done) && less <= done
    ensures Upkept(begin, h, less)
  {
  }

  // ---------------------------------------------------------------- the steps of a promotion

  ghost predicate Promoted(h: History, h': History) {
    && Quiet(h, h') && h'.call.Idle? && h'.owed == h.owed && h'.pass.upkeep == h.pass.upkeep
    && PromoteForTaskView in h'.pass.done
  }

  lemma PromoteEffect(h: History, hwnd: Hwnd)
    requires h.pass.Running?
    ensures Watch(h, PromoteBegan(hwnd)) == h.(call := Promoting(hwnd, false))
    ensures Watch(h, PromoteEnded) == h.(call := Idle, pass := h.pass.(done := h.pass.done + {PromoteForTaskView}))
  {
    NoFix(h.pass.upkeep, PromoteBegan(hwnd));
    NoFix(h.pass.upkeep, PromoteEnded);
  }

  lemma PromotionMayShow(h: History, h': History, hwnd: Hwnd)
    requires Open(h) && h.call.Idle? && hwnd in h.world.visible && h.world.visible <= h.world.presented
    requires Disturbed(Watch(h, PromoteBegan(hwnd)), h')
    ensures PaceKept(h.pace, h'.pace) && h'.call.Promoting?
    ensures hwnd in h'.world.alive && hwnd !in h'.world.visible && h'.world.current ==> MayShow(h', hwnd)
  {
    PromoteEffect(h, hwnd);
    hide Watch;
  }

  /** A promotion that began at `h` is under way. */
  ghost predicate PromotionStands(h: History, now: History) {
    && now.call.Promoting? && now.pass == h.pass && now.mind == h.mind && now.owed == h.owed
       && PaceKept(h.pace, now.pace)
    && now.world.alive <= h.world.alive && now.world.current == h.world.current
    && now.world.created == h.world.created
  }

  lemma PromotionBegins(h: History, h1: History, hwnd: Hwnd)
    requires h.pass.Running? && Disturbed(Watch(h, PromoteBegan(hwnd)), h1)
    ensures PromotionStands(h, h1)
  {
    PromoteEffect(h, hwnd);
    hide Watch;
  }

  /** The window has perhaps been shown again, and others have come in once more. */
  lemma PromotionGoesOn(h: History, h1: History, h2: History, h3: History, hwnd: Hwnd)
    requires h.pass.Running? && PromotionStands(h, h1)
    requires (h2 == h1 || h2 == Watch(h1, Shown(hwnd))) && Disturbed(h2, h3)
    ensures PromotionStands(h, h3)
  {
    ShownEffect(h1, hwnd);
    hide Watch;
  }

  lemma PromotionEnds(h: History, h3: History)
    requires h.pass.Running? && PromotionStands(h, h3)
    ensures Allowed(h3, PromoteEnded) && Promoted(h, Watch(h3, PromoteEnded))
  {
    PromoteEffect(h3, h3.call.hwnd);
    PromoteEndAllowed(h3);
    hide Watch, Allowed;
  }

  lemma PromoteEndAllowed(h: History)
    requires h.call.Promoting?
    ensures Allowed(h, PromoteEnded)
  {
  }

  // ---------------------------------------------------------------- the steps of a repair

  /** Repair work: nothing is concluded, and an inspection, if there was one, stands. */
  ghost predicate Carried(h: History, h': History) {
    && h'.mind == h.mind && h'.call.Idle? && h'.owed <= h.owed && h'.pace.recreate == h.pace.recreate
    && h.pass.Running? && h'.pass.Running?
    && h'.pass == h.pass.(done := h'.pass.done, life := h'.pass.life, show := h'.pass.show, upkeep := h'.pass.upkeep)
    && h.pass.done <= h'.pass.done && (h.pass.life.ensured ==> h'.pass.life.ensured)
    && (h.pass.show.NoShow? ==> h'.pass.show.NoShow?)
    && h.pass.upkeep.Examined? && h'.pass.upkeep.Examined? && h'.pass.upkeep.found == h.pass.upkeep.found
    && (h.pass.upkeep.begun ==> h'.pass.upkeep.begun && h.pass.upkeep.fixed <= h'.pass.upkeep.fixed)
  }

  lemma InspectEffect(h: History, found: RepairObservation)
    requires h.pass.Running?
    ensures Watch(h, Inspected(found)) == h.(pass := h.pass.(upkeep := Examined(found, false, {})))
  {
  }

  lemma Inspects(begin: History, h: History, done: set<Flag>, found: RepairObservation)
    requires Open(begin) && Upkept(begin, h, done)
    ensures Allowed(h, Inspected(found))
    ensures var h' := Watch(h, Inspected(found));
            && Open(h') && h'.call.Idle? && h'.owed == {} && PaceKept(h.pace, h'.pace)
               && h'.pass.view == begin.pass.view
            && h'.pass.upkeep == Examined(found, false, {}) && Carried(h', h')
            && h'.pass.life.ensured == begin.pass.life.ensured && h'.pass.show == begin.pass.show
            && h'.pass.todo == begin.pass.todo && begin.pass.done + done <= h'.pass.done
  {
    InspectEffect(h, found);
    hide Watch;
  }

  lemma RepairEffect(h: History, at: nat, visible: bool)
    requires h.pass.Running? && h.pass.upkeep.Examined?
    ensures Watch(h, RepairBegan(at, visible))
            == h.(pace := h.pace.(clock := at, repaired := At(at)),
                  pass := h.pass.(upkeep := Examined(h.pass.upkeep.found, true, if visible then {InSight} else {})))
  {
  }

  lemma RepairBegins(h: History, at: nat, visible: bool)
    requires Open(h) && h.call.Idle? && h.pass.upkeep.Examined? && !h.pass.upkeep.begun
    ensures var h' := Watch(h, RepairBegan(at, visible));
            && Carried(h, h') && Open(h') && h'.call.Idle? && h'.pass.Running? && h'.pass.upkeep.Examined?
            && h'.pass.upkeep.begun && h'.pass.view == h.pass.view && h'.pass.life == h.pass.life && h'.owed == h.owed
            && (visible ==> InSight in h'.pass.upkeep.fixed)
            && h'.world == h.world && h'.pace.recreate == h.pace.recreate && h'.pass.upkeep.found == h.pass.upkeep.found
  {
    RepairEffect(h, at, visible);
    hide Watch;
  }

  lemma CarriedOn(start: History, h: History, h': History)
    requires Carried(start, h) && Carried(h, h')
    ensures Carried(start, h')
  {
  }

  lemma CarriedByEnsure(h: History, h': History)
    requires Ensured(h, h') && h.pass.upkeep.Examined? && h.call.Idle?
    ensures Carried(h, h') && h'.pass.upkeep.Examined?
    ensures h.world.alive == {} ==> FixLife in h'.pass.upkeep.fixed
    ensures h'.world.created == h.world.created ==> h'.world.alive <= h.world.alive
    ensures h.pass.upkeep.fixed <= h'.pass.upkeep.fixed
  {
  }

  lemma CarriedByShow(h: History, h': History, shown: bool)
    requires ShowDone(h, h', false, shown) && h.pass.upkeep.Examined?
    ensures Carried(h, h') && h'.pass.upkeep.Examined? && FixShow in h'.pass.upkeep.fixed
            && h.pass.upkeep.fixed <= h'.pass.upkeep.fixed
  {
  }

  lemma CarriedByStep(h: History, e: Event, h': History)
    requires QuietStep(h, e, h') && (e.StyleTried? || e.Placed?) && h.pass.upkeep.Examined? && h.call.Idle?
    ensures Carried(h, h') && h.pass.upkeep.fixed + FixOf(e) <= h'.pass.upkeep.fixed
    ensures h'.faults == WatchFaults(h.faults, e)
  {
  }

  lemma CarriedByRender(h: History, h': History, hwnd: Hwnd, presented: bool)
    requires Rendered(h, h', hwnd, presented) && h.pass.upkeep.Examined? && h.call.Idle?
    ensures Carried(h, h') && FixFrame in h'.pass.upkeep.fixed && h.pass.upkeep.fixed <= h'.pass.upkeep.fixed
    ensures h'.faults == h.faults
  {
  }

  lemma CarriedIsOpen(h: History, h': History)
    requires Open(h) && Carried(h, h')
    ensures Open(h') && h'.call.Idle?
  {
  }

  /** Upkeep that has done what was asked and repaired what it found may end the pass. */
  lemma UpkeepEnds(begin: History, h: History, h': History, flags: set<Flag>, at: nat)
    requires Open(begin) && Open(h) && h.pass.todo == begin.pass.todo && h.owed == {}
    requires begin.pass.todo <= flags + begin.pass.done
    requires RefreshTrayIcon !in flags && ApplyStyle !in flags && ResetSurface !in flags
    requires begin.pass.done + flags * {SampleMetrics, PromoteForTaskView, Reposition, Render} <= h.pass.done
    requires Carried(h, h') && UpkeepComplete(h', at) && h'.pace.clock <= at && Equipped(h) && h.pass.show.NoShow?
    ensures h'.call.Idle? && h'.owed == {} && MayEnd(h', Steady(at)) && NotExposed(h') && ShowSettled(h'.pass)
  {
    CarriedIsOpen(h, h');
    hide UpkeepComplete;
    forall f | f in h'.pass.todo - {SampleKeys} ensures f in h'.pass.done {
      match f {
        case SampleMetrics =>
        case PromoteForTaskView =>
        case Reposition =>
        case Render =>
        case _ =>
      }
    }
  }

  // ---------------------------------------------------------------- what single events need and change

  lemma DisturbedCallStays(h: History, h': History)
    requires Disturbed(h, h')
    ensures !h.call.Promoting? ==> h'.call == h.call
    ensures h'.pass == h.pass && PaceKept(h.pace, h'.pace) && h'.mind == h.mind
  {
  }

  lemma DisturbedPaceStays(h: History, h': History)
    requires Disturbed(h, h')
    ensures PaceKept(h.pace, h'.pace)
  {
  }

  lemma ShowIsUnderWay(before: History, h: History, step: Call)
    requires Showing(before, h, step)
    ensures step.Preparing? && h.call == step && PaceKept(before.pace, h.pace) && h.mind == before.mind
            && h.pass.Running?
    ensures ApplyStyle !in before.owed ==> ApplyStyle !in h.owed
  {
  }

  lemma HideOutsideShow(h: History, h': History, ok: bool)
    requires HideAttempted(h, h', ok) && h.call.Idle?
    ensures h'.call == h.call && h'.pass == h.pass && PaceKept(h.pace, h'.pace) && h'.mind == h.mind
            && h'.owed == h.owed
  {
  }

  /** The overlay was hidden, and perhaps destroyed, as far as that could be done. */
  ghost predicate Removed(h: History, h': History) {
    && h'.call == h.call && h'.pass == h.pass && PaceKept(h.pace, h'.pace) && h'.mind == h.mind && h'.owed == h.owed
    && HiddenOrRefused(h') && NotExposed(h')
  }

  lemma RemovedInSteps(h: History, h1: History, h2: History)
    requires h1.call == h.call && h1.pass == h.pass && PaceKept(h.pace, h1.pace) && h1.mind == h.mind
             && h1.owed == h.owed
    requires h.call.Idle? && HiddenOrRefused(h1) && Disturbed(h1, h2)
    ensures Removed(h, h2)
  {
    HiddenStays(h1, h2);
  }

  lemma ArmEffect(h: History)
    ensures Allowed(h, Armed)
    ensures Watch(h, Armed) == h.(pace := h.pace.(armed := true, ownerSets := 0, ownerSetAt := Never))
  {
    if h.pass.Running? {
      NoFix(h.pass.upkeep, Armed);
    }
  }

  lemma OwnerSetAllowed(h: History, at: nat)
    requires h.pass.Running? && h.pace.clock <= at && h.pace.armed
    requires h.pace.ownerSets < BINDING_MAX_ATTEMPTS && Waited(h.pace.ownerSetAt, BINDING_RETRY_MS, at)
    ensures Allowed(h, OwnerSet(at))
  {
  }

  lemma OwnerBoundAllowed(h: History)
    requires h.pass.Running? && h.pass.life.ownerSet
    ensures Allowed(h, OwnerBound)
  {
  }

  lemma LookAllowed(h: History, seen: TaskbarIdentity, at: nat)
    requires h.pass.Running? && h.pace.clock <= at && h.call.Idle? && h.pass.view.taskbar.Unsought?
    ensures Allowed(h, TaskbarSeen(seen, at))
  {
  }

  lemma ForegroundAllowed(h: History, screenshot: bool, at: nat)
    requires h.pass.Running? && h.pace.clock <= at && !h.pass.view.looked
    requires h.pass.view.taskbar.Ready? && h.pass.life.ensured && !h.pace.recreate
    ensures Allowed(h, ForegroundSeen(screenshot, at))
  {
  }

  lemma SuppressionAllowed(h: History, seen: SuppressionObservation, at: nat)
    requires h.pass.Running? && h.pace.clock <= at && h.pass.view.looked && !h.pass.view.decided
    requires (h.mind.frozen ==> !seen.known) && SlowToHide(seen)
    ensures Allowed(h, SuppressionSeen(seen, at))
  {
  }

  /** A look at the foreground leaves the rest of the pass as it was. */
  lemma ForegroundShape(h: History, screenshot: bool)
    requires h.pass.Running?
    ensures forall at: nat {:trigger ForegroundSeen(screenshot, at)} ::
              Watch(h, ForegroundSeen(screenshot, at)).pass.Running?
              && Watch(h, ForegroundSeen(screenshot, at)).pass.view == h.pass.view.(looked := true)
  {
    forall at: nat ensures Watch(h, ForegroundSeen(screenshot, at)).pass.Running?
                           && Watch(h, ForegroundSeen(screenshot, at)).pass.view == h.pass.view.(looked := true) {
      ForegroundEffect(h, screenshot, at);
    }
  }

  lemma ShowMayBeTried(h: History, now: nat)
    requires Open(h) && h.pace.clock <= now && Unstarted(h.pass)
    requires Forced(h.pass) || WaitOver(h.pace.showRefused, REPAIR_INTERVAL_MS, now)
    ensures Allowed(h, ShowTried(now)) && h.pass.Running?
  {
  }

  lemma ShowTriedEffect(h: History, now: nat)
    requires h.pass.Running?
    ensures Watch(h, ShowTried(now)) == h.(pace := h.pace.(clock := now), pass := h.pass.(show := ShowPending))
  {
    NoFix(h.pass.upkeep, ShowTried(now));
  }

  lemma ShowConcludedEffect(h: History, now: nat)
    requires h.pass.Running?
    ensures Watch(h, ShowGranted)
            == h.(pace := h.pace.(showRefused := Never), pass := h.pass.(show := ShowConcluded(true)))
    ensures Watch(h, ShowRefused(now))
            == h.(pace := h.pace.(clock := now, showRefused := At(now)), pass := h.pass.(show := ShowConcluded(false)))
  {
    NoFix(h.pass.upkeep, ShowGranted);
    NoFix(h.pass.upkeep, ShowRefused(now));
  }

  lemma ConclusionAllowed(h: History, now: nat)
    requires h.pass.Running? && h.call.Idle? && h.pace.clock <= now
    ensures h.pass.show == ShowEnded(true) ==> Allowed(h, ShowGranted)
    ensures h.pass.show == ShowEnded(false) ==> Allowed(h, ShowRefused(now))
  {
  }

  lemma ShowAttemptEnds(h: History)
    requires h.pass.Running? && Equipped(h) && h.pass.show.ShowConcluded? && h.mind.suppression.committed.None?
    ensures MayEnd(h, ShowAttempted) && NotExposed(h)
  {
  }

  lemma PromotionAllowed(h: History, hwnd: Hwnd)
    requires Open(h) && h.call.Idle? && hwnd in h.world.visible
    requires h.pass.upkeep.Keeping? && PromoteForTaskView in h.pass.todo
    ensures Allowed(h, PromoteBegan(hwnd)) && h.pass.Running?
  {
  }

  lemma RepairAllowed(h: History, now: nat)
    requires Open(h) && h.pace.clock <= now && !RepairMustWait(h.pace, now)
    requires h.pass.upkeep.Examined? && !h.pass.upkeep.begun && NeedsRepair(h.pass.upkeep.found)
    ensures Allowed(h, RepairBegan(now, h.world.visible != {}))
  {
  }

  lemma TeardownAllowed(h: History, now: nat)
    requires h.pass.Running? && h.pace.clock <= now && h.pace.recreate && Surveyed(h.pass) && !h.pass.life.ensured
    requires h.world.alive == {} || WaitOver(h.pace.teardownRefused, REPAIR_INTERVAL_MS, now)
    ensures Allowed(h, TeardownTried(now))
  {
  }

  lemma BeginAllowed(h: History, flags: set<Flag>)
    requires h.pass.NoPass? && h.call.Idle? && flags <= h.mail.requested
    ensures Allowed(h, PassBegan(flags))
    ensures Watch(h, PassBegan(flags))
            == h.(mail := WatchMail(h.mail, PassBegan(flags)), owed := h.owed + flags * DURABLE,
                  pass := Running(flags, flags + h.owed, {}, UNSEEN, UNTOUCHED, NoShow, NoUpkeep))
  {
  }

  lemma EndEffect(h: History, outcome: Outcome)
    requires h.pass.Running? && h.call.Idle? && ShowSettled(h.pass) && MayEnd(h, outcome) && NotExposed(h)
    ensures Allowed(h, PassEnded(outcome)) && Watch(h, PassEnded(outcome)) == h.(pass := NoPass)
  {
  }

  lemma NothingCarried(h: History)
    requires h.pass.Running? && h.pass.upkeep.Examined? && h.call.Idle?
    ensures Carried(h, h)
  {
  }

  /** Repair work leaves the pass as open as it was. */
  lemma CarriedWell(h: History, h': History)
    requires Carried(h, h')
    ensures h'.call.Idle? && h'.owed <= h.owed && h'.pace.recreate == h.pace.recreate && h'.mind == h.mind
    ensures h'.pass.Running? && h'.pass.view == h.pass.view && h'.pass.todo == h.pass.todo
    ensures h'.pass.upkeep.Examined? && h'.pass.upkeep.found == h.pass.upkeep.found
    ensures h.pass.upkeep.begun ==> h'.pass.upkeep.begun && h.pass.upkeep.fixed <= h'.pass.upkeep.fixed
    ensures Open(h) ==> Open(h')
  {
  }

  lemma BegunStays(h: History, h': History)
    requires Carried(h, h') && h.pass.upkeep.begun
    ensures h'.pass.upkeep.begun
  {
  }

  lemma UpkeepIsComplete(h: History, now: nat)
    requires h.pass.Running? && h.pass.upkeep.Examined?
    requires NeedsRepair(h.pass.upkeep.found) ==>
               if h.pass.upkeep.begun
               then RepairFollowed(h, ComputeOverlayRepairIntent(h.pass.upkeep.found), h.pass.upkeep.fixed)
               else RepairMustWait(h.pace, now)
    ensures UpkeepComplete(h, now)
  {
  }

  lemma OpenMeansShown(h: History)
    requires Open(h)
    ensures h.mind.suppression.committed.None?
  {
  }

  /** A look at the foreground and a decision, taken together. */
  lemma DecidedInSteps(h: History, h1: History, h2: History, screenshot: bool)
    requires h.pass.Running? && exists at: nat :: h1 == Watch(h, ForegroundSeen(screenshot, at))
    requires exists seen, at: nat :: h2 == Watch(h1, SuppressionSeen(seen, at))
    ensures Decided(h, h2, h2.mind.suppression.committed != h1.mind.suppression.committed)
    ensures h1.mind.suppression == h.mind.suppression && h2.mind.frozen == screenshot
  {
    var at: nat :| h1 == Watch(h, ForegroundSeen(screenshot, at));
    ForegroundEffect(h, screenshot, at);
    var seen, later: nat :| h2 == Watch(h1, SuppressionSeen(seen, later));
    SuppressionEffect(h1, seen, later);
    ReductionMoves(h1.mind.suppression, seen, later);
    hide Watch, ReduceSuppressionPolicy;
  }
}
