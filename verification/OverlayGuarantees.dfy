/** What the fields of the reconciler and the desktop are worth whenever no pass is under way. */
module OverlayGuarantees {
  import opened OverlayPolicy
  import opened OverlayProtocol
  import opened OverlayRuns
  import opened WorkIsServed
  import opened OverlayDecisions
  import opened OverlayApp
  import S = SuppressionHistory
  import T = TaskbarHistory

  /** At most one overlay exists. One that is visible was presented in its own lifetime, and is not
      suppressed unless the last attempt to hide it or to style it failed. */
  lemma OverlayOnScreen(app: App, w: Hwnd)
    requires app.Valid() && w in app.desktop.visible
    ensures app.desktop.alive == {w} && app.overlay.hwnd == w
    ensures IsVisible(app.run, w) && IsPresented(app.run, w)
    ensures || app.suppression.policy.committed.None?
            || Holds(app.run, HideFails(), HideWorks()) || Holds(app.run, StyleFails(), StyleWorks())
  {
    hide Legal, Recall, Holds, MailBy, PacedBy, BoundBy;
    WorldIsWhatHappened(app.start, app.run, w);
    FaultsAreWhatHappened(app.start, app.run);
  }

  /** An overlay that is not waiting to be replaced was created for the committed taskbar. */
  lemma OverlayBelongs(app: App, w: Hwnd)
    requires app.Valid() && w in app.desktop.alive && !app.schedule.recreatePending
    ensures app.overlay.taskbarOwner == app.identity.committed.hwnd != 0
    ensures OfThisTaskbar(app.start, app.run, w)
  {
    hide Legal, Recall, MailBy, BoundBy, IsAlive, OfThisTaskbar, ReplacementPending;
    WorldIsWhatHappened(app.start, app.run, w);
    RecreateIsWhatHappened(app.start, app.run);
    OverlayIsOfThisTaskbar(app.start, app.run, w);
  }

  /** Every request has reached a pass or is still in the inbox; what is in the inbox has a wake-up
      message outstanding, unless the last one could not be posted, and there is never more than one. */
  lemma RequestsAreKept(app: App, i: nat, f: Flag)
    requires app.Valid() && i < |app.run| && app.run[i].Requested? && f in app.run[i].flags
    ensures || f in app.inbox.pendingFlags + app.inbox.queuedFlags
            || exists j :: i < j < |app.run| && app.run[j].PassBegan? && f in app.run[j].flags
    ensures app.desktop.posted <= 1
    ensures app.inbox.pendingFlags + app.inbox.queuedFlags != {} ==> app.desktop.posted == 1 || app.inbox.unheard
  {
    hide Legal, Recall, WorldBy, PacedBy, BoundBy, ConcludedBy, OwnedBy;
    RequestsAreDelivered(app.start, app.run, i, f);
  }

  lemma InboxIsRequested(app: App, f: Flag)
    requires app.Valid() && f in app.inbox.pendingFlags + app.inbox.queuedFlags
    ensures exists i :: 0 <= i < |app.run| && app.run[i].Requested? && f in app.run[i].flags
  {
    hide Legal, Recall, WorldBy, PacedBy, BoundBy, ConcludedBy, OwnedBy;
    MailIsWhatHappened(app.start, app.run, f);
    var i :| 0 <= i < |app.run| && Asks(f)(app.run[i]);
    assert app.run[i].Requested?;
  }

  /** What the next pass will find deferred is exactly the durable work that is still unserved. */
  lemma DeferredIsUnserved(app: App, f: Flag)
    requires app.Valid()
    ensures f in app.schedule.deferredFlags <==> exists i :: 0 <= i < |app.run| && Unserved(app.start, app.run, i, f)
  {
    hide Legal, Recall, WorldBy, MailBy, PacedBy, BoundBy, ConcludedBy, OwnedBy;
    OwedIsWhatIsUnserved(app.start, app.run, f);
  }

  /** The two policies hold what the history of observations calls for, and a suppression has a
      start time exactly while it lasts. */
  lemma PoliciesFollowHistory(app: App)
    requires app.Valid() && app.desktop.clock < UINT64_MODULUS
    ensures app.suppression.policy.committed == S.CommittedBy(SHIPPED_CONFIG, None, Glances(app.run))
    ensures app.identity.committed == T.CommittedBy(IDENTITY_SETTLE_MS, app.start, Sightings(app.run))
    ensures app.suppression.startedTick != 0 <==> !app.suppression.policy.committed.None?
  {
    hide Legal, Recall, WorldBy, MailBy, PacedBy, BoundBy, OwnedBy;
    RunSuppressesByHistory(app.start, app.run);
    RunFollowsTaskbarHistory(app.start, app.run);
  }
}
