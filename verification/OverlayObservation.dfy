/** How one look at the desktop becomes a suppression observation. */
module OverlayObservation {
  import opened OverlayPolicy

  datatype NotificationState =
    NotPresent | Busy | RunningD3DFullScreen | PresentationMode | AcceptsNotifications | QuietTime | OtherState

  /** Whether a foreground window covers its monitor, and whether that window is a slide show. */
  datatype Coverage = CoverageUnknown | CoverageClear | Covers(slideshow: bool)

  /** Everything the desktop is asked in one look. */
  datatype Scene = Scene(
    taskbar: TaskbarVisibility,
    screenshot: bool,
    notification: NotificationState,
    notificationKnown: bool,
    coverage: Coverage,
    powerPointForeground: bool,
    powerPointEditor: bool)

  datatype PresentationObservation = PresentationObservation(visibility: PresentationVisibility,
                                                             profile: TransitionProfile)

  const NO_PRESENTATION := PresentationObservation(PresentationUnknown, Default)

  function SlideshowProfile(coverage: Coverage): TransitionProfile {
    if coverage.Covers? && coverage.slideshow then Fast else Default
  }

  function ObservePresentation(scene: Scene, committed: SuppressionReason): PresentationObservation {
    if !scene.notificationKnown then NO_PRESENTATION
    else
      var maySuppress := scene.notification in {Busy, RunningD3DFullScreen, PresentationMode};
      if maySuppress then
        if scene.coverage.CoverageUnknown? then NO_PRESENTATION
        else PresentationObservation(if scene.coverage.Covers? then Fullscreen
                                     else Clear, SlideshowProfile(scene.coverage))
      else if !committed.FullscreenPresentation? || !scene.powerPointForeground then
        PresentationObservation(Clear, Default)
      else if scene.coverage.Covers? && scene.coverage.slideshow then PresentationObservation(Fullscreen, Fast)
      else if scene.coverage.CoverageUnknown? then NO_PRESENTATION
      else
        var backInEditor :=
          scene.notification.AcceptsNotifications? && scene.coverage.CoverageClear? && scene.powerPointEditor;
        PresentationObservation(Clear, if backInEditor then Fast else Default)
  }

  function ObserveSuppression(scene: Scene, committed: SuppressionReason): SuppressionObservation {
    var presentation := if scene.screenshot then PresentationObservation(Clear, Default)
      else ObservePresentation(scene, committed);
    var seen := ResolveSuppressionObservation(scene.taskbar, scene.screenshot, presentation.visibility);
    if seen.known && scene.taskbar.Visible? then seen.(profile := presentation.profile) else seen
  }

  /** A hidden taskbar never gets the fast transition. */
  predicate SlowToHide(seen: SuppressionObservation) {
    seen.known && seen.reason.TaskbarHidden? ==> seen.profile.Default?
  }

  /** What the pipeline promises the reducer: a screenshot tells nothing, a hidden taskbar outranks
      any presentation, and only a taskbar seen visible can carry the fast profile. */
  lemma PipelineShape(scene: Scene, committed: SuppressionReason)
    ensures var seen := ObserveSuppression(scene, committed);
            && (seen.known ==> !scene.screenshot && !scene.taskbar.TaskbarUnknown?)
            && (seen.known && seen.reason.TaskbarHidden? <==> !scene.screenshot && scene.taskbar.Hidden?)
            && (seen.profile.Fast? ==> seen.known && scene.taskbar.Visible?)
            && SlowToHide(seen)
  {
  }
}
