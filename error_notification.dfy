/** The error toast of the photo editor (src/components/ErrorNotification.tsx):
    what it shows for the current error and whether it schedules its own
    dismissal. The timer itself is not modelled; `DismissTimer` says whether
    one is started and with which delay. */
module ErrorNotification {
  import opened Wrappers
  import opened Types

  const DefaultAutoHide := true
  const DefaultDuration := 5000

  /** The component's props; `None` stands for an omitted optional prop. */
  datatype Props = Props(
    error: Option<PhotoEditorError>,
    hasOnRetry: bool,
    autoHide: Option<bool>,
    duration: Option<int>)

  datatype View =
    | Hidden
    | Shown(message: string, details: Option<string>, retryButton: bool, dismissButton: bool)

  /** What is rendered: nothing without an error; otherwise the message, the
      details line when the details are a non-empty string, a Retry button
      for a recoverable error when a retry handler is given, and always a
      dismiss button. */
  function Render(p: Props): (v: View)
    ensures v.Hidden? <==> p.error.None?
    ensures v.Shown? ==> v.message == p.error.value.message && v.dismissButton
    ensures v.Shown? ==> (v.retryButton <==> p.error.value.recoverable && p.hasOnRetry)
    ensures v.Shown? ==> (v.details.Some? <==> p.error.value.details.Some? && p.error.value.details.value != "")
    ensures v.Shown? && v.details.Some? ==> v.details == p.error.value.details
  {
    match p.error
    case None => Hidden
    case Some(e) =>
      Shown(e.message,
            if e.details.Some? && e.details.value != "" then e.details else None,
            e.recoverable && p.hasOnRetry,
            true)
  }

  /** The delay of the auto-dismiss timer the effect starts, if any: one is
      started exactly when an error is present and auto-hide is on (the
      default), after `duration` (5000 ms by default). */
  function DismissTimer(p: Props): (t: Option<int>)
    ensures t.Some? <==> p.error.Some? && p.autoHide.GetOr(DefaultAutoHide)
    ensures t.Some? ==> t.value == p.duration.GetOr(DefaultDuration)
  {
    if p.error.Some? && p.autoHide.GetOr(DefaultAutoHide) then Some(p.duration.GetOr(DefaultDuration))
    else None
  }

  /** With every prop left at its default, an error is dismissed after
      5000 ms. */
  lemma DefaultsDismissAfterFiveSeconds(e: PhotoEditorError)
    ensures DismissTimer(Props(Some(e), false, None, None)) == Some(5000)
  {
  }
}
