/** The photo-edit session of the editor modal
    (src/components/PhotoEditorModal.tsx) as a state machine on values.

    `State` holds the editor's slice of the application store (open flag,
    image, history, dirty flag, error, loading projection) together with the
    modal's own flags (active tab, the two confirmation dialogs). Every
    handler is a function from the state before to the state after; the
    class in module PhotoEditorModal runs the handlers step by step and is
    proved to agree with these functions.

    Calls into the store whose effect is not visible in this code
    (`savePhotoEdit`, `closePhotoEditor`, `clearPhotoEditHistory`), the
    `onSave` callback, page reloads and every loading projection emitted
    are appended to `trace`, in the order the handler makes them. */
module SessionSpec {
  import opened Wrappers
  import opened Types
  import U = PhotoEditorUtils
  import C = PhotoEditorControls
  import N = ErrorNotification

  // ---------------------------------------------------------------------
  // State

  datatype EditorConfig = EditorConfig(
    outputMime: Option<string>,
    quality: int,
    maxDimensions: Option<U.Dimensions>)

  /** The loading projection: flag, message and progress percentage. */
  datatype Loading = Loading(isLoading: bool, message: Option<string>, progress: Option<int>)

  /** `setPhotoEditorLoading(false)`. */
  const Idle := Loading(false, None, None)

  function Progress(message: string, percent: int): Loading {
    Loading(true, Some(message), Some(percent))
  }

  /** Calls the modal makes whose effect lies outside this model. */
  datatype Call =
    | ShowLoading(loading: Loading)
    | SavePhotoEdit(asset: PhotoEditAsset, session: PhotoEditSession)
    | OnSave(url: string, metadata: PhotoEditSession)
    | ClosePhotoEditor
    | ClearPhotoEditHistory
    | PageReload

  datatype State = State(
    isOpen: bool,
    imageUrl: Option<string>,
    assetId: Option<string>,
    hasUnsavedChanges: bool,
    history: seq<EditOperation>,
    config: EditorConfig,
    currentError: Option<PhotoEditorError>,
    loading: Loading,
    pendingLoadingClear: bool,
    activeTab: PhotoEditorTab,
    showCloseConfirmation: bool,
    showResetConfirmation: bool,
    hasOnSave: bool,
    trace: seq<Call>)

  /** A value thrown inside a handler: an `Error` with its message, or
      anything else. */
  datatype Thrown = ErrorValue(message: string) | OtherValue

  /** The `details` recorded for a thrown value. */
  function Details(t: Thrown): string {
    if t.ErrorValue? then t.message else UnknownErrorDetails
  }

  /** Which foreign call inside a save throws, if any. */
  datatype Fault = NoFault | SaveStoreFault(thrown: Thrown) | OnSaveFault(thrown: Thrown)

  /** What a save attempt gets from outside: what the browser does with the
      capture, the clock reading `createPhotoEditAsset` takes for the asset
      id, the object URL made for the blob, the creation timestamp text, the
      later clock reading the session's duration is taken from, and which
      callback throws. */
  datatype SaveEnv = SaveEnv(browser: U.Browser, assetNow: nat, objectUrl: string,
                             createdAt: string, sessionNow: nat, fault: Fault)

  // ---------------------------------------------------------------------
  // Errors the modal builds

  const UnknownErrorDetails := "Unknown error occurred"
  const NotReadyMessage := "Photo editor is not ready for saving"
  const MissingUrlDetails := "Missing image URL"
  const MissingElementDetails := "Missing parent element reference"
  const SaveRetryMessage := "Failed to save the edited image. Please try again."
  const ResetRetryMessage := "Failed to reset the editor. Please try again."
  const SdkLoadMessage :=
    "Failed to load the photo editor. This could be due to a missing reference or SDK initialization issue."
  const ImageLoadMessage :=
    "Failed to load the image in the editor. The image may be corrupted or in an unsupported format."
  const ImageUrlLabel := "Image URL: "

  function SaveGuardError(missingUrl: bool): PhotoEditorError {
    PhotoEditorError(SaveFailure, NotReadyMessage, true, Some(RetrySave),
                     Some(if missingUrl then MissingUrlDetails else MissingElementDetails))
  }

  function SaveFailureError(details: string): PhotoEditorError {
    PhotoEditorError(SaveFailure, SaveRetryMessage, true, Some(RetrySave), Some(details))
  }

  function ResetFailureError(details: string): PhotoEditorError {
    PhotoEditorError(Unknown, ResetRetryMessage, true,
                     Some(RetryConfirmReset), Some(details))
  }

  function SdkLoadError(details: string): PhotoEditorError {
    PhotoEditorError(SdkLoad,
                     SdkLoadMessage,
                     true, Some(ReloadPage), Some(details))
  }

  /** `${currentEditingImageUrl}` renders a missing URL as "null". */
  function ImageLoadError(imageUrl: Option<string>): PhotoEditorError {
    PhotoEditorError(ImageLoad,
                     ImageLoadMessage,
                     true, Some(DismissAndClose), Some(ImageUrlLabel + imageUrl.GetOr("null")))
  }

  /** The retry each error kind carries. */
  function RetryFor(kind: ErrorKind): RetryAction {
    match kind
    case SaveFailure => RetrySave
    case Unknown => RetryConfirmReset
    case SdkLoad => ReloadPage
    case ImageLoad => DismissAndClose
  }

  /** The shape of every error this modal builds: recoverable, with the
      retry of its kind. */
  predicate ModalError(e: PhotoEditorError) {
    e.recoverable && e.retryAction == Some(RetryFor(e.kind))
  }

  /** All five error builders give modal errors. */
  lemma BuiltErrorsAreModal(missingUrl: bool, details: string, imageUrl: Option<string>)
    ensures ModalError(SaveGuardError(missingUrl))
    ensures ModalError(SaveFailureError(details))
    ensures ModalError(ResetFailureError(details))
    ensures ModalError(SdkLoadError(details))
    ensures ModalError(ImageLoadError(imageUrl))
  {
  }

  predicate ValidConfig(c: EditorConfig) {
    c.maxDimensions.Some? ==> U.PositiveBox(c.maxDimensions.value)
  }

  /** What every reachable state satisfies: the configuration is usable,
      and the current error (if any) was built by the modal. */
  predicate Valid(s: State) {
    ValidConfig(s.config)
    && (s.currentError.Some? ==> ModalError(s.currentError.value))
  }

  // ---------------------------------------------------------------------
  // Store setters and abstract store actions

  /** `setPhotoEditorLoading(...)`: replaces the projection and emits it. */
  function Emit(s: State, l: Loading): State {
    s.(loading := l, trace := s.trace + [ShowLoading(l)])
  }

  /** `closePhotoEditor()`. */
  function Close(s: State): State {
    s.(isOpen := false, trace := s.trace + [ClosePhotoEditor])
  }

  // ---------------------------------------------------------------------
  // Handlers

  /** `!currentEditingImageUrl`. */
  predicate MissingUrl(imageUrl: Option<string>) {
    imageUrl.None? || imageUrl.value == ""
  }

  const UnknownAssetId := "unknown"

  /** `currentEditingAssetId || 'unknown'`. */
  function OriginalAssetId(assetId: Option<string>): string {
    if assetId.None? || assetId.value == "" then UnknownAssetId else assetId.value
  }

  /** `Date.now() - (editingHistory[0]?.timestamp || Date.now())`: zero when
      the history is empty or its first timestamp is 0. */
  function Duration(history: seq<EditOperation>, now: nat): int {
    if |history| == 0 || history[0].timestamp == 0 then 0 else now - history[0].timestamp
  }

  predicate SaveGuardFails(s: State, surface: Option<U.Dimensions>) {
    MissingUrl(s.imageUrl) || surface.None?
  }

  /** The catch block of `handleSave`, reached after `calls` were made:
      the error is set and loading turned off. */
  function SaveFailed(s: State, calls: seq<Call>, t: Thrown): State {
    s.(currentError := Some(SaveFailureError(Details(t))), loading := Idle,
       trace := s.trace + calls + [ShowLoading(Idle)])
  }

  /** The three projections emitted before the capture. */
  const SaveStartCalls: seq<Call> := [ShowLoading(SavingImage), ShowLoading(ProcessingFormat),
                                      ShowLoading(CapturingImage)]

  const SavingImage := Progress("Saving edited image...", 0)
  const ProcessingFormat := Progress("Processing image format...", 20)
  const CapturingImage := Progress("Capturing edited image...", 40)
  const CreatingAsset := Progress("Creating asset...", 70)
  const FinalizingSave := Progress("Finalizing save...", 90)
  const SaveComplete := Progress("Save complete!", 100)
  const ResettingChanges := Progress("Resetting changes...", 0)
  const ResetComplete := Progress("Reset complete!", 100)

  /** The asset a save builds from the captured blob. */
  function SavedAsset(s: State, env: SaveEnv): PhotoEditAsset
    requires !MissingUrl(s.imageUrl)
  {
    U.CreatePhotoEditAsset(OriginalAssetId(s.assetId), env.objectUrl, s.history,
                           U.GetOutputMimeType(s.imageUrl.value, s.config.outputMime),
                           env.assetNow, env.createdAt)
  }

  /** The session record handed to the store with it. */
  function SavedSession(s: State, env: SaveEnv): PhotoEditSession
    requires !MissingUrl(s.imageUrl)
  {
    PhotoEditSession(s.imageUrl.value, SavedAsset(s, env).url, s.history, Duration(s.history, env.sessionNow))
  }

  /** The calls of a save up to `savePhotoEdit`. */
  function StoreCalls(s: State, env: SaveEnv): seq<Call>
    requires !MissingUrl(s.imageUrl)
  {
    SaveStartCalls + [ShowLoading(CreatingAsset), ShowLoading(FinalizingSave),
                      SavePhotoEdit(SavedAsset(s, env), SavedSession(s, env))]
  }

  /** ... followed by `onSave` when one is given. */
  function StoreAndNotifyCalls(s: State, env: SaveEnv): seq<Call>
    requires !MissingUrl(s.imageUrl)
  {
    StoreCalls(s, env) + NotifyCalls(s.hasOnSave, SavedAsset(s, env))
  }

  /** The `onSave` call, present only when a callback is given. */
  function NotifyCalls(hasOnSave: bool, asset: PhotoEditAsset): seq<Call> {
    if hasOnSave then [OnSave(asset.url, asset.photoEditMetadata)] else []
  }

  /** The capture a save makes once past its guard, on the surface found
      in the container, in the chosen format, at the configured quality and
      within the configured box. */
  function Capture(s: State, surface: Option<U.Dimensions>, env: SaveEnv): Result<U.CaptureOutput>
    requires ValidConfig(s.config) && !SaveGuardFails(s, surface)
  {
    U.CaptureSpec(surface.value, U.GetOutputMimeType(s.imageUrl.value, s.config.outputMime),
                  s.config.quality, s.config.maxDimensions, env.browser)
  }

  predicate CaptureFails(s: State, surface: Option<U.Dimensions>, env: SaveEnv)
    requires ValidConfig(s.config) && !SaveGuardFails(s, surface)
  {
    Capture(s, surface, env).Err?
  }

  /** `handleSave`. `surface` is the size of the surface found in the
      container, `None` when the container reference is missing. Whatever
      the capture throws or rejects with is an `Error` (a DOMException is
      one) and reaches the catch block; a successful capture only feeds the
      asset through the blob's object URL. */
  function HandleSave(s: State, surface: Option<U.Dimensions>, env: SaveEnv): State
    requires ValidConfig(s.config)
  {
    if SaveGuardFails(s, surface) then
      s.(currentError := Some(SaveGuardError(MissingUrl(s.imageUrl))))
    else if Capture(s, surface, env).Err? then
      SaveFailed(s, SaveStartCalls, ErrorValue(Capture(s, surface, env).message))
    else
      SaveCaptured(s, env)
  }

  /** Past the guard, a save reaches the catch block with the capture's
      message when the capture fails, and goes on to the store otherwise. */
  lemma SavePastGuard(s: State, surface: Option<U.Dimensions>, env: SaveEnv)
    requires ValidConfig(s.config) && !SaveGuardFails(s, surface)
    ensures CaptureFails(s, surface, env) ==>
              HandleSave(s, surface, env) == SaveFailed(s, SaveStartCalls, ErrorValue(Capture(s, surface, env).message))
    ensures !CaptureFails(s, surface, env) ==> HandleSave(s, surface, env) == SaveCaptured(s, env)
  {
  }

  /** The rest of the `try` block once the capture has produced a blob. */
  function SaveCaptured(s: State, env: SaveEnv): State
    requires !MissingUrl(s.imageUrl)
  {
    if env.fault.SaveStoreFault? then
      SaveFailed(s, StoreCalls(s, env), env.fault.thrown)
    else if s.hasOnSave && env.fault.OnSaveFault? then
      SaveFailed(s, StoreAndNotifyCalls(s, env), env.fault.thrown)
    else
      s.(loading := SaveComplete, pendingLoadingClear := true,
         trace := s.trace + StoreAndNotifyCalls(s, env) + [ShowLoading(SaveComplete)])
  }

  /** The same steps after the store call, from the state they start in:
      `onSave` if given, then the final projection, or the catch block when
      `onSave` throws. */
  function Notified(s: State, fault: Fault, asset: PhotoEditAsset): State {
    var s1 := s.(trace := s.trace + NotifyCalls(s.hasOnSave, asset));
    if s.hasOnSave && fault.OnSaveFault? then
      Emit(s1.(currentError := Some(SaveFailureError(Details(fault.thrown)))), Idle)
    else
      Emit(s1, SaveComplete).(pendingLoadingClear := true)
  }

  /** Once the store has the edit, the save goes on as `Notified`. */
  lemma AfterStoreStage(s: State, env: SaveEnv)
    requires !MissingUrl(s.imageUrl) && !env.fault.SaveStoreFault?
    ensures SaveCaptured(s, env)
            == Notified(s.(trace := s.trace + StoreCalls(s, env), loading := FinalizingSave),
                        env.fault, SavedAsset(s, env))
  {
    var calls := StoreCalls(s, env);
    var notify := NotifyCalls(s.hasOnSave, SavedAsset(s, env));
    var stored := s.(trace := s.trace + calls, loading := FinalizingSave);
    assert StoreAndNotifyCalls(s, env) == calls + notify;
    assert s.trace + calls + notify == s.trace + (calls + notify);
    assert stored.(trace := stored.trace + notify).trace == s.trace + StoreAndNotifyCalls(s, env);
    if s.hasOnSave && env.fault.OnSaveFault? {
      assert SaveCaptured(s, env) == SaveFailed(s, StoreAndNotifyCalls(s, env), env.fault.thrown);
    }
  }

  /** `handleClose`: with unsaved changes and nothing loading it only asks
      for confirmation; otherwise it closes. */
  function HandleClose(s: State): State {
    if s.hasUnsavedChanges && !s.loading.isLoading then s.(showCloseConfirmation := true)
    else Close(s)
  }

  /** `confirmClose`. */
  function ConfirmClose(s: State): State {
    Close(s.(showCloseConfirmation := false))
  }

  /** The close dialog's cancel. */
  function CancelClose(s: State): State {
    s.(showCloseConfirmation := false)
  }

  /** `handleReset`. */
  function HandleReset(s: State): State {
    if !s.hasUnsavedChanges then s else s.(showResetConfirmation := true)
  }

  /** The reset dialog's cancel. */
  function CancelReset(s: State): State {
    s.(showResetConfirmation := false)
  }

  /** `confirmReset`; `fault` is what `clearPhotoEditHistory` throws, if
      anything. As its comment says, that action clears the history and the
      unsaved-changes flag; when it throws, neither is changed. */
  function ConfirmReset(s: State, fault: Option<Thrown>): State {
    var s1 := Emit(s.(showResetConfirmation := false), ResettingChanges);
    var s2 := s1.(trace := s1.trace + [ClearPhotoEditHistory]);
    match fault
    case Some(t) => Emit(s2.(currentError := Some(ResetFailureError(Details(t)))), Idle)
    case None =>
      Emit(s2.(history := [], hasUnsavedChanges := false), ResetComplete)
        .(pendingLoadingClear := true)
  }

  /** The effect that runs when the editor is open. */
  function EditorOpened(s: State): State {
    if !s.isOpen then s
    else
      Emit(s.(hasUnsavedChanges := false, activeTab := Color, showCloseConfirmation := false,
              showResetConfirmation := false, currentError := None),
           Idle)
  }

  /** `handleSDKError`. */
  function HandleSdkError(s: State, message: string): State {
    s.(currentError := Some(SdkLoadError(message)))
  }

  /** `handleImageLoadError`. The modal defines it but hands it to no
      component, so the `ImageFailed` event stands for a caller the source
      does not have. */
  function HandleImageLoadError(s: State): State {
    s.(currentError := Some(ImageLoadError(s.imageUrl)))
  }

  /** The toast's dismiss: `setPhotoEditorError(null)`. */
  function DismissError(s: State): State {
    s.(currentError := None)
  }

  /** The toast's retry: runs the current error's retry action, if any. */
  function Retry(s: State, surface: Option<U.Dimensions>, env: SaveEnv, resetFault: Option<Thrown>): State
    requires ValidConfig(s.config)
  {
    if s.currentError.None? || s.currentError.value.retryAction.None? then s
    else
      match s.currentError.value.retryAction.value
      case RetrySave => HandleSave(s, surface, env)
      case RetryConfirmReset => ConfirmReset(s, resetFault)
      case _ => LeaveEditor(s, s.currentError.value.retryAction.value)
  }

  /** The two retry actions that leave the editor: reloading the page, or
      clearing the error and closing. */
  function LeaveEditor(s: State, action: RetryAction): State {
    if action == ReloadPage then s.(trace := s.trace + [PageReload])
    else Close(DismissError(s))
  }

  /** A panel's change callback: `setHasUnsavedChanges(true)`. */
  function MarkDirty(s: State): State {
    s.(hasUnsavedChanges := true)
  }

  /** `addPhotoEditOperation`: appends to the history. */
  function AddOperation(s: State, op: EditOperation): State {
    s.(history := s.history + [op])
  }

  /** The toolbar's tab change. */
  function SelectTab(s: State, tab: PhotoEditorTab): State {
    s.(activeTab := tab)
  }

  /** The 500 ms timer a finished save or reset starts. */
  function LoadingTimerElapsed(s: State): State {
    if s.pendingLoadingClear then Emit(s, Idle).(pendingLoadingClear := false) else s
  }

  // ---------------------------------------------------------------------
  // Events

  /** The interface events whose handlers make at most one outward call. */
  datatype UiEvent =
    | CloseRequested
    | CloseConfirmed
    | CloseCancelled
    | ResetRequested
    | ResetCancelled
    | Opened
    | SdkFailed(message: string)
    | ImageFailed
    | ErrorDismissed
    | PanelChanged
    | OperationAdded(op: EditOperation)
    | TabSelected(tab: PhotoEditorTab)
    | LoadingTimerFired

  /** Everything that can happen to the editor: a save, a confirmed reset,
      a Retry press, or one of the simpler interface events. */
  datatype Event =
    | SaveRequested(surface: Option<U.Dimensions>, env: SaveEnv)
    | ResetConfirmed(fault: Option<Thrown>)
    | RetryRequested(retrySurface: Option<U.Dimensions>, retryEnv: SaveEnv, resetFault: Option<Thrown>)
    | Ui(event: UiEvent)

  /** The handler each interface event runs. Every one of them keeps a
      valid state valid, the configuration fixed, and the calls already
      made. */
  function UiStep(s: State, e: UiEvent): (r: State)
    ensures Valid(s) ==> Preserves(s, r)
  {
    if IsDialogEvent(e) then DialogStep(s, e)
    else if IsEditEvent(e) then EditStep(s, e)
    else LifecycleStep(s, e)
  }

  predicate IsDialogEvent(e: UiEvent) {
    e.CloseRequested? || e.CloseConfirmed? || e.CloseCancelled? || e.ResetRequested? || e.ResetCancelled?
  }

  predicate IsEditEvent(e: UiEvent) {
    e.PanelChanged? || e.OperationAdded? || e.TabSelected?
  }

  /** The buttons of the two confirmation dialogs. */
  function DialogStep(s: State, e: UiEvent): (r: State)
    requires IsDialogEvent(e)
    ensures Valid(s) ==> Preserves(s, r)
  {
    match e
    case CloseRequested => ClosePreserves(s); HandleClose(s)
    case CloseConfirmed =>
      ClosePreserves(s.(showCloseConfirmation := false));
      ConfirmClose(s)
    case CloseCancelled => Unchanged(s, CancelClose(s)); CancelClose(s)
    case ResetRequested => Unchanged(s, HandleReset(s)); HandleReset(s)
    case ResetCancelled => Unchanged(s, CancelReset(s)); CancelReset(s)
  }

  /** The panels' edits and the tab bar. */
  function EditStep(s: State, e: UiEvent): (r: State)
    requires IsEditEvent(e)
    ensures Valid(s) ==> Preserves(s, r)
  {
    match e
    case PanelChanged => Unchanged(s, MarkDirty(s)); MarkDirty(s)
    case OperationAdded(op) => Unchanged(s, AddOperation(s, op)); AddOperation(s, op)
    case TabSelected(tab) => Unchanged(s, SelectTab(s, tab)); SelectTab(s, tab)
  }

  /** Opening, load failures, the toast's dismiss and the loading timer. */
  function LifecycleStep(s: State, e: UiEvent): (r: State)
    requires !IsDialogEvent(e) && !IsEditEvent(e)
    ensures Valid(s) ==> Preserves(s, r)
  {
    match e
    case Opened => OpenedPreserves(s); EditorOpened(s)
    case SdkFailed(message) => ErrorPreserves(s, SdkLoadError(message)); HandleSdkError(s, message)
    case ImageFailed => ErrorPreserves(s, ImageLoadError(s.imageUrl)); HandleImageLoadError(s)
    case ErrorDismissed => Unchanged(s, DismissError(s)); DismissError(s)
    case LoadingTimerFired => TimerPreserves(s); LoadingTimerElapsed(s)
  }

  /** The handler each event runs; like the interface handlers, the save,
      the confirmed reset and the retry keep the invariant. */
  function Step(s: State, e: Event): (r: State)
    requires ValidConfig(s.config)
    ensures Valid(s) ==> Preserves(s, r)
  {
    match e
    case SaveRequested(surface, env) => SavePreserves(s, surface, env); HandleSave(s, surface, env)
    case ResetConfirmed(fault) => ResetPreserves(s, fault); ConfirmReset(s, fault)
    case RetryRequested(surface, env, fault) =>
      RetryPreserves(s, surface, env, fault);
      Retry(s, surface, env, fault)
    case Ui(u) => UiStep(s, u)
  }

  function Run(s: State, events: seq<Event>): State
    requires Valid(s)
    decreases |events|
  {
    if |events| == 0 then s
    else
      Run(Step(s, events[0]), events[1..])
  }

  // ---------------------------------------------------------------------
  // Trace filters

  /** The progress value a call emits, if it is a loading projection with
      one. */
  function ProgressOf(c: Call): seq<int> {
    if c.ShowLoading? && c.loading.progress.Some? then [c.loading.progress.value] else []
  }

  /** The call itself, unless it is a loading projection. */
  function OutwardOf(c: Call): seq<Call> {
    if c.ShowLoading? then [] else [c]
  }

  /** The progress values emitted, in order. */
  function Progresses(calls: seq<Call>): seq<int> {
    if |calls| == 0 then [] else ProgressOf(calls[0]) + Progresses(calls[1..])
  }

  /** The calls other than loading projections, in order. */
  function Outward(calls: seq<Call>): seq<Call> {
    if |calls| == 0 then [] else OutwardOf(calls[0]) + Outward(calls[1..])
  }

  lemma {:induction false} FiltersAppend(a: seq<Call>, b: seq<Call>)
    ensures Progresses(a + b) == Progresses(a) + Progresses(b)
    ensures Outward(a + b) == Outward(a) + Outward(b)
    decreases |a|
  {
    if |a| == 0 {
      assert a + b == b;
    } else {
      assert (a + b)[0] == a[0] && (a + b)[1..] == a[1..] + b;
      FiltersAppend(a[1..], b);
      calc {
        Progresses(a + b);
        ProgressOf(a[0]) + Progresses(a[1..] + b);
        ProgressOf(a[0]) + (Progresses(a[1..]) + Progresses(b));
        (ProgressOf(a[0]) + Progresses(a[1..])) + Progresses(b);
      }
      calc {
        Outward(a + b);
        OutwardOf(a[0]) + Outward(a[1..] + b);
        OutwardOf(a[0]) + (Outward(a[1..]) + Outward(b));
        (OutwardOf(a[0]) + Outward(a[1..])) + Outward(b);
      }
    }
  }

  predicate Increasing(p: seq<int>) {
    forall i, j :: 0 <= i < j < |p| ==> p[i] < p[j]
  }

  const SaveCheckpoints: seq<int> := [0, 20, 40, 70, 90, 100]

  // ---------------------------------------------------------------------
  // Properties of the handlers

  /** A save without an image URL or without a container only reports a
      save-failure error (URL checked first) whose retry is save; nothing is
      emitted, captured or called, and nothing else changes. */
  lemma SaveGuard(s: State, surface: Option<U.Dimensions>, env: SaveEnv)
    requires ValidConfig(s.config) && SaveGuardFails(s, surface)
    ensures var r := HandleSave(s, surface, env);
            r == s.(currentError := r.currentError) && r.currentError.Some?
    ensures var e := HandleSave(s, surface, env).currentError.value;
            e.kind == SaveFailure && e.recoverable && e.retryAction == Some(RetrySave)
            && e.details == Some(if MissingUrl(s.imageUrl) then MissingUrlDetails else MissingElementDetails)
  {
  }

  predicate SaveSucceeds(s: State, surface: Option<U.Dimensions>, env: SaveEnv)
    requires ValidConfig(s.config)
  {
    !SaveGuardFails(s, surface) && Capture(s, surface, env).Ok? && !env.fault.SaveStoreFault?
    && !(s.hasOnSave && env.fault.OnSaveFault?)
  }

  lemma StartFilters()
    ensures Progresses(SaveStartCalls) == [0, 20, 40] && Outward(SaveStartCalls) == []
  {
    var c := SaveStartCalls;
    FiltersOfThree(c[0], c[1], c[2]);
  }

  lemma StoreFilters(s: State, env: SaveEnv)
    requires !MissingUrl(s.imageUrl)
    ensures Progresses(StoreCalls(s, env)) == [0, 20, 40, 70, 90]
    ensures Outward(StoreCalls(s, env)) == [SavePhotoEdit(SavedAsset(s, env), SavedSession(s, env))]
  {
    StoreFiltersOf(SavedAsset(s, env), SavedSession(s, env));
  }

  /** The same for any record handed to the store. */
  lemma StoreFiltersOf(asset: PhotoEditAsset, session: PhotoEditSession)
    ensures var calls := SaveStartCalls + [ShowLoading(CreatingAsset), ShowLoading(FinalizingSave),
                                           SavePhotoEdit(asset, session)];
            Progresses(calls) == [0, 20, 40, 70, 90] && Outward(calls) == [SavePhotoEdit(asset, session)]
  {
    var tail := [ShowLoading(CreatingAsset), ShowLoading(FinalizingSave), SavePhotoEdit(asset, session)];
    StartFilters();
    FiltersAppend(SaveStartCalls, tail);
    FiltersOfThree(tail[0], tail[1], tail[2]);
  }

  lemma NotifyFilters(s: State, env: SaveEnv)
    requires !MissingUrl(s.imageUrl)
    ensures Progresses(StoreAndNotifyCalls(s, env)) == [0, 20, 40, 70, 90]
    ensures var asset := SavedAsset(s, env);
            Outward(StoreAndNotifyCalls(s, env))
            == [SavePhotoEdit(asset, SavedSession(s, env))]
               + if s.hasOnSave then [OnSave(asset.url, asset.photoEditMetadata)] else []
  {
    var asset := SavedAsset(s, env);
    var cb := NotifyCalls(s.hasOnSave, asset);
    StoreFilters(s, env);
    FiltersAppend(StoreCalls(s, env), cb);
    if s.hasOnSave { FiltersOfOne(cb[0]); }
  }

  /** A successful save emits progress 0, 20, 40, 70, 90, 100 and leaves
      loading on with the clear pending; it calls `savePhotoEdit` once, with
      the session record, and then `onSave` once if it is given, with the
      asset's own metadata. Nothing else in the state changes. */
  lemma SaveSuccess(s: State, surface: Option<U.Dimensions>, env: SaveEnv)
    requires ValidConfig(s.config) && SaveSucceeds(s, surface, env)
    ensures var r := HandleSave(s, surface, env);
            r == s.(loading := SaveComplete, pendingLoadingClear := true, trace := r.trace)
            && |s.trace| <= |r.trace| && r.trace[..|s.trace|] == s.trace
    ensures var r := HandleSave(s, surface, env);
            var asset := SavedAsset(s, env);
            Progresses(r.trace[|s.trace|..]) == SaveCheckpoints
            && Outward(r.trace[|s.trace|..])
               == [SavePhotoEdit(asset, PhotoEditSession(s.imageUrl.value, asset.url, s.history,
                                                         Duration(s.history, env.sessionNow)))]
                  + (if s.hasOnSave then [OnSave(asset.url, asset.photoEditMetadata)] else [])
  {
    SaveSucceedsAtEnd(s, surface, env);
    var r := HandleSave(s, surface, env);
    var tail := [ShowLoading(SaveComplete)];
    var added := StoreAndNotifyCalls(s, env) + tail;
    assert r.trace == s.trace + added;
    assert r.trace[|s.trace|..] == added;
    NotifyFilters(s, env);
    FiltersAppend(StoreAndNotifyCalls(s, env), tail);
    FiltersOfOne(tail[0]);
  }

  lemma SaveSucceedsAtEnd(s: State, surface: Option<U.Dimensions>, env: SaveEnv)
    requires ValidConfig(s.config) && SaveSucceeds(s, surface, env)
    ensures HandleSave(s, surface, env)
            == s.(loading := SaveComplete, pendingLoadingClear := true,
                  trace := s.trace + (StoreAndNotifyCalls(s, env) + [ShowLoading(SaveComplete)]))
  {
    assert s.trace + StoreAndNotifyCalls(s, env) + [ShowLoading(SaveComplete)]
        == s.trace + (StoreAndNotifyCalls(s, env) + [ShowLoading(SaveComplete)]);
  }

  /** The filters of a single call. */
  lemma FiltersOfOne(c: Call)
    ensures Progresses([c]) == ProgressOf(c) && Outward([c]) == OutwardOf(c)
  {
    assert [c][1..] == [];
  }

  /** The filters of a call followed by more calls. */
  lemma FiltersCons(c: Call, rest: seq<Call>)
    ensures Progresses([c] + rest) == ProgressOf(c) + Progresses(rest)
    ensures Outward([c] + rest) == OutwardOf(c) + Outward(rest)
  {
    assert ([c] + rest)[0] == c && ([c] + rest)[1..] == rest;
  }

  /** The filters of a three-call sequence, call by call. */
  lemma FiltersOfThree(a: Call, b: Call, c: Call)
    ensures Progresses([a, b, c]) == ProgressOf(a) + ProgressOf(b) + ProgressOf(c)
    ensures Outward([a, b, c]) == OutwardOf(a) + OutwardOf(b) + OutwardOf(c)
  {
    ProgressesOfThree(a, b, c);
    OutwardOfThree(a, b, c);
  }

  lemma ProgressesOfThree(a: Call, b: Call, c: Call)
    ensures Progresses([a, b, c]) == ProgressOf(a) + ProgressOf(b) + ProgressOf(c)
  {
    assert [a, b, c][1..] == [b, c] && [b, c][1..] == [c] && [c][1..] == [];
    assert Progresses([c]) == ProgressOf(c) + [];
    assert Progresses([b, c]) == ProgressOf(b) + Progresses([c]);
    assert Progresses([a, b, c]) == ProgressOf(a) + Progresses([b, c]);
  }

  lemma OutwardOfThree(a: Call, b: Call, c: Call)
    ensures Outward([a, b, c]) == OutwardOf(a) + OutwardOf(b) + OutwardOf(c)
  {
    assert [a, b, c][1..] == [b, c] && [b, c][1..] == [c] && [c][1..] == [];
    assert Outward([c]) == OutwardOf(c) + [];
    assert Outward([b, c]) == OutwardOf(b) + Outward([c]);
    assert Outward([a, b, c]) == OutwardOf(a) + Outward([b, c]);
  }

  /** What a failing save reports: the capture's message when the capture
      fails, else the message of what was thrown. */
  function SaveFailureDetails(s: State, surface: Option<U.Dimensions>, env: SaveEnv): string
    requires ValidConfig(s.config) && !SaveGuardFails(s, surface)
    requires CaptureFails(s, surface, env) || !env.fault.NoFault?
  {
    if CaptureFails(s, surface, env) then Capture(s, surface, env).message else Details(env.fault.thrown)
  }

  /** A save that passes the guard but fails sets a recoverable
      save-failure error whose retry is save, turns loading off, and emits
      only an increasing prefix of the checkpoints (at least 0, 20, 40);
      nothing else in the state changes. */
  lemma SaveFails(s: State, surface: Option<U.Dimensions>, env: SaveEnv)
    requires ValidConfig(s.config) && !SaveGuardFails(s, surface) && !SaveSucceeds(s, surface, env)
    ensures CaptureFails(s, surface, env) || !env.fault.NoFault?
    ensures var r := HandleSave(s, surface, env);
            r == s.(currentError := Some(SaveFailureError(SaveFailureDetails(s, surface, env))), loading := Idle,
                    trace := r.trace)
            && |s.trace| <= |r.trace| && r.trace[..|s.trace|] == s.trace
    ensures var r := HandleSave(s, surface, env);
            var p := Progresses(r.trace[|s.trace|..]);
            3 <= |p| <= 5 && p == SaveCheckpoints[..|p|] && Increasing(p)
  {
    var calls := FailedCalls(s, surface, env);
    SaveFailsAtCatch(s, surface, env);
    FailedTrace(s, calls, FailedThrown(s, surface, env));
    if CaptureFails(s, surface, env) {
      StartFilters();
      CheckpointsIncrease(3);
      assert Progresses(calls) == SaveCheckpoints[..3];
    } else {
      if env.fault.SaveStoreFault? { StoreFilters(s, env); } else { NotifyFilters(s, env); }
      CheckpointsIncrease(5);
      assert Progresses(calls) == SaveCheckpoints[..5];
    }
  }

  /** A save whose capture throws or rejects reports the capture's own
      message (the blob rejection, or what `drawImage` or `toDataURL`
      throws) as the details, after emitting only 0, 20, 40 and making no
      outward call. */
  lemma SaveCaptureFailure(s: State, surface: Option<U.Dimensions>, env: SaveEnv)
    requires ValidConfig(s.config) && !SaveGuardFails(s, surface) && CaptureFails(s, surface, env)
    ensures var r := HandleSave(s, surface, env);
            r.currentError == Some(SaveFailureError(Capture(s, surface, env).message)) && r.loading == Idle
    ensures var r := HandleSave(s, surface, env);
            |s.trace| <= |r.trace| && r.trace[..|s.trace|] == s.trace
            && Progresses(r.trace[|s.trace|..]) == [0, 20, 40] && Outward(r.trace[|s.trace|..]) == []
  {
    var r := HandleSave(s, surface, env);
    var idle := [ShowLoading(Idle)];
    assert r.trace == s.trace + (SaveStartCalls + idle);
    assert r.trace[|s.trace|..] == SaveStartCalls + idle;
    StartFilters();
    FiltersAppend(SaveStartCalls, idle);
    FiltersOfOne(idle[0]);
  }

  /** The calls made before a failing save reaches its catch block, and
      what was thrown there. */
  function FailedCalls(s: State, surface: Option<U.Dimensions>, env: SaveEnv): seq<Call>
    requires ValidConfig(s.config) && !SaveGuardFails(s, surface)
  {
    if CaptureFails(s, surface, env) then SaveStartCalls
    else if env.fault.SaveStoreFault? then StoreCalls(s, env)
    else StoreAndNotifyCalls(s, env)
  }

  function FailedThrown(s: State, surface: Option<U.Dimensions>, env: SaveEnv): Thrown
    requires ValidConfig(s.config) && !SaveGuardFails(s, surface)
    requires CaptureFails(s, surface, env) || !env.fault.NoFault?
  {
    if CaptureFails(s, surface, env) then ErrorValue(Capture(s, surface, env).message) else env.fault.thrown
  }

  lemma SaveFailsAtCatch(s: State, surface: Option<U.Dimensions>, env: SaveEnv)
    requires ValidConfig(s.config) && !SaveGuardFails(s, surface) && !SaveSucceeds(s, surface, env)
    ensures CaptureFails(s, surface, env) || !env.fault.NoFault?
    ensures HandleSave(s, surface, env) == SaveFailed(s, FailedCalls(s, surface, env), FailedThrown(s, surface, env))
    ensures Details(FailedThrown(s, surface, env)) == SaveFailureDetails(s, surface, env)
  {
  }

  lemma FailedKeepsValid(s: State, calls: seq<Call>, t: Thrown)
    requires Valid(s)
    ensures Valid(SaveFailed(s, calls, t)) && SaveFailed(s, calls, t).config == s.config
    ensures Extends(s.trace, SaveFailed(s, calls, t).trace)
  {
    BuiltErrorsAreModal(false, Details(t), None);
    AppendExtends(s.trace, calls + [ShowLoading(Idle)]);
    assert s.trace + calls + [ShowLoading(Idle)] == s.trace + (calls + [ShowLoading(Idle)]);
  }

  /** The catch block only appends `calls` and the idle projection. */
  lemma FailedTrace(s: State, calls: seq<Call>, t: Thrown)
    ensures var r := SaveFailed(s, calls, t);
            |s.trace| <= |r.trace| && r.trace[..|s.trace|] == s.trace
            && Progresses(r.trace[|s.trace|..]) == Progresses(calls)
  {
    var r := SaveFailed(s, calls, t);
    var idle := [ShowLoading(Idle)];
    assert r.trace == s.trace + (calls + idle);
    assert r.trace[|s.trace|..] == calls + idle;
    FiltersAppend(calls, idle);
    FiltersOfOne(idle[0]);
  }

  /** Every prefix of the checkpoints is strictly increasing. */
  lemma CheckpointsIncrease(n: nat)
    requires n <= |SaveCheckpoints|
    ensures Increasing(SaveCheckpoints[..n])
  {
    assert Increasing(SaveCheckpoints);
  }

  /** The duration recorded with a save. */
  lemma DurationCases(history: seq<EditOperation>, now: nat)
    ensures |history| == 0 ==> Duration(history, now) == 0
    ensures |history| > 0 && history[0].timestamp == 0 ==> Duration(history, now) == 0
    ensures |history| > 0 && history[0].timestamp != 0 ==>
              Duration(history, now) + history[0].timestamp == now
  {
  }

  /** `onSave` gets the asset's metadata, whose original URL is '' and
      duration 0, not the session record given to the store. */
  lemma OnSaveGetsAssetMetadata(s: State, env: SaveEnv)
    requires !MissingUrl(s.imageUrl)
    ensures SavedAsset(s, env).photoEditMetadata.originalImageUrl == ""
    ensures SavedAsset(s, env).photoEditMetadata.duration == 0
    ensures SavedAsset(s, env).photoEditMetadata.operations == s.history
    ensures U.ParseEditedAssetId(SavedAsset(s, env).id) == Some((OriginalAssetId(s.assetId), env.assetNow))
  {
    U.EditedAssetIdRoundTrip(OriginalAssetId(s.assetId), env.assetNow);
  }

  /** Close while dirty and idle only raises the confirmation and keeps the
      editor open; any other close closes at once. */
  lemma CloseGate(s: State)
    ensures s.hasUnsavedChanges && !s.loading.isLoading ==>
              HandleClose(s) == s.(showCloseConfirmation := true)
    ensures !(s.hasUnsavedChanges && !s.loading.isLoading) ==>
              !HandleClose(s).isOpen && HandleClose(s).trace == s.trace + [ClosePhotoEditor]
    ensures !ConfirmClose(s).isOpen && !ConfirmClose(s).showCloseConfirmation
  {
  }

  /** Requesting close of a dirty, idle editor and cancelling leaves it open,
      dirty, with the same history and no call made. */
  lemma CloseThenCancel(s: State)
    requires s.isOpen && s.hasUnsavedChanges && !s.loading.isLoading
    ensures var r := CancelClose(HandleClose(s));
            r.isOpen && r.hasUnsavedChanges && r.history == s.history && r.trace == s.trace
  {
  }

  /** A confirmed reset that succeeds clears the history and the dirty flag,
      keeps the image, and emits 0 then 100; a clean editor ignores reset
      requests. */
  lemma ResetClears(s: State)
    ensures HandleReset(s) == (if s.hasUnsavedChanges then s.(showResetConfirmation := true) else s)
    ensures var r := ConfirmReset(s, None);
            r.history == [] && !r.hasUnsavedChanges && r.imageUrl == s.imageUrl
            && !r.showResetConfirmation && r.pendingLoadingClear
            && |s.trace| <= |r.trace| && r.trace[..|s.trace|] == s.trace
            && Progresses(r.trace[|s.trace|..]) == [0, 100]
            && Outward(r.trace[|s.trace|..]) == [ClearPhotoEditHistory]
  {
    var r := ConfirmReset(s, None);
    var added := [ShowLoading(ResettingChanges), ClearPhotoEditHistory, ShowLoading(ResetComplete)];
    assert r.trace == s.trace + added;
    assert r.trace[|s.trace|..] == added;
    FiltersOfThree(added[0], added[1], added[2]);
  }

  /** A failing reset sets a recoverable 'unknown' error whose retry is the
      confirmed reset, and turns loading off. */
  lemma ResetFailure(s: State, t: Thrown)
    ensures var r := ConfirmReset(s, Some(t));
            r.currentError == Some(ResetFailureError(Details(t))) && r.loading == Idle
            && r.currentError.value.kind == Unknown && r.currentError.value.recoverable
            && r.currentError.value.retryAction == Some(RetryConfirmReset)
            && r.imageUrl == s.imageUrl
  {
  }

  /** Opening resets the dirty flag, tab, dialogs, error and loading, but
      keeps the history. */
  lemma OpenResets(s: State)
    requires s.isOpen
    ensures var r := EditorOpened(s);
            !r.hasUnsavedChanges && r.activeTab == Color && !r.showCloseConfirmation
            && !r.showResetConfirmation && r.currentError.None? && r.loading == Idle
            && r.history == s.history
  {
  }

  /** The dirty flag is not "history non-empty": a panel change dirties an
      empty history, and opening cleans a non-empty one. */
  lemma DirtyIsNotHistory(s: State, op: EditOperation)
    requires s.history == [] && s.isOpen
    ensures MarkDirty(s).hasUnsavedChanges && MarkDirty(s).history == []
    ensures !EditorOpened(AddOperation(s, op)).hasUnsavedChanges
    ensures EditorOpened(AddOperation(s, op)).history == [op]
  {
  }

  // ---------------------------------------------------------------------
  // Every handler keeps the state valid

  /** `b` is `a` followed by zero or more calls. */
  predicate Extends(a: seq<Call>, b: seq<Call>) {
    |a| <= |b| && b[..|a|] == a
  }

  lemma AppendExtends(a: seq<Call>, c: seq<Call>)
    ensures Extends(a, a + c)
  {
    assert (a + c)[..|a|] == a;
  }

  lemma ExtendsTransitive(a: seq<Call>, b: seq<Call>, c: seq<Call>)
    requires Extends(a, b) && Extends(b, c)
    ensures Extends(a, c)
  {
    assert c[..|a|] == c[..|b|][..|a|];
  }

  /** What every handler keeps: validity, the configuration, and every call
      already recorded (including the assets and sessions handed to the
      store, which later handlers never alter). */
  predicate Preserves(s: State, r: State) {
    Valid(r) && r.config == s.config && Extends(s.trace, r.trace)
  }

  lemma SavePreserves(s: State, surface: Option<U.Dimensions>, env: SaveEnv)
    requires ValidConfig(s.config)
    ensures Valid(s) ==> Preserves(s, HandleSave(s, surface, env))
  {
    if !Valid(s) {
    } else if SaveGuardFails(s, surface) {
      GuardPreserves(s, surface, env);
    } else if SaveSucceeds(s, surface, env) {
      SuccessPreserves(s, surface, env);
    } else {
      CatchPreserves(s, surface, env);
    }
  }

  lemma GuardPreserves(s: State, surface: Option<U.Dimensions>, env: SaveEnv)
    requires Valid(s) && SaveGuardFails(s, surface)
    ensures Preserves(s, HandleSave(s, surface, env))
  {
    SaveGuard(s, surface, env);
    AppendExtends(s.trace, []);
    assert s.trace + [] == s.trace;
  }

  lemma SuccessPreserves(s: State, surface: Option<U.Dimensions>, env: SaveEnv)
    requires Valid(s) && SaveSucceeds(s, surface, env)
    ensures Preserves(s, HandleSave(s, surface, env))
  {
    SaveSucceedsAtEnd(s, surface, env);
    AppendExtends(s.trace, StoreAndNotifyCalls(s, env) + [ShowLoading(SaveComplete)]);
  }

  lemma CatchPreserves(s: State, surface: Option<U.Dimensions>, env: SaveEnv)
    requires Valid(s) && !SaveGuardFails(s, surface) && !SaveSucceeds(s, surface, env)
    ensures Preserves(s, HandleSave(s, surface, env))
  {
    SaveFailsAtCatch(s, surface, env);
    FailedKeepsValid(s, FailedCalls(s, surface, env), FailedThrown(s, surface, env));
  }

  lemma ResetPreserves(s: State, fault: Option<Thrown>)
    ensures Valid(s) ==> Preserves(s, ConfirmReset(s, fault))
  {
    var last := if fault.Some? then Idle else ResetComplete;
    var added := [ShowLoading(ResettingChanges), ClearPhotoEditHistory, ShowLoading(last)];
    assert ConfirmReset(s, fault).trace == s.trace + added;
    AppendExtends(s.trace, added);
    if fault.Some? {
      BuiltErrorsAreModal(false, Details(fault.value), s.imageUrl);
    }
  }

  lemma RetryPreserves(s: State, surface: Option<U.Dimensions>, env: SaveEnv, fault: Option<Thrown>)
    requires ValidConfig(s.config)
    ensures Valid(s) ==> Preserves(s, Retry(s, surface, env, fault))
  {
    if s.currentError.None? || s.currentError.value.retryAction.None? {
      assert Retry(s, surface, env, fault) == s;
      Unchanged(s, s);
    } else {
      var action := s.currentError.value.retryAction.value;
      if action == RetrySave {
        assert Retry(s, surface, env, fault) == HandleSave(s, surface, env);
        SavePreserves(s, surface, env);
      } else if action == RetryConfirmReset {
        assert Retry(s, surface, env, fault) == ConfirmReset(s, fault);
        ResetPreserves(s, fault);
      } else {
        LeaveEditorPreserves(s, action);
      }
    }
  }

  lemma LeaveEditorPreserves(s: State, action: RetryAction)
    ensures Valid(s) ==> Preserves(s, LeaveEditor(s, action))
  {
    var c := if action == ReloadPage then PageReload else ClosePhotoEditor;
    assert LeaveEditor(s, action).trace == s.trace + [c];
    AppendExtends(s.trace, [c]);
  }

  /** A handler that touches neither the configuration, the progress, the
      trace, nor sets an error. */
  lemma Unchanged(s: State, r: State)
    requires r.config == s.config && r.loading == s.loading && r.trace == s.trace
    requires r.currentError.None? || r.currentError == s.currentError
    ensures Valid(s) ==> Preserves(s, r)
  {
    AppendExtends(s.trace, []);
    assert s.trace + [] == s.trace;
  }

  /** Setting one of the errors the modal builds. */
  lemma ErrorPreserves(s: State, e: PhotoEditorError)
    requires e in {SdkLoadError(e.details.GetOr("")), ImageLoadError(s.imageUrl)}
    ensures Valid(s) ==> Preserves(s, s.(currentError := Some(e)))
  {
    BuiltErrorsAreModal(true, e.details.GetOr(""), s.imageUrl);
    Unchanged(s, s.(currentError := None));
  }

  lemma ClosePreserves(s: State)
    ensures Valid(s) ==> Preserves(s, HandleClose(s)) && Preserves(s, Close(s))
  {
    AppendExtends(s.trace, [ClosePhotoEditor]);
    Unchanged(s, s.(showCloseConfirmation := true));
  }

  lemma OpenedPreserves(s: State)
    ensures Valid(s) ==> Preserves(s, EditorOpened(s))
  {
    AppendExtends(s.trace, [ShowLoading(Idle)]);
  }

  lemma TimerPreserves(s: State)
    ensures Valid(s) ==> Preserves(s, LoadingTimerElapsed(s))
  {
    AppendExtends(s.trace, [ShowLoading(Idle)]);
    Unchanged(s, s);
  }

  /** Over any run of events, the state stays valid and the trace only
      grows. */
  lemma {:induction false} RunInvariant(s: State, events: seq<Event>)
    requires Valid(s)
    ensures Valid(Run(s, events))
    ensures Extends(s.trace, Run(s, events).trace)
    decreases |events|
  {
    if |events| == 0 {
      AppendExtends(s.trace, []);
      assert s.trace + [] == s.trace;
    } else {
      var s1 := Step(s, events[0]);
      RunInvariant(s1, events[1..]);
      ExtendsTransitive(s.trace, s1.trace, Run(s1, events[1..]).trace);
    }
  }

  // ---------------------------------------------------------------------
  // Wiring to the toast and the buttons

  /** The toast's props as the modal passes them: a retry handler always,
      and auto-hide only for a non-recoverable error. */
  function NotificationProps(s: State): N.Props {
    N.Props(s.currentError, true,
            Some(!(s.currentError.Some? && s.currentError.value.recoverable)), None)
  }

  /** In every valid state the toast never dismisses itself, and a shown
      error always offers Retry; a Retry press then always has an action to
      run. */
  lemma NotificationNeverAutoHides(s: State)
    requires Valid(s)
    ensures N.DismissTimer(NotificationProps(s)).None?
    ensures s.currentError.Some? ==> N.Render(NotificationProps(s)).retryButton
    ensures s.currentError.Some? ==> s.currentError.value.retryAction.Some?
  {
  }

  /** The buttons as the modal wires them: saving is the loading flag and
      resetting is never reported. */
  function ControlsProps(s: State): C.Props {
    C.Props(s.hasUnsavedChanges, s.loading.isLoading, false)
  }

  /** While anything is loading no button can start a save, reset or close;
      an idle editor with changes can save and reset. */
  lemma ControlsWhileLoading(s: State)
    ensures s.loading.isLoading ==>
              C.SaveDisabled(ControlsProps(s)) && C.ResetDisabled(ControlsProps(s))
              && C.CancelDisabled(ControlsProps(s))
    ensures !s.loading.isLoading && s.hasUnsavedChanges ==>
              !C.SaveDisabled(ControlsProps(s)) && !C.ResetDisabled(ControlsProps(s))
  {
  }
}
