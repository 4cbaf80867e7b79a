/** The photo editor modal (src/components/PhotoEditorModal.tsx) as an
    object: the editor's slice of the application store and the modal's own
    flags are fields, and every handler is a method that updates them step by
    step, in the order the source issues its setter calls. Each method is
    proved to leave exactly the state the matching function of SessionSpec
    computes, so every property proved there holds of the object. */
module PhotoEditorModal {
  import opened Wrappers
  import opened Types
  import U = PhotoEditorUtils
  import S = SessionSpec

  /** The surface `handleSave` would capture: none when the container
      reference is missing. */
  function SurfaceOf(parent: U.Element?): Option<U.Dimensions>
    reads parent, if parent != null then {parent.canvas} else {}
  {
    if parent == null then None else Some(U.SurfaceDimensions(parent))
  }

  class Editor {
    // the store's photo-editor slice: what the modal only reads ...
    const imageUrl: Option<string>
    const assetId: Option<string>
    const config: S.EditorConfig
    // ... and what it updates
    var isOpen: bool
    var hasUnsavedChanges: bool
    var history: seq<EditOperation>
    var currentError: Option<PhotoEditorError>
    var loading: S.Loading
    // the modal's own state
    var pendingLoadingClear: bool
    var activeTab: PhotoEditorTab
    var showCloseConfirmation: bool
    var showResetConfirmation: bool
    // whether the `onSave` prop is given
    const hasOnSave: bool
    // the outward calls made so far
    var trace: seq<S.Call>

    function State(): S.State
      reads this
    {
      S.State(isOpen, imageUrl, assetId, hasUnsavedChanges, history, config, currentError,
              loading, pendingLoadingClear, activeTab, showCloseConfirmation,
              showResetConfirmation, hasOnSave, trace)
    }

    /** An editor opened on an image, with no history, no error and nothing
        loading. */
    constructor (imageUrl: Option<string>, assetId: Option<string>, config: S.EditorConfig,
                 hasOnSave: bool)
      requires S.ValidConfig(config)
      ensures State() == S.State(true, imageUrl, assetId, false, [], config, None, S.Idle, false,
                                 Color, false, false, hasOnSave, [])
      ensures S.Valid(State())
    {
      this.imageUrl := imageUrl;
      this.assetId := assetId;
      this.config := config;
      this.hasOnSave := hasOnSave;
      isOpen := true;
      hasUnsavedChanges := false;
      history := [];
      currentError := None;
      loading := S.Idle;
      pendingLoadingClear := false;
      activeTab := Color;
      showCloseConfirmation, showResetConfirmation := false, false;
      trace := [];
    }

    // -------------------------------------------------------------------
    // Store setters

    /** `setPhotoEditorLoading(...)`. */
    method SetLoading(l: S.Loading)
      modifies this
      ensures State() == S.Emit(old(State()), l)
    {
      loading := l;
      trace := trace + [S.ShowLoading(l)];
    }

    /** `closePhotoEditor()`. */
    method ClosePhotoEditor()
      modifies this
      ensures State() == S.Close(old(State()))
    {
      isOpen := false;
      trace := trace + [S.ClosePhotoEditor];
    }

    // -------------------------------------------------------------------
    // Handlers

    method HandleClose()
      modifies this
      ensures State() == S.HandleClose(old(State()))
    {
      if hasUnsavedChanges && !loading.isLoading {
        showCloseConfirmation := true;
        return;
      }
      ClosePhotoEditor();
    }

    method ConfirmClose()
      modifies this
      ensures State() == S.ConfirmClose(old(State()))
    {
      showCloseConfirmation := false;
      ClosePhotoEditor();
    }

    method CancelClose()
      modifies this
      ensures State() == S.CancelClose(old(State()))
    {
      showCloseConfirmation := false;
    }

    /** `handleSave`, given the container reference and what the clock, the
        encoder and the callbacks do during the attempt. */
    method HandleSave(parent: U.Element?, env: S.SaveEnv)
      requires S.ValidConfig(config)
      modifies this
      ensures State() == S.HandleSave(old(State()), SurfaceOf(parent), env)
    {
      if imageUrl.None? || imageUrl.value == "" || parent == null {
        SaveNotReady(parent, env);
      } else {
        SaveReady(parent, env);
      }
    }

    /** The guard of `handleSave`: the error is set and nothing else
        happens. */
    method SaveNotReady(parent: U.Element?, env: S.SaveEnv)
      requires S.ValidConfig(config) && S.SaveGuardFails(State(), SurfaceOf(parent))
      modifies this
      ensures State() == S.HandleSave(old(State()), SurfaceOf(parent), env)
    {
      currentError := Some(S.SaveGuardError(imageUrl.None? || imageUrl.value == ""));
    }

    /** The `try` block of `handleSave`. */
    method SaveReady(parent: U.Element, env: S.SaveEnv)
      requires S.ValidConfig(config) && imageUrl.Some? && imageUrl.value != ""
      modifies this
      ensures State() == S.HandleSave(old(State()), SurfaceOf(parent), env)
    {
      ghost var s0 := State();
      S.SavePastGuard(s0, SurfaceOf(parent), env);
      var outputMime, captured := StartSave(parent, env);
      assert captured == S.Capture(s0, SurfaceOf(parent), env);
      if captured.Err? {
        CaptureFailed(s0, S.ErrorValue(captured.message));
        return;
      }
      FinishSave(s0, outputMime, env);
    }

    /** The save up to the capture: three projections, the output format,
        and the capture itself, whose outcome is the capture specification
        of the container's surface. */
    method StartSave(parent: U.Element, env: S.SaveEnv)
      returns (outputMime: string, captured: Result<U.CaptureOutput>)
      requires S.ValidConfig(config) && imageUrl.Some? && imageUrl.value != ""
      modifies this
      ensures State() == old(State()).(loading := S.CapturingImage,
                                       trace := old(trace) + S.SaveStartCalls)
      ensures outputMime == U.GetOutputMimeType(imageUrl.value, config.outputMime)
      ensures captured == S.Capture(old(State()), Some(U.SurfaceDimensions(parent)), env)
    {
      SetLoading(S.SavingImage);
      SetLoading(S.ProcessingFormat);
      outputMime := U.GetOutputMimeType(imageUrl.value, config.outputMime);
      SetLoading(S.CapturingImage);
      captured := U.CaptureEditedImageWithOptions(parent, outputMime, config.quality,
                                                  config.maxDimensions, env.browser);
    }

    /** The catch block when the capture throws or rejects. */
    method CaptureFailed(ghost s0: S.State, t: S.Thrown)
      requires State() == s0.(loading := S.CapturingImage, trace := s0.trace + S.SaveStartCalls)
      modifies this
      ensures State() == S.SaveFailed(s0, S.SaveStartCalls, t)
    {
      SaveFailed(t);
    }

    /** The save after a successful capture. */
    method FinishSave(ghost s0: S.State, outputMime: string, env: S.SaveEnv)
      requires !S.MissingUrl(s0.imageUrl) && S.ValidConfig(s0.config)
      requires State() == s0.(loading := S.CapturingImage, trace := s0.trace + S.SaveStartCalls)
      requires outputMime == U.GetOutputMimeType(s0.imageUrl.value, s0.config.outputMime)
      modifies this
      ensures State() == S.SaveCaptured(s0, env)
    {
      var editedAsset := StoreEdit(imageUrl.value, outputMime, env);
      assert trace == s0.trace + S.StoreCalls(s0, env);
      if env.fault.SaveStoreFault? {
        StoreFailed(s0, env);
        return;
      }
      AfterStore(s0, env, editedAsset);
    }

    /** The catch block when `savePhotoEdit` throws. */
    method StoreFailed(ghost s0: S.State, env: S.SaveEnv)
      requires !S.MissingUrl(s0.imageUrl) && env.fault.SaveStoreFault?
      requires State() == s0.(trace := s0.trace + S.StoreCalls(s0, env), loading := S.FinalizingSave)
      modifies this
      ensures State() == S.SaveFailed(s0, S.StoreCalls(s0, env), env.fault.thrown)
    {
      SaveFailed(env.fault.thrown);
    }

    /** From "Creating asset..." up to `savePhotoEdit`. */
    method StoreEdit(url: string, outputMime: string, env: S.SaveEnv)
      returns (editedAsset: PhotoEditAsset)
      requires imageUrl == Some(url) && url != ""
      requires outputMime == U.GetOutputMimeType(url, config.outputMime)
      modifies this
      ensures editedAsset == S.SavedAsset(old(State()), env)
      ensures State() == old(State()).(loading := S.FinalizingSave,
                                       trace := old(trace) + [S.ShowLoading(S.CreatingAsset),
                                                              S.ShowLoading(S.FinalizingSave),
                                                              S.SavePhotoEdit(editedAsset, S.SavedSession(old(State()), env))])
    {
      SetLoading(S.CreatingAsset);
      editedAsset := U.CreatePhotoEditAsset(S.OriginalAssetId(assetId), env.objectUrl, history,
                                            outputMime, env.assetNow, env.createdAt);
      SaveRecord(url, editedAsset, env.sessionNow);
    }

    /** "Finalizing save..." and `savePhotoEdit` with the session record,
        whose duration is measured at `now`, a clock reading taken after the
        asset was made. */
    method SaveRecord(url: string, editedAsset: PhotoEditAsset, now: nat)
      modifies this
      ensures State() == old(State()).(loading := S.FinalizingSave,
                                       trace := old(trace) + [S.ShowLoading(S.FinalizingSave),
                                                              S.SavePhotoEdit(editedAsset,
                                                                PhotoEditSession(url, editedAsset.url, history,
                                                                                 S.Duration(history, now)))])
    {
      SetLoading(S.FinalizingSave);
      var session := PhotoEditSession(url, editedAsset.url, history, S.Duration(history, now));
      trace := trace + [S.SavePhotoEdit(editedAsset, session)];
    }

    /** The rest of a save once the store has it. */
    method AfterStore(ghost s0: S.State, env: S.SaveEnv, asset: PhotoEditAsset)
      requires !S.MissingUrl(s0.imageUrl) && !env.fault.SaveStoreFault? && asset == S.SavedAsset(s0, env)
      requires State() == s0.(trace := s0.trace + S.StoreCalls(s0, env), loading := S.FinalizingSave)
      modifies this
      ensures State() == S.SaveCaptured(s0, env)
    {
      S.AfterStoreStage(s0, env);
      NotifySaved(env.fault, asset);
    }

    /** `onSave`, then either the final projection or the catch block when
        `onSave` throws; `fault` says what the callback does. */
    method NotifySaved(fault: S.Fault, asset: PhotoEditAsset)
      modifies this
      ensures State() == S.Notified(old(State()), fault, asset)
    {
      CallOnSave(asset);
      if hasOnSave && fault.OnSaveFault? {
        SaveFailed(fault.thrown);
        return;
      }
      SetLoading(S.SaveComplete);
      pendingLoadingClear := true;
    }

    /** `onSave?.(…)`: the callback is called only when one is given. */
    method CallOnSave(asset: PhotoEditAsset)
      modifies this
      ensures State() == old(State()).(trace := old(trace) + S.NotifyCalls(hasOnSave, asset))
    {
      if hasOnSave {
        trace := trace + [S.OnSave(asset.url, asset.photoEditMetadata)];
      }
    }

    /** The catch block of `handleSave`. */
    method SaveFailed(t: S.Thrown)
      modifies this
      ensures State() == old(State()).(currentError := Some(S.SaveFailureError(S.Details(t))),
                                       loading := S.Idle,
                                       trace := old(trace) + [S.ShowLoading(S.Idle)])
    {
      currentError := Some(S.SaveFailureError(S.Details(t)));
      SetLoading(S.Idle);
    }

    method HandleReset()
      modifies this
      ensures State() == S.HandleReset(old(State()))
    {
      if !hasUnsavedChanges {
        return;
      }
      showResetConfirmation := true;
    }

    method CancelReset()
      modifies this
      ensures State() == S.CancelReset(old(State()))
    {
      showResetConfirmation := false;
    }

    /** `confirmReset`; `fault` is what `clearPhotoEditHistory` throws. */
    method ConfirmReset(fault: Option<S.Thrown>)
      modifies this
      ensures State() == S.ConfirmReset(old(State()), fault)
    {
      BeginReset();
      if fault.Some? {
        currentError := Some(S.ResetFailureError(S.Details(fault.value)));
        SetLoading(S.Idle);
      } else {
        ResetCompleted();
      }
    }

    /** `confirmReset` up to the store call. */
    method BeginReset()
      modifies this
      ensures State() == old(State()).(showResetConfirmation := false, loading := S.ResettingChanges,
                                       trace := old(trace) + [S.ShowLoading(S.ResettingChanges),
                                                              S.ClearPhotoEditHistory])
    {
      showResetConfirmation := false;
      SetLoading(S.ResettingChanges);
      trace := trace + [S.ClearPhotoEditHistory];
    }

    /** The local part of a successful reset. */
    method ResetCompleted()
      modifies this
      ensures State() == old(State()).(history := [], hasUnsavedChanges := false,
                                       loading := S.ResetComplete, pendingLoadingClear := true,
                                       trace := old(trace) + [S.ShowLoading(S.ResetComplete)])
    {
      history := [];
      hasUnsavedChanges := false;
      SetLoading(S.ResetComplete);
      pendingLoadingClear := true;
    }

    /** The effect that runs while the editor is open. */
    method EditorOpened()
      modifies this
      ensures State() == S.EditorOpened(old(State()))
    {
      if isOpen {
        hasUnsavedChanges := false;
        activeTab := Color;
        showCloseConfirmation := false;
        showResetConfirmation := false;
        currentError := None;
        SetLoading(S.Idle);
      }
    }

    method HandleSdkError(message: string)
      modifies this
      ensures State() == S.HandleSdkError(old(State()), message)
    {
      currentError := Some(S.SdkLoadError(message));
    }

    method HandleImageLoadError()
      modifies this
      ensures State() == S.HandleImageLoadError(old(State()))
    {
      currentError := Some(S.ImageLoadError(imageUrl));
    }

    /** The toast's dismiss. */
    method DismissError()
      modifies this
      ensures State() == S.DismissError(old(State()))
    {
      currentError := None;
    }

    /** The toast's retry: the current error's action, when it has one. */
    method Retry(parent: U.Element?, env: S.SaveEnv, resetFault: Option<S.Thrown>)
      requires S.ValidConfig(config)
      modifies this
      ensures State() == S.Retry(old(State()), SurfaceOf(parent), env, resetFault)
    {
      if currentError.None? || currentError.value.retryAction.None? {
        return;
      }
      match currentError.value.retryAction.value
      case RetrySave => HandleSave(parent, env);
      case RetryConfirmReset => ConfirmReset(resetFault);
      case ReloadPage => trace := trace + [S.PageReload];
      case DismissAndClose =>
        DismissError();
        ClosePhotoEditor();
    }

    /** A panel's change callback. */
    method MarkDirty()
      modifies this
      ensures State() == S.MarkDirty(old(State()))
    {
      hasUnsavedChanges := true;
    }

    /** `addPhotoEditOperation`. */
    method AddOperation(op: EditOperation)
      modifies this
      ensures State() == S.AddOperation(old(State()), op)
    {
      history := history + [op];
    }

    method SelectTab(tab: PhotoEditorTab)
      modifies this
      ensures State() == S.SelectTab(old(State()), tab)
    {
      activeTab := tab;
    }

    /** The 500 ms timer after a finished save or reset. */
    method LoadingTimerElapsed()
      modifies this
      ensures State() == S.LoadingTimerElapsed(old(State()))
    {
      if pendingLoadingClear {
        SetLoading(S.Idle);
        pendingLoadingClear := false;
      }
    }
  }
}
