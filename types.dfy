/** The records the photo editor exchanges (src/types/index.ts), and the tab
    type of its toolbar (src/components/PhotoEditorToolbar.tsx). */
module Types {
  import opened Wrappers

  /** The four kinds of editor error. */
  datatype ErrorKind = SdkLoad | ImageLoad | SaveFailure | Unknown

  /** What a Retry press runs. The source stores a closure in the error; the
      closures the modal builds are exactly these four. */
  datatype RetryAction =
    | RetrySave           // re-runs the save handler
    | RetryConfirmReset   // re-runs the confirmed reset
    | ReloadPage          // window.location.reload()
    | DismissAndClose     // clears the error, then closes the editor

  datatype PhotoEditorError = PhotoEditorError(
    kind: ErrorKind,
    message: string,
    recoverable: bool,
    retryAction: Option<RetryAction>,
    details: Option<string>)

  /** An operation appended to the editing history: `{type, parameters,
      timestamp}`; parameter values are slider positions. */
  datatype EditOperation = EditOperation(
    opType: string,
    parameters: map<string, int>,
    timestamp: int)

  datatype PhotoEditSession = PhotoEditSession(
    originalImageUrl: string,
    finalImageUrl: string,
    operations: seq<EditOperation>,
    duration: int)

  /** An `Asset` extended with type 'photo-edit' and its edit metadata. */
  datatype PhotoEditAsset = PhotoEditAsset(
    id: string,
    url: string,
    createdAt: string,
    assetType: string,
    photoEditMetadata: PhotoEditSession)

  /** A mask stroke of the generation side; its contents are never read
      here. */
  datatype BrushStroke = BrushStroke(id: string, points: seq<int>, brushSize: int)

  /** The editor's side-panel tabs, in toolbar order. */
  datatype PhotoEditorTab = Color | Transform | Filters | Export
}
