# NanoBananaEditor photo-editor core, modelled in Dafny

This project models the photo-editing session of NanoBananaEditor, a React
image generation and editing application, together with the input and
upload rules around it. The model covers these parts:

- **Export helpers** (`photo_editor_utils.dfy`). Choosing the output MIME
  type from the URL's extension, and the uniform downscale with truncated
  sides. Capturing the edit surface is an imperative method over `Canvas`
  and `Element` objects. Also here: building the edited-asset record with
  its `edited-<id>-<now>` id.
- **Editor session** (`session_spec.dfy`, `photo_editor_modal.dfy`). Every
  handler of the editor modal is a pure transition function on a `State`
  value: close and reset with their confirmation gates, the save sequence
  with its guard, checkpoints and catch block, the open effect, the error
  channel and retry. The outward calls the modal makes are recorded in a
  trace. The class `Editor` holds the same fields and runs each handler
  step by step in the source's order. Each of its methods is proved to
  leave exactly the state the matching function computes. The invariant
  `Valid` (every error is recoverable, with the retry of its kind) is
  proved for every handler and for any run of events.
- **Buttons, toast and colour panel** (`photo_editor_controls.dfy`,
  `error_notification.dfy`, `color_adjustment_panel.dfy`). The enable rules
  of the Reset/Save/Cancel buttons. What the error toast shows and whether
  it dismisses itself. The colour panel, whose slider changes append one
  operation to the editor's history and mark it dirty.
- **Input dispatch** (`photo_editor_keyboard_shortcuts.dfy`,
  `keyboard_shortcuts.dfy`, `touch_gestures.dfy`). The editor's shortcuts
  and tab cycling. The application's global shortcuts. The touch gesture
  recognizer, a class over its `touchStart` and `lastTap` state.
- **Generation side** (`app_store.dfy`, `image_uploader.dfy`,
  `prompt_composer.dfy`). The store fields these components use, as a class
  with one method per setter. The uploader's bounded image lists, data URLs
  and URL-import checks. The composer's reference extraction, dispatch of
  the generate button, template insertion, quality hint and session
  clearing.

`wrappers.dfy` holds `Option` and `Result`. `text.dfy` holds the JavaScript
string operations the source relies on: `includes`, `startsWith`,
`indexOf`, `split(sep)[1]`, `split('.').pop()`, `trim() === ''`,
`toLowerCase` and the decimal rendering of a non-negative integer.
`types.dfy` holds the records of `src/types/index.ts`.

Clock readings, the encoder's success, what a callback or store action
throws, and what a fetch returns are all parameters of the operations that
need them.

## Model

| member | source | states |
|---|---|---|
| Text.ToLower | src/utils/photoEditorUtils.ts:10 | lower-casing keeps the length and lower-cases each character on its own (ASCII capitals) |
| Text.LowerIsLetter | src/hooks/usePhotoEditorKeyboardShortcuts.ts:42 | a key lower-cases to the one-letter string c exactly when it is that letter or its capital |
| Text.LastSegment | src/utils/photoEditorUtils.ts:10 | the last segment after splitting on a character is a suffix without that character, preceded by it unless it is the whole string |
| Text.SplitSecond | src/components/PromptComposer.tsx:63 | `split(sep)[1]` is defined exactly when the separator occurs; it is the text starting just after the first occurrence and running up to the second occurrence, or to the end when there is none, and it holds no separator |
| Text.NatToDecimal | src/utils/photoEditorUtils.ts:72 | the decimal rendering of a non-negative integer is a non-empty string of digits |
| Text.DecimalRoundTrip | src/utils/photoEditorUtils.ts:72 | reading the decimal rendering back gives the number |
| Text.DecimalInjective | src/utils/photoEditorUtils.ts:72 | distinct numbers render differently |
| PhotoEditorUtils.Extension | src/utils/photoEditorUtils.ts:10 | the extension is the lower-cased text after the URL's last '.', holds no '.', and is the whole URL when there is no '.' |
| PhotoEditorUtils.GetOutputMimeType | src/utils/photoEditorUtils.ts:3-22 | a non-empty preferred format is returned unchanged; otherwise the result is JPEG, PNG or WebP |
| PhotoEditorUtils.ExtensionTable | src/utils/photoEditorUtils.ts:10-21 | without a preference: PNG iff the extension is png, WebP iff webp, JPEG for jpg, jpeg and every other extension |
| PhotoEditorUtils.LastSegmentOfJoin | src/utils/photoEditorUtils.ts:10 | the last segment of x '.' y is y when y has no '.' |
| PhotoEditorUtils.OutputMimeExample | src/utils/photoEditorUtils.ts:10-16 | only the text after the last dot counts and its case is ignored: ".final.PNG" gives image/png |
| PhotoEditorUtils.QueryHidesExtension | src/utils/photoEditorUtils.ts:10-20 | a query string after the extension makes it unknown, so JPEG is chosen |
| PhotoEditorUtils.Canvas.constructor | src/utils/photoEditorUtils.ts:97-99 | a new canvas has the size it is given |
| PhotoEditorUtils.Element.constructor | src/utils/photoEditorUtils.ts:91-92 | an element holds its canvas, if any, and its offset size |
| PhotoEditorUtils.GetCanvasFromElement | src/utils/photoEditorUtils.ts:91-101 | the element's own canvas when it has one, else a fresh canvas of the element's offset width and height |
| PhotoEditorUtils.CanvasSize | src/utils/photoEditorUtils.ts:44-45 | assigning a non-negative size truncates it to the integer just below |
| PhotoEditorUtils.ScaleFactor | src/utils/photoEditorUtils.ts:42 | the factor lies strictly between 0 and 1, is at most each side's limit/side ratio, and equals one of them |
| PhotoEditorUtils.ScaledSideBounds | src/utils/photoEditorUtils.ts:44-45 | a side scaled by that factor and truncated is within the limit and within the source side |
| PhotoEditorUtils.Downscale | src/utils/photoEditorUtils.ts:41-48 | the resized surface fits the box and is no larger than the source on either side |
| PhotoEditorUtils.FinalDimensions | src/utils/photoEditorUtils.ts:41-62 | without a box, or when the source fits it, the size is the source's; otherwise it fits the box; never larger than the source |
| PhotoEditorUtils.DownscaleExample | src/utils/photoEditorUtils.ts:41-45 | 400×200 in a 100×100 box gives 100×50 |
| PhotoEditorUtils.CaptureSpec | src/utils/photoEditorUtils.ts:33-64 | succeeds iff drawImage does not throw (it is reached only for a surface over the box and throws when that surface has a zero side), toDataURL does not throw (a tainted surface), and a blob comes back, which never happens for a final size with a zero side; failures carry the first thrown message, else 'Failed to create blob from canvas'; data URL and blob use the same MIME type, the same quality/100 and the final size |
| PhotoEditorUtils.ZeroSideCaptures | src/utils/photoEditorUtils.ts:41-56 | 0×500 in a 100×100 box fails with drawImage's exception; 0×50 fits and fails with the blob rejection |
| PhotoEditorUtils.CaptureEditedImageWithOptions | src/utils/photoEditorUtils.ts:33-64 | the method's result is the capture specification of the element's surface |
| PhotoEditorUtils.CaptureEditedImage | src/utils/photoEditorUtils.ts:24-31 | JPEG and 0.92 by default; the quality is passed on as given, not divided by 100; fails exactly with toDataURL's exception on a tainted surface |
| PhotoEditorUtils.EditedAssetIdRoundTrip | src/utils/photoEditorUtils.ts:72 | the edited-asset id parses back to the original id and the instant |
| PhotoEditorUtils.EditedAssetIdInjective | src/utils/photoEditorUtils.ts:72 | two ids are equal only for the same original id and instant |
| PhotoEditorUtils.CreatePhotoEditAsset | src/utils/photoEditorUtils.ts:66-89 | id `edited-<id>-<now>`, type 'photo-edit', url and final URL the object URL, operations the given history, original URL '' and duration 0 |
| SessionSpec.BuiltErrorsAreModal | src/components/PhotoEditorModal.tsx:82-239 | each of the five errors the modal builds is recoverable and carries the retry of its kind |
| SessionSpec.AfterStoreStage | src/components/PhotoEditorModal.tsx:131-141 | once the store has the edit, the rest of the save is the onSave step from the state the store left |
| SessionSpec.UiStep | src/components/PhotoEditorModal.tsx:66-242 | every simple interface handler keeps a valid state valid, the configuration fixed and every call already made |
| SessionSpec.DialogStep | src/components/PhotoEditorModal.tsx:428-446 | the confirmation dialogs' buttons keep the invariant |
| SessionSpec.EditStep | src/components/PhotoEditorModal.tsx:347-397 | the panels' edits and the tab bar keep the invariant |
| SessionSpec.LifecycleStep | src/components/PhotoEditorModal.tsx:196-242 | opening, load failures, the toast's dismiss and the loading timer keep the invariant |
| SessionSpec.Step | src/components/PhotoEditorModal.tsx:66-242 | every handler, save, confirmed reset and retry included, keeps the invariant |
| SessionSpec.StoreFilters | src/components/PhotoEditorModal.tsx:94-131 | up to the store call a save emits progress 0, 20, 40, 70, 90 and makes exactly one outward call, savePhotoEdit with the asset and the session |
| SessionSpec.NotifyFilters | src/components/PhotoEditorModal.tsx:94-136 | with onSave given, the outward calls are savePhotoEdit and then onSave with the asset's URL and metadata |
| SessionSpec.SaveGuard | src/components/PhotoEditorModal.tsx:81-92 | without a URL or container only one recoverable save-failure error is set, retry save, details 'Missing image URL' (checked first) or 'Missing parent element reference' |
| SessionSpec.SaveSuccess | src/components/PhotoEditorModal.tsx:94-141 | a successful save emits 0, 20, 40, 70, 90, 100, leaves the loading clear pending, calls savePhotoEdit once, then onSave once if given, and changes nothing else |
| SessionSpec.SaveCaptureFailure | src/components/PhotoEditorModal.tsx:94-157 | a save whose capture throws or rejects sets the save-failure error with the capture's own message as details and turns loading off, after emitting only 0, 20, 40 and making no outward call |
| SessionSpec.SaveFails | src/components/PhotoEditorModal.tsx:144-157 | a failure after the guard sets a recoverable save-failure error with retry save and the thrown message, turns loading off, and emits only an increasing prefix of the checkpoints |
| SessionSpec.SaveFailsAtCatch | src/components/PhotoEditorModal.tsx:144-157 | every failing save ends in the catch block, with details the message of what was thrown |
| SessionSpec.FailedKeepsValid | src/components/PhotoEditorModal.tsx:144-157 | the catch block keeps the invariant and the calls made |
| SessionSpec.FailedTrace | src/components/PhotoEditorModal.tsx:144-157 | the catch block only adds the calls made before it and the idle projection |
| SessionSpec.CheckpointsIncrease | src/components/PhotoEditorModal.tsx:94-138 | every prefix of the save checkpoints is strictly increasing |
| SessionSpec.DurationCases | src/components/PhotoEditorModal.tsx:127 | the duration is 0 for an empty history or a first timestamp of 0, otherwise now minus the first timestamp |
| SessionSpec.OnSaveGetsAssetMetadata | src/components/PhotoEditorModal.tsx:134-136 | onSave receives the asset's metadata: original URL '', duration 0, the history, and an id naming the original asset and the instant |
| SessionSpec.CloseGate | src/components/PhotoEditorModal.tsx:66-77 | close while dirty and idle only raises the confirmation; otherwise it closes at once; confirming clears the flag and closes |
| SessionSpec.CloseThenCancel | src/components/PhotoEditorModal.tsx:66-72 | asking to close a dirty editor and cancelling leaves it open, dirty, with its history and no call made |
| SessionSpec.ResetClears | src/components/PhotoEditorModal.tsx:161-179 | reset on a clean editor does nothing; a confirmed reset clears history and dirty flag, keeps the image, emits 0 then 100 and calls clearPhotoEditHistory once |
| SessionSpec.ResetFailure | src/components/PhotoEditorModal.tsx:180-193 | a failing reset sets a recoverable 'unknown' error with retry confirmReset and turns loading off |
| SessionSpec.OpenResets | src/components/PhotoEditorModal.tsx:197-208 | opening clears the dirty flag, both dialogs, the error and loading, selects the color tab, and keeps the history |
| SessionSpec.DirtyIsNotHistory | src/components/PhotoEditorModal.tsx:196-208 | a panel change dirties an empty history, and opening cleans a non-empty one |
| SessionSpec.SavePreserves | src/components/PhotoEditorModal.tsx:80-158 | a save keeps the invariant and every call already made |
| SessionSpec.GuardPreserves | src/components/PhotoEditorModal.tsx:81-92 | the guard path keeps the invariant |
| SessionSpec.SuccessPreserves | src/components/PhotoEditorModal.tsx:94-141 | the success path keeps the invariant |
| SessionSpec.CatchPreserves | src/components/PhotoEditorModal.tsx:144-157 | the failure path keeps the invariant |
| SessionSpec.ResetPreserves | src/components/PhotoEditorModal.tsx:166-194 | a confirmed reset keeps the invariant |
| SessionSpec.RetryPreserves | src/components/PhotoEditorModal.tsx:455-459 | running the current error's retry keeps the invariant |
| SessionSpec.LeaveEditorPreserves | src/components/PhotoEditorModal.tsx:218-237 | reloading, or clearing the error and closing, keeps the invariant |
| SessionSpec.ClosePreserves | src/components/PhotoEditorModal.tsx:66-77 | close and the store's close keep the invariant |
| SessionSpec.OpenedPreserves | src/components/PhotoEditorModal.tsx:197-208 | the open effect keeps the invariant |
| SessionSpec.TimerPreserves | src/components/PhotoEditorModal.tsx:139-141 | the 500 ms timer keeps the invariant |
| SessionSpec.RunInvariant | src/components/PhotoEditorModal.tsx:66-242 | over any sequence of events the state stays valid and the recorded calls only grow |
| SessionSpec.NotificationNeverAutoHides | src/components/PhotoEditorModal.tsx:452-461 | in every valid state the toast starts no dismiss timer and offers Retry, and Retry has an action to run |
| SessionSpec.ControlsWhileLoading | src/components/PhotoEditorModal.tsx:277-284 | while loading, Save, Reset and Cancel are disabled; idle with changes, Save and Reset are enabled |
| PhotoEditorModal.Editor.constructor | src/components/PhotoEditorModal.tsx:33-63 | an editor open on an image with no history, no error and nothing loading, which is valid |
| PhotoEditorModal.Editor.SetLoading | src/components/PhotoEditorModal.tsx:94 | the loading projection is replaced and emitted |
| PhotoEditorModal.Editor.ClosePhotoEditor | src/components/PhotoEditorModal.tsx:71 | the store's close |
| PhotoEditorModal.Editor.HandleClose | src/components/PhotoEditorModal.tsx:66-72 | leaves the state SessionSpec.HandleClose gives |
| PhotoEditorModal.Editor.ConfirmClose | src/components/PhotoEditorModal.tsx:74-77 | leaves the state SessionSpec.ConfirmClose gives |
| PhotoEditorModal.Editor.CancelClose | src/components/PhotoEditorModal.tsx:430 | clears the close confirmation |
| PhotoEditorModal.Editor.HandleSave | src/components/PhotoEditorModal.tsx:80-158 | leaves the state SessionSpec.HandleSave gives for the container's surface |
| PhotoEditorModal.Editor.SaveNotReady | src/components/PhotoEditorModal.tsx:81-92 | the guard branch agrees with the save function |
| PhotoEditorModal.Editor.SaveReady | src/components/PhotoEditorModal.tsx:94-157 | the try block agrees with the save function |
| PhotoEditorModal.Editor.StartSave | src/components/PhotoEditorModal.tsx:94-109 | three projections emitted, the output MIME chosen from the URL, and a capture whose outcome is the capture specification of the container's surface in that format, quality and box |
| PhotoEditorModal.Editor.CaptureFailed | src/components/PhotoEditorModal.tsx:144-157 | after a failing capture the catch block sets the save-failure error for what was thrown and turns loading off, on top of the three start projections |
| PhotoEditorModal.Editor.FinishSave | src/components/PhotoEditorModal.tsx:111-157 | after the capture the save reaches the state SessionSpec.SaveCaptured gives |
| PhotoEditorModal.Editor.StoreFailed | src/components/PhotoEditorModal.tsx:144-157 | a throwing savePhotoEdit ends in the catch block |
| PhotoEditorModal.Editor.StoreEdit | src/components/PhotoEditorModal.tsx:111-131 | builds the asset, whose id takes the first clock reading, and hands it with the session record, whose duration takes the later reading, to savePhotoEdit after the 70 and 90 projections |
| PhotoEditorModal.Editor.SaveRecord | src/components/PhotoEditorModal.tsx:122-131 | the session record: original URL, the asset's URL, the history and the duration measured at a clock reading taken after the asset was made |
| PhotoEditorModal.Editor.AfterStore | src/components/PhotoEditorModal.tsx:133-141 | the rest of the save after the store call |
| PhotoEditorModal.Editor.NotifySaved | src/components/PhotoEditorModal.tsx:133-141 | onSave, then "Save complete!" or the catch block when onSave throws |
| PhotoEditorModal.Editor.CallOnSave | src/components/PhotoEditorModal.tsx:134-136 | onSave is called only when given |
| PhotoEditorModal.Editor.SaveFailed | src/components/PhotoEditorModal.tsx:147-156 | sets the save-failure error with the thrown message and turns loading off |
| PhotoEditorModal.Editor.HandleReset | src/components/PhotoEditorModal.tsx:161-164 | leaves the state SessionSpec.HandleReset gives |
| PhotoEditorModal.Editor.CancelReset | src/components/PhotoEditorModal.tsx:441 | clears the reset confirmation |
| PhotoEditorModal.Editor.ConfirmReset | src/components/PhotoEditorModal.tsx:166-194 | leaves the state SessionSpec.ConfirmReset gives |
| PhotoEditorModal.Editor.BeginReset | src/components/PhotoEditorModal.tsx:167-172 | hides the dialog, emits "Resetting changes..." at 0 and calls clearPhotoEditHistory |
| PhotoEditorModal.Editor.ResetCompleted | src/components/PhotoEditorModal.tsx:172-177 | history and dirty flag cleared, "Reset complete!" at 100, clear pending |
| PhotoEditorModal.Editor.EditorOpened | src/components/PhotoEditorModal.tsx:197-208 | leaves the state SessionSpec.EditorOpened gives |
| PhotoEditorModal.Editor.HandleSdkError | src/components/PhotoEditorModal.tsx:211-225 | sets the recoverable sdk-load error whose retry reloads the page |
| PhotoEditorModal.Editor.HandleImageLoadError | src/components/PhotoEditorModal.tsx:228-242 | sets the recoverable image-load error naming the URL, whose retry clears it and closes (the source never wires this handler up; see "Left out") |
| PhotoEditorModal.Editor.DismissError | src/components/PhotoEditorModal.tsx:454 | the error is set to none |
| PhotoEditorModal.Editor.Retry | src/components/PhotoEditorModal.tsx:455-459 | runs the current error's retry action only when there is one |
| PhotoEditorModal.Editor.MarkDirty | src/components/PhotoEditorModal.tsx:350 | sets the unsaved-changes flag |
| PhotoEditorModal.Editor.AddOperation | src/components/ColorAdjustmentPanel.tsx:28-32 | appends the operation to the history |
| PhotoEditorModal.Editor.SelectTab | src/components/PhotoEditorModal.tsx:270 | sets the active tab |
| PhotoEditorModal.Editor.LoadingTimerElapsed | src/components/PhotoEditorModal.tsx:139-141 | the pending loading clear turns loading off |
| PhotoEditorControls.Enablement | src/components/PhotoEditorControls.tsx:24-45 | Reset iff changes, not saving, not resetting; Save iff changes and not saving; Cancel iff not saving, whatever the changes; Reset enabled implies Save enabled; label 'Saving...' iff saving |
| ErrorNotification.Render | src/components/ErrorNotification.tsx:30-59 | nothing iff no error; the message, the details only when non-empty, Retry iff recoverable with a handler, and always a dismiss button |
| ErrorNotification.DismissTimer | src/components/ErrorNotification.tsx:21-28 | a timer is started iff an error is present and auto-hide is on, after the given duration or 5000 ms |
| ErrorNotification.DefaultsDismissAfterFiveSeconds | src/components/ErrorNotification.tsx:18-28 | with the defaults an error is dismissed after 5000 ms |
| ColorAdjustmentPanel.WithValue | src/components/ColorAdjustmentPanel.tsx:25 | the named adjustment takes the value and the other three are unchanged |
| ColorAdjustmentPanel.ColorOperation | src/components/ColorAdjustmentPanel.tsx:28-32 | type 'color-adjustment', parameters only name ↦ value, the clock reading |
| ColorAdjustmentPanel.WithValueOverwrites | src/components/ColorAdjustmentPanel.tsx:25 | a second change of the same adjustment overrides the first; setting the current value changes nothing |
| ColorAdjustmentPanel.WithValueCommutes | src/components/ColorAdjustmentPanel.tsx:25 | changes to different adjustments commute |
| ColorAdjustmentPanel.KeyNamesDistinct | src/components/ColorAdjustmentPanel.tsx:30 | distinct adjustments are recorded under distinct names |
| ColorAdjustmentPanel.SliderIndex | src/components/ColorAdjustmentPanel.tsx:36-41 | each adjustment's slider is at its position in the table |
| ColorAdjustmentPanel.SliderTable | src/components/ColorAdjustmentPanel.tsx:36-41 | four sliders, one per adjustment; blur 0..100, the others -100..100 |
| ColorAdjustmentPanel.Panel.constructor | src/components/ColorAdjustmentPanel.tsx:17-22 | all four adjustments start at 0 |
| ColorAdjustmentPanel.Panel.HandleValueChange | src/components/ColorAdjustmentPanel.tsx:24-34 | the new record, then one operation appended to the editor, then the editor marked dirty |
| ColorAdjustmentPanel.ValueChangedEffect | src/components/ColorAdjustmentPanel.tsx:24-34 | a change appends exactly one operation carrying only the changed value, marks the editor dirty and changes nothing else |
| ColorAdjustmentPanel.ValueChangedPreserves | src/components/ColorAdjustmentPanel.tsx:24-34 | a change keeps the editor valid and makes no outward call |
| PhotoEditorKeyboardShortcuts.TabIndex | src/hooks/usePhotoEditorKeyboardShortcuts.ts:65-66 | the tab's position in color, transform, filters, export |
| PhotoEditorKeyboardShortcuts.NextTab | src/hooks/usePhotoEditorKeyboardShortcuts.ts:69 | Tab moves to position (i + 1) mod 4 |
| PhotoEditorKeyboardShortcuts.PrevTab | src/hooks/usePhotoEditorKeyboardShortcuts.ts:68 | Shift+Tab moves to position (i + 3) mod 4 |
| PhotoEditorKeyboardShortcuts.TabIndexInjective | src/hooks/usePhotoEditorKeyboardShortcuts.ts:65 | distinct tabs have distinct positions |
| PhotoEditorKeyboardShortcuts.NextPrevInverse | src/hooks/usePhotoEditorKeyboardShortcuts.ts:65-70 | Shift+Tab undoes Tab and Tab undoes Shift+Tab |
| PhotoEditorKeyboardShortcuts.TabCycle | src/hooks/usePhotoEditorKeyboardShortcuts.ts:65-70 | four Tabs are the identity and fewer are not; Shift+Tab is three Tabs |
| PhotoEditorKeyboardShortcuts.HandleKeyDown | src/hooks/usePhotoEditorKeyboardShortcuts.ts:37-73 | disabled ignores everything; tab changes need Tab without modifiers; save and reset need Cmd/Ctrl; reset needs changes; help needs '?'; every action prevents the default |
| PhotoEditorKeyboardShortcuts.SaveShortcut | src/hooks/usePhotoEditorKeyboardShortcuts.ts:41-46 | with Cmd/Ctrl, saving happens iff the key is s or S, whatever the changes |
| PhotoEditorKeyboardShortcuts.ResetShortcut | src/hooks/usePhotoEditorKeyboardShortcuts.ts:47-54 | Cmd/Ctrl+R resets only with changes and is swallowed either way; any other modified key does nothing |
| PhotoEditorKeyboardShortcuts.UnmodifiedKeys | src/hooks/usePhotoEditorKeyboardShortcuts.ts:57-72 | Tab and Shift+Tab move one tab forwards and back, '?' shows help, every other key is ignored |
| PhotoEditorKeyboardShortcuts.ShortcutTable | src/hooks/usePhotoEditorKeyboardShortcuts.ts:28-34 | five shortcuts with distinct keys |
| TouchGestures.Resolve | src/hooks/useTouchGestures.ts:26-34 | omitted options default to thresholds 50 and 300 with every gesture enabled |
| TouchGestures.Classify | src/hooks/useTouchGestures.ts:54-70 | horizontal swipe iff enabled, |dx| over the threshold and under 500 ms, right iff dx > 0; vertical only when not horizontal, down iff dy > 0; otherwise double tap iff enabled within the threshold of the last tap, else tap if enabled |
| TouchGestures.Fired | src/hooks/useTouchGestures.ts:58-68 | at most one callback, the gesture's, and only when it is given |
| TouchGestures.Recognizer.constructor | src/hooks/useTouchGestures.ts:26-37 | options resolved, no start, last tap 0 |
| TouchGestures.Recognizer.HandleTouchStart | src/hooks/useTouchGestures.ts:43-48 | a start is recorded only for one-finger touches |
| TouchGestures.Recognizer.HandleTouchEnd | src/hooks/useTouchGestures.ts:50-73 | no start: nothing; otherwise the classified gesture's callback if given, last tap set to now only for a press, and the start cleared |
| TouchGestures.DefaultClassification | src/hooks/useTouchGestures.ts:26-59 | with the defaults a drag of more than 50 right within 500 ms is a right swipe |
| TouchGestures.DoubleTapWindow | src/hooks/useTouchGestures.ts:62-65 | with the defaults a press within 300 ms of the last is a double tap |
| TouchGestures.SwipeDisabled | src/hooks/useTouchGestures.ts:58-62 | with swipes disabled every end is a press |
| TouchGestures.SwipeDirection | src/hooks/useTouchGestures.ts:58-61 | the reported direction agrees with the sign of the movement along the axis tested |
| KeyboardShortcuts.UploadPayloads | src/hooks/useKeyboardShortcuts.ts:33 | one entry per upload, its `split('base64,')[1]` |
| KeyboardShortcuts.HandleKeyDown | src/hooks/useKeyboardShortcuts.ts:21-68 | inside a text field the store is unchanged and only the generation request is possible; prompt, uploads, seed and temperature are never changed |
| KeyboardShortcuts.TextFieldGuard | src/hooks/useKeyboardShortcuts.ts:23-38 | in a text field generation starts iff Cmd/Ctrl+Enter, not generating and the prompt not blank; the default is prevented iff Cmd/Ctrl+Enter |
| KeyboardShortcuts.ShortcutRequestContents | src/hooks/useKeyboardShortcuts.ts:29-34 | the request keeps seed and prompt as they are, with one reference per upload, undefined exactly for uploads without the marker |
| KeyboardShortcuts.ToolKeys | src/hooks/useKeyboardShortcuts.ts:40-52 | e, g and m in either case select edit, generate and mask |
| KeyboardShortcuts.TogglesInvolutive | src/hooks/useKeyboardShortcuts.ts:53-60 | h and p flip their panel flag and pressing twice restores the store |
| KeyboardShortcuts.OtherKeys | src/hooks/useKeyboardShortcuts.ts:61-67 | r and unlisted keys change nothing; only Shift+R prevents the default |
| AppStore.Store.constructor | src/components/ImageUploader.tsx:9-20 | a store holding the given fields |
| AppStore.Store.AddUploadedImage | src/components/ImageUploader.tsx:30 | appends to the uploads, nothing else changes |
| AppStore.Store.ClearUploadedImages | src/components/ImageUploader.tsx:40 | empties the uploads, nothing else changes |
| AppStore.Store.AddEditReferenceImage | src/components/ImageUploader.tsx:34 | appends to the edit references, nothing else changes |
| AppStore.Store.ClearEditReferenceImages | src/components/PromptComposer.tsx:79 | empties the edit references, nothing else changes |
| AppStore.Store.SetCanvasImage | src/components/ImageUploader.tsx:37 | sets the canvas image, nothing else changes |
| AppStore.Store.ClearBrushStrokes | src/components/PromptComposer.tsx:80 | empties the strokes, nothing else changes |
| AppStore.Store.SetCurrentPrompt | src/components/PromptComposer.tsx:77 | sets the prompt, nothing else changes |
| AppStore.Store.SetSeed | src/components/PromptComposer.tsx:82 | sets the seed, nothing else changes |
| AppStore.Store.SetTemperature | src/components/PromptComposer.tsx:83 | sets the temperature, nothing else changes |
| ImageUploader.DataUrl | src/components/ImageUploader.tsx:51 | `data:<type>;base64,<payload>`, of the combined length |
| ImageUploader.ProcessedBounds | src/components/ImageUploader.tsx:27-44 | generate appends only below two uploads; edit appends only below two references and sets the canvas only when there is none; mask makes the uploads exactly the image and the canvas the image; lists never pass two; nothing else changes |
| ImageUploader.UploadDisabledMeansFull | src/components/ImageUploader.tsx:168-171 | the upload button is disabled iff an image processed now would not be added to the mode's list |
| ImageUploader.DataUrlPayload | src/components/ImageUploader.tsx:51 | `split('base64,')[1]` of a data URL gives back its payload when neither type nor payload holds the marker |
| ImageUploader.UrlImportOutcomes | src/components/ImageUploader.tsx:86-117 | fetches iff the URL is not blank; succeeds iff the response is ok, has an image content type and a readable blob; only success changes the store and clears the field; each failure's message |
| ImageUploader.EnabledImportFetches | src/components/ImageUploader.tsx:151 | an enabled import button always fetches |
| ImageUploader.Uploader.constructor | src/components/ImageUploader.tsx:23-24 | empty URL field and no error |
| ImageUploader.Uploader.HandleImageProcessing | src/components/ImageUploader.tsx:27-44 | leaves the store as ImageUploader.Processed gives |
| ImageUploader.Uploader.HandleFile | src/components/ImageUploader.tsx:46-58 | a non-image file changes nothing; an unreadable one only sets 'Failed to process file.'; otherwise its data URL is processed and the error cleared |
| ImageUploader.Uploader.HandleUrlImport | src/components/ImageUploader.tsx:86-117 | store, error and field as the import outcome gives; the URL is fetched only when not blank |
| PromptComposer.ReferenceImages | src/components/PromptComposer.tsx:61-63 | no longer than the uploads, as long when every upload has the marker, and no reference holds the marker |
| PromptComposer.Defined | src/components/PromptComposer.tsx:61-63 | dropping undefined entries never lengthens a list |
| PromptComposer.ReferenceImagesAppend | src/components/PromptComposer.tsx:61-63 | the references of two lists put together are the references of each, in order |
| PromptComposer.ReferencesAreDefinedPayloads | src/components/PromptComposer.tsx:61-63 | the composer's references are the global shortcut's reference list with its undefined entries dropped |
| PromptComposer.UploadedPayloadIsReference | src/components/PromptComposer.tsx:61-63 | an image the uploader adds in generate mode comes back as exactly its payload at the end of the references |
| PromptComposer.TruthySeed | src/components/PromptComposer.tsx:69 | `seed \|\| undefined` keeps a seed iff it is present and non-zero |
| PromptComposer.HandleGenerate | src/components/PromptComposer.tsx:57-74 | nothing iff the prompt is blank; a generation iff generate mode, with untrimmed prompt, temperature, truthy seed, and references undefined iff there are none; otherwise an edit with the untrimmed prompt |
| PromptComposer.GenerateReferences | src/components/PromptComposer.tsx:61-67 | the generation's reference entries are exactly the reference list, entry by entry, each one defined (so none is undefined) |
| PromptComposer.SeedZeroDiffers | src/components/PromptComposer.tsx:69 | for seed 0 the button drops the seed while Cmd/Ctrl+Enter passes it on; prompt and temperature agree |
| PromptComposer.EnabledButtonDispatches | src/components/PromptComposer.tsx:234-237 | an enabled generate button always starts something, a generation iff generate mode |
| PromptComposer.InsertTemplate | src/components/PromptComposer.tsx:197-204 | nothing without template content |
| PromptComposer.InsertKeepsPrompt | src/components/PromptComposer.tsx:200 | the result starts with the prompt and ends with the template, with a blank line between exactly when the prompt is not empty |
| PromptComposer.PromptQuality | src/components/PromptComposer.tsx:218-228 | 'Add detail' iff under 20 characters, 'Excellent' iff at least 50, 'Good' between |
| PromptComposer.QualityMonotone | src/components/PromptComposer.tsx:218-228 | typing more never lowers the hint |
| PromptComposer.InsertNeverLowersQuality | src/components/PromptComposer.tsx:197-228 | inserting a template never lowers the hint |
| PromptComposer.Cleared | src/components/PromptComposer.tsx:76-85 | clearing keeps the tool, the panels and the generating flag |
| PromptComposer.ClearedSettles | src/components/PromptComposer.tsx:76-85 | clearing twice is clearing once; afterwards the generate button does nothing, uploads are accepted again and there are no references |
| PromptComposer.Composer.constructor | src/components/PromptComposer.tsx:45 | the confirmation box starts closed |
| PromptComposer.Composer.ToggleClearConfirm | src/components/PromptComposer.tsx:263 | the Clear Session button flips the confirmation box |
| PromptComposer.Composer.CancelClear | src/components/PromptComposer.tsx:287 | Cancel closes the box |
| PromptComposer.Composer.HandleClearSession | src/components/PromptComposer.tsx:76-85 | the store becomes the cleared state (empty prompt, uploads, references and strokes, no canvas or seed, temperature 0.7) and the box closes |
| PromptComposer.Composer.HandleInsert | src/components/PromptComposer.tsx:197-203 | with a template the prompt becomes the insertion; without one nothing changes |

## Left out

- Canvas pixel work: `querySelector`, `drawImage`, `toDataURL`/`toBlob` encoding, `URL.createObjectURL`, `new Date().toISOString()` and `blobToBase64` are browser calls. Only sizes, the MIME type and the quality are modelled. What the browser decides is a parameter (`Browser`): the messages `drawImage` and `toDataURL` throw with, whether the surface is tainted, and whether the encoder yields a blob. So are the object URL, the creation time and the base64 payload.
- `fetch` and the response's headers and blob are parameters (`FetchOutcome`). `src/hooks/usePromptTemplates.ts` is not part of this model: the template's JSON text is a parameter of the insertion.
- The third-party editor SDK, the error boundary, the App effects, listener registration and console logging are not modelled. `window.location.reload` is a recorded `PageReload` call.
- Timers: the 500 ms loading clear is a `pendingLoadingClear` flag with a `LoadingTimerElapsed` handler. The toast's auto-dismiss timer is the delay `DismissTimer` returns.
- Handlers are atomic. Overlapping saves are not modelled, and neither are React's stale closures: a retry closure is a tag run against the current state.
- The store's own source is not part of this model. Its setters are plain field assignments or list updates. `savePhotoEdit` is a recorded call. `clearPhotoEditHistory` clears the history and the unsaved-changes flag, as the comment at src/components/PhotoEditorModal.tsx:171 says.
- `removeUploadedImage`/`removeEditReferenceImage`, the drag-over flag, the advanced-controls and hints toggles, tool buttons and all JSX markup are presentation and not modelled. The transform and export panels are modelled only through the change callback they share (`MarkDirty`).
- Floating point: the downscale factor is an exact `real`. IEEE doubles can round a side differently at edge cases. Temperature is a `real` stored as given. Seeds and touch coordinates are integers, so a NaN seed is not modelled.
- PhotoEditorUtils.FinalDimensions: requires both sides of `maxDimensions` to be positive. Other boxes are not modelled. With a zero side, the factor at src/utils/photoEditorUtils.ts:42 is 0 and the resized canvas is 0×0. `drawImage` still succeeds and the capture then rejects with 'Failed to create blob from canvas'. A zero box side against a zero surface side gives 0/0, which is NaN. With a negative side the factor is negative, and the canvas's unsigned size setter wraps it modulo 2^32. No source file sets `maxDimensions`: it reaches the capture from the store's `editorConfig` (src/components/PhotoEditorModal.tsx:108). The same requirement appears in CaptureSpec, CaptureEditedImageWithOptions and SessionSpec.ValidConfig.
- Text.ToLower: lower-cases ASCII letters only. Every key it is compared with is an ASCII letter, and no non-ASCII character lower-cases to one of those letters.
- PromptComposer.PromptQuality: counts characters, whereas JavaScript's `length` counts UTF-16 code units.
- SessionSpec.Duration: `Date.now()` is read twice in one expression at src/components/PhotoEditorModal.tsx:127; the model takes one reading for both. That reading (`sessionNow`) is separate from the one the asset id takes inside `createPhotoEditAsset` (`assetNow`); the model does not relate the two.
- PhotoEditorModal.Editor.HandleImageLoadError: `handleImageLoadError` (src/components/PhotoEditorModal.tsx:228) is defined but no JSX in the modal refers to it. The model makes it reachable through the `ImageFailed` event, so what is proved about it holds for a handler the source never calls.
- TouchGestures.Recognizer.HandleTouchEnd: takes one clock reading for `deltaTime` and `now`, which the source reads separately at src/hooks/useTouchGestures.ts:56 and 63. It also assumes the end event has a changed touch.
- ColorAdjustmentPanel.Panel.HandleValueChange: does not check the slider bounds, like the source. `WithinSlider` only names them.
