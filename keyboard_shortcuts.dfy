/** The application's global keyboard shortcuts
    (src/hooks/useKeyboardShortcuts.ts): a key press either starts a
    generation (Cmd/Ctrl+Enter inside a text field) or switches the tool or
    toggles a panel. The effect of a press is computed from the store's
    fields and the event; the store setter calls it makes are applied to
    the returned state. */
module KeyboardShortcuts {
  import opened Wrappers
  import opened Text
  import opened AppStore

  /** Where the event was dispatched: an `<input>`, a `<textarea>`, or any
      other element. */
  datatype Target = InputElement | TextAreaElement | OtherElement

  datatype KeyEvent = KeyEvent(key: string, metaKey: bool, ctrlKey: bool, shiftKey: bool, target: Target)

  /** The store after the press, the generation started if any, and whether
      `preventDefault` is called. */
  datatype Outcome = Outcome(store: StoreState, request: Option<GenerationRequest>, preventDefault: bool)

  predicate InTextField(e: KeyEvent) {
    e.target == InputElement || e.target == TextAreaElement
  }

  /** `uploadedImages.map(img => img.split('base64,')[1])`: every upload,
      in order, without filtering. */
  function UploadPayloads(uploads: seq<string>): (r: seq<Option<string>>)
    ensures |r| == |uploads|
    ensures forall i :: 0 <= i < |uploads| ==> r[i] == SplitSecond(uploads[i], Base64Marker)
  {
    seq(|uploads|, i requires 0 <= i < |uploads| => SplitSecond(uploads[i], Base64Marker))
  }

  /** The request Cmd/Ctrl+Enter makes: the untrimmed prompt, `seed ??
      undefined` (which keeps a seed of 0), the temperature, and the upload
      payloads. */
  function ShortcutRequest(st: StoreState): GenerationRequest {
    GenerationRequest(st.currentPrompt, Some(UploadPayloads(st.uploadedImages)), st.temperature, st.seed)
  }

  /** `handleKeyDown`. */
  function HandleKeyDown(st: StoreState, e: KeyEvent): (r: Outcome)
    ensures InTextField(e) ==> r.store == st
    ensures r.request.Some? ==> InTextField(e) && r.request == Some(ShortcutRequest(st))
    ensures r.store.currentPrompt == st.currentPrompt && r.store.uploadedImages == st.uploadedImages
            && r.store.seed == st.seed && r.store.temperature == st.temperature
  {
    if InTextField(e) then
      if (e.metaKey || e.ctrlKey) && e.key == "Enter" then
        Outcome(st, if !st.isGenerating && !Blank(st.currentPrompt) then Some(ShortcutRequest(st)) else None, true)
      else
        Outcome(st, None, false)
    else
      var k := ToLower(e.key);
      if k == "e" then Outcome(st.(selectedTool := EditTool), None, true)
      else if k == "g" then Outcome(st.(selectedTool := GenerateTool), None, true)
      else if k == "m" then Outcome(st.(selectedTool := MaskTool), None, true)
      else if k == "h" then Outcome(st.(showHistory := !st.showHistory), None, true)
      else if k == "p" then Outcome(st.(showPromptPanel := !st.showPromptPanel), None, true)
      else if k == "r" then Outcome(st, None, e.shiftKey)
      else Outcome(st, None, false)
  }

  /** Inside a text field only Cmd/Ctrl+Enter acts, and it generates
      exactly when nothing is being generated and the trimmed prompt is not
      empty. */
  lemma TextFieldGuard(st: StoreState, e: KeyEvent)
    requires InTextField(e)
    ensures var r := HandleKeyDown(st, e);
            r.store == st
            && (r.request.Some? <==>
                  (e.metaKey || e.ctrlKey) && e.key == "Enter" && !st.isGenerating && !Blank(st.currentPrompt))
            && (r.preventDefault <==> (e.metaKey || e.ctrlKey) && e.key == "Enter")
  {
  }

  /** The shortcut's request keeps a seed of 0 and an absent seed stays
      absent; its reference list has one entry per upload, the payload
      after the marker for a data URL and `undefined` for an entry without
      the marker. */
  lemma ShortcutRequestContents(st: StoreState)
    ensures var q := ShortcutRequest(st);
            q.seed == st.seed && q.prompt == st.currentPrompt
            && q.referenceImages.Some? && |q.referenceImages.value| == |st.uploadedImages|
            && forall i :: 0 <= i < |st.uploadedImages| ==>
                 (q.referenceImages.value[i].None? <==> !Contains(st.uploadedImages[i], Base64Marker))
  {
  }

  /** Outside text fields, e, g and m pick the edit, generate and mask
      tools whatever the case. */
  lemma ToolKeys(st: StoreState, e: KeyEvent)
    requires !InTextField(e)
    ensures e.key in {"e", "E"} ==> HandleKeyDown(st, e) == Outcome(st.(selectedTool := EditTool), None, true)
    ensures e.key in {"g", "G"} ==> HandleKeyDown(st, e) == Outcome(st.(selectedTool := GenerateTool), None, true)
    ensures e.key in {"m", "M"} ==> HandleKeyDown(st, e) == Outcome(st.(selectedTool := MaskTool), None, true)
  {
    LowerIsLetter(e.key, 'e');
    LowerIsLetter(e.key, 'g');
    LowerIsLetter(e.key, 'm');
  }

  /** h and p flip their panel flag, and pressing the same key twice gives
      back the original store. */
  lemma TogglesInvolutive(st: StoreState, e: KeyEvent)
    requires !InTextField(e) && e.key in {"h", "H", "p", "P"}
    ensures var r := HandleKeyDown(st, e).store;
            (e.key in {"h", "H"} ==> r == st.(showHistory := !st.showHistory))
            && (e.key in {"p", "P"} ==> r == st.(showPromptPanel := !st.showPromptPanel))
            && HandleKeyDown(r, e).store == st
  {
    LowerIsLetter(e.key, 'h');
    LowerIsLetter(e.key, 'p');
  }

  /** r, with or without shift, and every key not listed change nothing;
      only Shift+R is swallowed. */
  lemma OtherKeys(st: StoreState, e: KeyEvent)
    requires !InTextField(e) && !(e.key in {"e", "E", "g", "G", "m", "M", "h", "H", "p", "P"})
    ensures var r := HandleKeyDown(st, e);
            r.store == st && r.request.None?
            && (r.preventDefault <==> e.shiftKey && e.key in {"r", "R"})
  {
    LowerIsLetter(e.key, 'e');
    LowerIsLetter(e.key, 'g');
    LowerIsLetter(e.key, 'm');
    LowerIsLetter(e.key, 'h');
    LowerIsLetter(e.key, 'p');
    LowerIsLetter(e.key, 'r');
  }
}
