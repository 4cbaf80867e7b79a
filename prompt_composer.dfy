/** The prompt composer of the generation side
    (src/components/PromptComposer.tsx): what the generate button starts,
    the reference list it builds from the uploads, template insertion, the
    prompt quality hint and the clear-session action. The generation and
    editing hooks are outside calls; the request handed to them is the
    result. */
module PromptComposer {
  import opened Wrappers
  import opened Text
  import opened AppStore
  import KeyboardShortcuts
  import ImageUploader

  // ---------------------------------------------------------------------
  // The reference list

  /** `uploadedImages.filter(img => img.includes('base64,')).map(img =>
      img.split('base64,')[1])`: the payload of every upload that has the
      marker, in order. */
  function ReferenceImages(uploads: seq<string>): (r: seq<string>)
    ensures |r| <= |uploads|
    ensures (forall i :: 0 <= i < |uploads| ==> Contains(uploads[i], Base64Marker)) ==> |r| == |uploads|
    ensures forall x :: x in r ==> !Contains(x, Base64Marker)
  {
    if |uploads| == 0 then []
    else
      var last := uploads[|uploads| - 1];
      var rest := ReferenceImages(uploads[..|uploads| - 1]);
      match SplitSecond(last, Base64Marker)
      case None => rest
      case Some(payload) => rest + [payload]
  }

  /** The defined entries of a list that may hold `undefined`, in order. */
  function Defined(xs: seq<Option<string>>): (r: seq<string>)
    ensures |r| <= |xs|
  {
    if |xs| == 0 then []
    else
      var rest := Defined(xs[..|xs| - 1]);
      match xs[|xs| - 1]
      case None => rest
      case Some(x) => rest + [x]
  }

  /** The list is built entry by entry: the references of two lists put
      together are the references of each, in order. */
  lemma {:induction false} ReferenceImagesAppend(a: seq<string>, b: seq<string>)
    ensures ReferenceImages(a + b) == ReferenceImages(a) + ReferenceImages(b)
    decreases |b|
  {
    if |b| == 0 {
      assert a + b == a;
    } else {
      var b' := b[..|b| - 1];
      var split := SplitSecond(b[|b| - 1], Base64Marker);
      var added := if split.Some? then [split.value] else [];
      assert (a + b)[..|a + b| - 1] == a + b';
      assert (a + b)[|a + b| - 1] == b[|b| - 1];
      assert ReferenceImages(a + b) == ReferenceImages(a + b') + added;
      assert ReferenceImages(b) == ReferenceImages(b') + added;
      ReferenceImagesAppend(a, b');
    }
  }

  /** The composer's reference list is the global shortcut's list with its
      `undefined` entries (the uploads without the marker) dropped. */
  lemma {:induction false} ReferencesAreDefinedPayloads(uploads: seq<string>)
    ensures ReferenceImages(uploads) == Defined(KeyboardShortcuts.UploadPayloads(uploads))
    decreases |uploads|
  {
    if |uploads| > 0 {
      var init := uploads[..|uploads| - 1];
      var p := KeyboardShortcuts.UploadPayloads(uploads);
      assert p[..|p| - 1] == KeyboardShortcuts.UploadPayloads(init);
      ReferencesAreDefinedPayloads(init);
    }
  }

  /** An image the uploader adds in generate mode, as a data URL whose type
      and payload hold no marker, comes back as exactly its payload at the
      end of the reference list. */
  lemma UploadedPayloadIsReference(st: StoreState, mimeType: string, payload: string)
    requires st.selectedTool == GenerateTool && |st.uploadedImages| < ImageUploader.MaxImages
    requires !Contains(mimeType, Base64Marker) && !Contains(payload, Base64Marker)
    ensures ReferenceImages(ImageUploader.Processed(st, ImageUploader.DataUrl(mimeType, payload)).uploadedImages)
            == ReferenceImages(st.uploadedImages) + [payload]
  {
    var url := ImageUploader.DataUrl(mimeType, payload);
    var u := st.uploadedImages + [url];
    assert ImageUploader.Processed(st, url).uploadedImages == u;
    assert u[..|u| - 1] == st.uploadedImages;
    ImageUploader.DataUrlPayload(mimeType, payload);
  }

  // ---------------------------------------------------------------------
  // handleGenerate

  /** What the generate button starts: nothing, a generation, or an edit
      with the given prompt. */
  datatype Dispatch = NoDispatch | Generate(request: GenerationRequest) | Edit(prompt: string)

  /** `seed || undefined`: a seed of 0 is dropped like a missing one. */
  function TruthySeed(seed: Option<int>): (r: Option<int>)
    ensures r.Some? <==> seed.Some? && seed.value != 0
    ensures r.Some? ==> r == seed
  {
    if seed.Some? && seed.value != 0 then seed else None
  }

  /** `handleGenerate`: nothing for a blank prompt; in generate mode a
      generation with the untrimmed prompt, the reference list when it is
      not empty, the temperature and the truthy seed; in edit and mask mode
      an edit with the untrimmed prompt. */
  function HandleGenerate(st: StoreState): (d: Dispatch)
    ensures d.NoDispatch? <==> Blank(st.currentPrompt)
    ensures d.Generate? <==> !Blank(st.currentPrompt) && st.selectedTool == GenerateTool
    ensures d.Edit? ==> d.prompt == st.currentPrompt && st.selectedTool != GenerateTool
    ensures d.Generate? ==>
              d.request.prompt == st.currentPrompt && d.request.temperature == st.temperature
              && d.request.seed == TruthySeed(st.seed)
              && (d.request.referenceImages.None? <==> ReferenceImages(st.uploadedImages) == [])
  {
    if Blank(st.currentPrompt) then NoDispatch
    else if st.selectedTool == GenerateTool then
      var refs := ReferenceImages(st.uploadedImages);
      Generate(GenerationRequest(
        st.currentPrompt,
        if |refs| > 0 then Some(seq(|refs|, i requires 0 <= i < |refs| => Some(refs[i]))) else None,
        st.temperature,
        TruthySeed(st.seed)))
    else Edit(st.currentPrompt)
  }

  /** The generation's reference entries are all defined, and they are the
      reference list. */
  lemma GenerateReferences(st: StoreState)
    requires HandleGenerate(st).Generate? && HandleGenerate(st).request.referenceImages.Some?
    ensures var xs, refs := HandleGenerate(st).request.referenceImages.value, ReferenceImages(st.uploadedImages);
            |xs| == |refs| && forall i :: 0 <= i < |xs| ==> xs[i] == Some(refs[i])
    ensures Defined(HandleGenerate(st).request.referenceImages.value) == ReferenceImages(st.uploadedImages)
  {
    var xs := HandleGenerate(st).request.referenceImages.value;
    var refs := ReferenceImages(st.uploadedImages);
    DefinedOfSomes(xs, refs);
  }

  lemma {:induction false} DefinedOfSomes(xs: seq<Option<string>>, ys: seq<string>)
    requires |xs| == |ys| && forall i :: 0 <= i < |xs| ==> xs[i] == Some(ys[i])
    ensures Defined(xs) == ys
    decreases |xs|
  {
    if |xs| > 0 {
      DefinedOfSomes(xs[..|xs| - 1], ys[..|ys| - 1]);
    }
  }

  /** The button and Cmd/Ctrl+Enter do not start the same generation when
      the seed is 0: the button drops it, the shortcut passes it on. They
      agree on the prompt and the temperature. */
  lemma SeedZeroDiffers(st: StoreState)
    requires st.selectedTool == GenerateTool && !Blank(st.currentPrompt) && st.seed == Some(0)
    ensures HandleGenerate(st).request.seed == None
    ensures KeyboardShortcuts.ShortcutRequest(st).seed == Some(0)
    ensures HandleGenerate(st).request.prompt == KeyboardShortcuts.ShortcutRequest(st).prompt
    ensures HandleGenerate(st).request.temperature == KeyboardShortcuts.ShortcutRequest(st).temperature
  {
  }

  /** The generate button's `disabled`. */
  predicate GenerateDisabled(st: StoreState) {
    st.isGenerating || Blank(st.currentPrompt)
  }

  /** An enabled button always starts something, and what it starts is
      decided by the tool alone. */
  lemma EnabledButtonDispatches(st: StoreState)
    requires !GenerateDisabled(st)
    ensures HandleGenerate(st) != NoDispatch
    ensures HandleGenerate(st).Generate? <==> st.selectedTool == GenerateTool
  {
  }

  // ---------------------------------------------------------------------
  // Templates

  /** The Insert button with the selected template's JSON text, `None`
      when no template content is loaded: the prompt becomes the template
      alone when it is empty, else the prompt, a blank line and the
      template. */
  function InsertTemplate(prompt: string, template: Option<string>): (r: Option<string>)
    ensures r.None? <==> template.None?
  {
    match template
    case None => None
    case Some(t) => Some(if prompt == "" then t else prompt + "\n\n" + t)
  }

  /** Insertion keeps the prompt as a prefix and ends with the template,
      with the blank line between them exactly when the prompt is not
      empty. */
  lemma InsertKeepsPrompt(prompt: string, t: string)
    ensures var r := InsertTemplate(prompt, Some(t)).value;
            |r| == |prompt| + (if prompt == "" then 0 else 2) + |t|
            && r[..|prompt|] == prompt && r[|r| - |t|..] == t
            && (prompt != "" ==> r[|prompt|..|prompt| + 2] == "\n\n")
  {
    var r := InsertTemplate(prompt, Some(t)).value;
    if prompt != "" {
      assert r == prompt + "\n\n" + t;
      assert r[..|prompt|] == prompt;
      assert r[|prompt|..|prompt| + 2] == "\n\n";
      assert r[|r| - |t|..] == t;
    }
  }

  // ---------------------------------------------------------------------
  // The quality hint

  datatype Quality = AddDetail | GoodDetail | ExcellentDetail

  function QualityRank(q: Quality): nat {
    match q
    case AddDetail => 0
    case GoodDetail => 1
    case ExcellentDetail => 2
  }

  /** The hint under the prompt: below 20 characters ask for detail, below
      50 good, from 50 excellent. */
  function PromptQuality(prompt: string): (q: Quality)
    ensures q == AddDetail <==> |prompt| < 20
    ensures q == ExcellentDetail <==> |prompt| >= 50
  {
    if |prompt| < 20 then AddDetail
    else if |prompt| < 50 then GoodDetail
    else ExcellentDetail
  }

  /** Typing more never lowers the hint; inserting a template is typing
      more. */
  lemma QualityMonotone(prompt: string, more: string)
    ensures QualityRank(PromptQuality(prompt)) <= QualityRank(PromptQuality(prompt + more))
  {
  }

  lemma InsertNeverLowersQuality(prompt: string, t: string)
    ensures QualityRank(PromptQuality(prompt)) <= QualityRank(PromptQuality(InsertTemplate(prompt, Some(t)).value))
  {
    InsertKeepsPrompt(prompt, t);
  }

  // ---------------------------------------------------------------------
  // Clearing the session

  /** What clearing leaves: an empty prompt, no uploads, no edit
      references, no strokes, no canvas, no seed, and temperature 0.7; the
      tool, the panels and the generating flag are kept. */
  function Cleared(st: StoreState): (r: StoreState)
    ensures r.selectedTool == st.selectedTool && r.isGenerating == st.isGenerating
    ensures r.showHistory == st.showHistory && r.showPromptPanel == st.showPromptPanel
  {
    st.(currentPrompt := "", uploadedImages := [], editReferenceImages := [], brushStrokes := [],
        canvasImage := None, seed := None, temperature := 0.7)
  }

  /** Clearing twice is clearing once; after it the generate button does
      nothing and the uploader accepts images again. */
  lemma ClearedSettles(st: StoreState)
    ensures Cleared(Cleared(st)) == Cleared(st)
    ensures HandleGenerate(Cleared(st)) == NoDispatch && GenerateDisabled(Cleared(st))
    ensures !ImageUploader.UploadDisabled(Cleared(st))
    ensures ReferenceImages(Cleared(st).uploadedImages) == []
  {
  }

  /** The composer's own state next to the store it edits. */
  class Composer {
    const store: Store
    var showClearConfirm: bool

    constructor (store: Store)
      ensures this.store == store && !showClearConfirm
    {
      this.store := store;
      showClearConfirm := false;
    }

    /** The Clear Session button opens the confirmation box, or closes it
        when it is open; the store is not touched. */
    method ToggleClearConfirm()
      modifies this
      ensures showClearConfirm == !old(showClearConfirm)
    {
      showClearConfirm := !showClearConfirm;
    }

    /** The box's Cancel. */
    method CancelClear()
      modifies this
      ensures !showClearConfirm
    {
      showClearConfirm := false;
    }

    /** `handleClearSession`: the store setters in the source's order, then
        the confirmation closed. */
    method HandleClearSession()
      modifies this, store
      ensures store.Snapshot() == Cleared(old(store.Snapshot()))
      ensures !showClearConfirm
    {
      store.SetCurrentPrompt("");
      store.ClearUploadedImages();
      store.ClearEditReferenceImages();
      store.ClearBrushStrokes();
      store.SetCanvasImage(None);
      store.SetSeed(None);
      store.SetTemperature(0.7);
      showClearConfirm := false;
    }

    /** The Insert button: the prompt replaced by the insertion when a
        template is loaded, nothing otherwise. */
    method HandleInsert(template: Option<string>)
      modifies store
      ensures template.None? ==> store.Snapshot() == old(store.Snapshot())
      ensures template.Some? ==>
                store.Snapshot() == old(store.Snapshot()).(currentPrompt :=
                                      InsertTemplate(old(store.currentPrompt), template).value)
    {
      if template.Some? {
        var prompt := store.currentPrompt;
        var newPrompt := if prompt != "" then prompt + "\n\n" + template.value else template.value;
        store.SetCurrentPrompt(newPrompt);
      }
    }
  }
}
