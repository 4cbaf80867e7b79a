/** The image uploader of the generation side (src/components/ImageUploader.tsx):
    which store list an uploaded image goes to for each tool, the MIME
    filter on files, the data URL it builds, the URL import's checks, and
    when the upload button is disabled. Reading a file or a fetched blob as
    base64 and the fetch itself are outside calls; their results are
    parameters. */
module ImageUploader {
  import opened Wrappers
  import opened Text
  import opened AppStore

  const ImagePrefix := "image/"
  const DataPrefix := "data:"
  const ProcessFailedMessage := "Failed to process file."
  const EnterUrlMessage := "Please enter a valid image URL."
  const NotImageMessage := "The URL does not point to a valid image file."
  const FetchFailedMessage := "Could not fetch image. The URL may be incorrect or blocked by CORS policy."

  /** The most images the generate and edit lists take from this
      component. */
  const MaxImages := 2

  /** `type.startsWith('image/')`. */
  predicate IsImageType(mimeType: string) {
    StartsWith(mimeType, ImagePrefix)
  }

  /** `data:${type};base64,${payload}`. */
  function DataUrl(mimeType: string, payload: string): (r: string)
    ensures |r| == |DataPrefix| + |mimeType| + 1 + |Base64Marker| + |payload|
  {
    DataPrefix + mimeType + ";" + Base64Marker + payload
  }

  /** `!canvasImage`: no canvas image, or the empty string. */
  predicate NoCanvas(canvas: Option<string>) {
    canvas.None? || canvas.value == ""
  }

  // ---------------------------------------------------------------------
  // handleImageProcessing

  /** Where an image goes: generate appends to the uploads while there are
      fewer than two; edit appends to the references while there are fewer
      than two and becomes the canvas if there is none; mask replaces the
      uploads by the image alone and makes it the canvas. */
  function Processed(st: StoreState, dataUrl: string): StoreState {
    match st.selectedTool
    case GenerateTool =>
      if |st.uploadedImages| < MaxImages then st.(uploadedImages := st.uploadedImages + [dataUrl]) else st
    case EditTool =>
      var st1 := if |st.editReferenceImages| < MaxImages
                 then st.(editReferenceImages := st.editReferenceImages + [dataUrl]) else st;
      if NoCanvas(st1.canvasImage) then st1.(canvasImage := Some(dataUrl)) else st1
    case MaskTool =>
      st.(uploadedImages := [dataUrl], canvasImage := Some(dataUrl))
  }

  /** The lists never grow past two through this component, and only the
      mode's own list and the canvas change. */
  lemma ProcessedBounds(st: StoreState, dataUrl: string)
    ensures var r := Processed(st, dataUrl);
            r == st.(uploadedImages := r.uploadedImages, editReferenceImages := r.editReferenceImages,
                     canvasImage := r.canvasImage)
            && (|st.uploadedImages| <= MaxImages ==> |r.uploadedImages| <= MaxImages)
            && (|st.editReferenceImages| <= MaxImages ==> |r.editReferenceImages| <= MaxImages)
    ensures st.selectedTool == GenerateTool ==>
              Processed(st, dataUrl)
              == if |st.uploadedImages| < MaxImages then st.(uploadedImages := st.uploadedImages + [dataUrl]) else st
    ensures st.selectedTool == EditTool ==>
              var r := Processed(st, dataUrl);
              r.uploadedImages == st.uploadedImages
              && r.editReferenceImages
                 == (if |st.editReferenceImages| < MaxImages then st.editReferenceImages + [dataUrl]
                     else st.editReferenceImages)
              && r.canvasImage == (if NoCanvas(st.canvasImage) then Some(dataUrl) else st.canvasImage)
    ensures st.selectedTool == MaskTool ==>
              var r := Processed(st, dataUrl);
              r.uploadedImages == [dataUrl] && r.canvasImage == Some(dataUrl)
              && r.editReferenceImages == st.editReferenceImages
  {
  }

  /** The upload button's `disabled`. */
  predicate UploadDisabled(st: StoreState) {
    (st.selectedTool == GenerateTool && |st.uploadedImages| >= MaxImages)
    || (st.selectedTool == EditTool && |st.editReferenceImages| >= MaxImages)
  }

  /** The button is disabled exactly when an image processed now would not
      be added to the mode's list. */
  lemma UploadDisabledMeansFull(st: StoreState, dataUrl: string)
    ensures UploadDisabled(st) <==>
              (st.selectedTool == GenerateTool && Processed(st, dataUrl).uploadedImages == st.uploadedImages)
              || (st.selectedTool == EditTool
                  && Processed(st, dataUrl).editReferenceImages == st.editReferenceImages)
  {
    var r := Processed(st, dataUrl);
    if st.selectedTool == GenerateTool && |st.uploadedImages| < MaxImages {
      assert |r.uploadedImages| == |st.uploadedImages| + 1;
    }
    if st.selectedTool == EditTool && |st.editReferenceImages| < MaxImages {
      assert |r.editReferenceImages| == |st.editReferenceImages| + 1;
    }
  }

  // ---------------------------------------------------------------------
  // The data URL's payload

  /** The payload of a data URL is what `split('base64,')[1]` reads back,
      provided neither the type nor the payload contains the marker (a
      base64 payload has no ','). */
  lemma DataUrlPayload(mimeType: string, payload: string)
    requires !Contains(mimeType, Base64Marker) && !Contains(payload, Base64Marker)
    ensures SplitSecond(DataUrl(mimeType, payload), Base64Marker) == Some(payload)
  {
    var s := DataUrl(mimeType, payload);
    var head := DataPrefix + mimeType + ";";
    var k := |head|;
    assert s == head + Base64Marker + payload;
    assert s[k..k + |Base64Marker|] == Base64Marker;
    assert OccursAt(s, Base64Marker, k);
    forall j: nat | j < k
      ensures !OccursAt(s, Base64Marker, j)
    {
      FirstMarkerAt(mimeType, payload, j);
    }
    assert Contains(s, Base64Marker);
    var i := IndexOf(s, Base64Marker).value;
    assert i == k;
    assert s[k + |Base64Marker|..] == payload;
  }

  /** No occurrence of the marker starts before the one the data URL puts
      after the type. */
  lemma FirstMarkerAt(mimeType: string, payload: string, j: nat)
    requires !Contains(mimeType, Base64Marker)
    requires j < |DataPrefix| + |mimeType| + 1
    ensures !OccursAt(DataUrl(mimeType, payload), Base64Marker, j)
  {
    var s := DataUrl(mimeType, payload);
    var semi := |DataPrefix| + |mimeType|;
    assert s[semi] == ';' && ';' !in Base64Marker;
    assert j < |DataPrefix| ==> s[j] == DataPrefix[j] && s[j] != Base64Marker[0];
    if OccursAt(s, Base64Marker, j) && |DataPrefix| <= j && j + |Base64Marker| <= semi {
      var m := j - |DataPrefix|;
      assert mimeType[m..m + |Base64Marker|] == s[j..j + |Base64Marker|];
      assert OccursAt(mimeType, Base64Marker, m);
    }
  }

  // ---------------------------------------------------------------------
  // URL import

  /** What the fetch of the URL gives: a rejection (network or CORS), or a
      response with its status, content type, the blob's type and the
      blob's base64 payload (`None` when reading it throws). */
  datatype FetchOutcome =
    | FetchRejected
    | Response(ok: bool, contentType: Option<string>, blobType: string, payload: Option<string>)

  /** The result of an import: the store, the error line, whether a fetch
      was made, and the text left in the URL field. */
  datatype Import = Import(store: StoreState, error: Option<string>, fetched: bool, urlField: string)

  /** `handleUrlImport`: a blank URL is refused before any fetch; a failed
      or not-ok fetch, or an unreadable blob, reports the fetch failure; a
      missing or non-image content type reports that; otherwise the image
      is processed and the field cleared. */
  function UrlImport(url: string, st: StoreState, f: FetchOutcome): Import {
    if Blank(url) then Import(st, Some(EnterUrlMessage), false, url)
    else if f.FetchRejected? || !f.ok then Import(st, Some(FetchFailedMessage), true, url)
    else if f.contentType.None? || !IsImageType(f.contentType.value) then
      Import(st, Some(NotImageMessage), true, url)
    else if f.payload.None? then Import(st, Some(FetchFailedMessage), true, url)
    else Import(Processed(st, DataUrl(f.blobType, f.payload.value)), None, true, "")
  }

  /** The store changes only through a successful import, which also clears
      the error and the field; a blank URL is never fetched; a non-image
      content type never reaches the store. */
  lemma UrlImportOutcomes(url: string, st: StoreState, f: FetchOutcome)
    ensures var r := UrlImport(url, st, f);
            (r.fetched <==> !Blank(url))
            && (r.error.None? <==> !Blank(url) && f.Response? && f.ok && f.contentType.Some?
                                   && IsImageType(f.contentType.value) && f.payload.Some?)
            && (r.error.Some? ==> r.store == st && r.urlField == url)
            && (r.error.None? ==> r.store == Processed(st, DataUrl(f.blobType, f.payload.value)) && r.urlField == "")
    ensures Blank(url) ==> UrlImport(url, st, f).error == Some(EnterUrlMessage)
    ensures !Blank(url) && f.Response? && f.ok && (f.contentType.None? || !IsImageType(f.contentType.value)) ==>
              UrlImport(url, st, f).error == Some(NotImageMessage)
  {
  }

  /** The import button's `disabled`. */
  predicate ImportDisabled(url: string) {
    Blank(url)
  }

  /** An enabled import button always fetches. */
  lemma EnabledImportFetches(url: string, st: StoreState, f: FetchOutcome)
    requires !ImportDisabled(url)
    ensures UrlImport(url, st, f).fetched
    ensures UrlImport(url, st, f).error != Some(EnterUrlMessage)
  {
  }

  // ---------------------------------------------------------------------
  // The component

  /** A file as `handleFile` sees it: its MIME type. */
  datatype File = File(mimeType: string)

  class Uploader {
    const store: Store
    /** The URL field's text. */
    var imageUrl: string
    /** The error line. */
    var error: Option<string>
    /** The URLs fetched so far. */
    var fetched: seq<string>

    constructor (store: Store)
      ensures this.store == store && imageUrl == "" && error == None && fetched == []
    {
      this.store := store;
      imageUrl := "";
      error := None;
      fetched := [];
    }

    /** `handleImageProcessing`. */
    method HandleImageProcessing(dataUrl: string)
      modifies store
      ensures store.Snapshot() == Processed(old(store.Snapshot()), dataUrl)
    {
      if store.selectedTool == GenerateTool {
        if |store.uploadedImages| < MaxImages {
          store.AddUploadedImage(dataUrl);
        }
      } else if store.selectedTool == EditTool {
        if |store.editReferenceImages| < MaxImages {
          store.AddEditReferenceImage(dataUrl);
        }
        if store.canvasImage.None? || store.canvasImage.value == "" {
          store.SetCanvasImage(Some(dataUrl));
        }
      } else {
        store.ClearUploadedImages();
        store.AddUploadedImage(dataUrl);
        store.SetCanvasImage(Some(dataUrl));
      }
    }

    /** `handleFile`; `payload` is what reading the file as base64 gives,
        `None` when it throws. A file that is not an image is ignored. */
    method HandleFile(file: File, payload: Option<string>)
      modifies this, store
      ensures !IsImageType(file.mimeType) ==>
                store.Snapshot() == old(store.Snapshot()) && error == old(error)
      ensures IsImageType(file.mimeType) && payload.None? ==>
                store.Snapshot() == old(store.Snapshot()) && error == Some(ProcessFailedMessage)
      ensures IsImageType(file.mimeType) && payload.Some? ==>
                store.Snapshot() == Processed(old(store.Snapshot()), DataUrl(file.mimeType, payload.value))
                && error == None
      ensures imageUrl == old(imageUrl) && fetched == old(fetched)
    {
      if !StartsWith(file.mimeType, ImagePrefix) {
        return;
      }
      error := None;
      if payload.None? {
        error := Some(ProcessFailedMessage);
        return;
      }
      var dataUrl := DataPrefix + file.mimeType + ";" + Base64Marker + payload.value;
      HandleImageProcessing(dataUrl);
    }

    /** `handleUrlImport`, with `f` what the fetch of the field's URL gives. */
    method HandleUrlImport(f: FetchOutcome)
      modifies this, store
      ensures var r := UrlImport(old(imageUrl), old(store.Snapshot()), f);
              store.Snapshot() == r.store && error == r.error && imageUrl == r.urlField
              && fetched == old(fetched) + (if r.fetched then [old(imageUrl)] else [])
    {
      if Blank(imageUrl) {
        error := Some(EnterUrlMessage);
        return;
      }
      error := None;
      fetched := fetched + [imageUrl];
      if f.FetchRejected? || !f.ok {
        error := Some(FetchFailedMessage);
        return;
      }
      if f.contentType.None? || !StartsWith(f.contentType.value, ImagePrefix) {
        error := Some(NotImageMessage);
        return;
      }
      if f.payload.None? {
        error := Some(FetchFailedMessage);
        return;
      }
      HandleImageProcessing(DataUrl(f.blobType, f.payload.value));
      imageUrl := "";
    }
  }
}
