/** The export helpers of the photo editor (src/utils/photoEditorUtils.ts):
    choosing the output format, capturing the edit surface with an optional
    uniform downscale, and building the edited-asset record.

    Pixels are not modelled. A canvas is its width and height; what the
    browser's encoder is asked to produce is an `Encoding` (format, quality
    fraction, size), so two encodings of the same canvas with the same format
    and quality are the same image. Whether `toBlob` yields a blob is a
    parameter, since the encoder is foreign code. */
module PhotoEditorUtils {
  import opened Wrappers
  import opened Text
  import opened Types

  // ---------------------------------------------------------------------
  // Output format

  /** The format for a lower-cased file extension; unknown ones fall back to
      JPEG. */
  function MimeForExtension(ext: string): string {
    if ext == "jpg" || ext == "jpeg" then Jpeg
    else if ext == "png" then Png
    else if ext == "webp" then Webp
    else Jpeg
  }

  const Jpeg := "image/jpeg"
  const Png := "image/png"
  const Webp := "image/webp"

  /** The extension of a URL: the text after its last '.', lower-cased. */
  function Extension(url: string): (ext: string)
    ensures |ext| <= |url| && '.' !in ext
    ensures ext == ToLower(url[|url| - |ext|..])
    ensures |ext| < |url| ==> url[|url| - |ext| - 1] == '.'
  {
    ToLower(LastSegment(url, '.'))
  }

  /** `getOutputMimeType`: a non-empty preferred format wins; otherwise the
      format follows the URL's extension. */
  function GetOutputMimeType(originalUrl: string, preferredMime: Option<string>): (r: string)
    ensures preferredMime.Some? && preferredMime.value != "" ==> r == preferredMime.value
    ensures preferredMime.None? || preferredMime.value == "" ==>
              r in {Jpeg, Png, Webp}
  {
    if preferredMime.Some? && preferredMime.value != "" then preferredMime.value
    else MimeForExtension(Extension(originalUrl))
  }

  /** Without a preference, each format is chosen exactly for its
      extensions, and JPEG for everything else. */
  lemma ExtensionTable(url: string, preferredMime: Option<string>)
    requires preferredMime.None? || preferredMime.value == ""
    ensures var ext := Extension(url);
            var r := GetOutputMimeType(url, preferredMime);
            (r == Png <==> ext == "png") &&
            (r == Webp <==> ext == "webp") &&
            (r == Jpeg <==> ext !in {"png", "webp"})
  {
    var ext := Extension(url);
    if ext == "png" {
      assert GetOutputMimeType(url, preferredMime) == Png;
    } else if ext == "webp" {
      assert GetOutputMimeType(url, preferredMime) == Webp;
    } else {
      assert GetOutputMimeType(url, preferredMime) == Jpeg;
    }
  }

  /** Only the text after the last dot counts, and case does not matter. */
  lemma OutputMimeExample()
    ensures GetOutputMimeType("cdn.example/a.b/photo.final.PNG", None) == "image/png"
  {
    var u := "cdn.example/a.b/photo.final.PNG";
    LastSegmentOfJoin(u[..|u| - 4], u[|u| - 3..], '.');
    assert u[..|u| - 4] + ['.'] + u[|u| - 3..] == u;
  }

  /** A query string after the extension hides it: JPEG is chosen. */
  lemma QueryHidesExtension()
    ensures GetOutputMimeType("photo.png?size=2", None) == "image/jpeg"
  {
    var v := "photo.png?size=2";
    LastSegmentOfJoin(v[..5], v[6..], '.');
    assert v[..5] + ['.'] + v[6..] == v;
  }

  /** The last segment of `x + sep + y` is `y` when `y` has no separator. */
  lemma {:induction false} LastSegmentOfJoin(x: string, y: string, sep: char)
    requires sep !in y
    ensures LastSegment(x + [sep] + y, sep) == y
    decreases |y|
  {
    var s := x + [sep] + y;
    if |y| > 0 {
      assert s[..|s| - 1] == x + [sep] + y[..|y| - 1];
      LastSegmentOfJoin(x, y[..|y| - 1], sep);
    }
  }

  // ---------------------------------------------------------------------
  // Surfaces

  /** A canvas: only its size is modelled. */
  class Canvas {
    var width: nat
    var height: nat

    constructor (w: nat, h: nat)
      ensures width == w && height == h
    {
      width, height := w, h;
    }
  }

  /** The container the editor renders into: the first canvas in its
      subtree, if any, and its rendered size. */
  class Element {
    var canvas: Canvas?
    var offsetWidth: nat
    var offsetHeight: nat

    constructor (canvas: Canvas?, offsetWidth: nat, offsetHeight: nat)
      ensures this.canvas == canvas
      ensures this.offsetWidth == offsetWidth && this.offsetHeight == offsetHeight
    {
      this.canvas := canvas;
      this.offsetWidth := offsetWidth;
      this.offsetHeight := offsetHeight;
    }
  }

  datatype Dimensions = Dimensions(width: nat, height: nat)

  /** The size of the surface `getCanvasFromElement` yields for `element`. */
  function SurfaceDimensions(element: Element): Dimensions
    reads element, element.canvas
  {
    if element.canvas != null then Dimensions(element.canvas.width, element.canvas.height)
    else Dimensions(element.offsetWidth, element.offsetHeight)
  }

  /** `getCanvasFromElement`: the element's own canvas, or else a new blank
      one sized like the element. */
  method GetCanvasFromElement(element: Element) returns (c: Canvas)
    ensures element.canvas != null ==> c == element.canvas
    ensures element.canvas == null ==> fresh(c)
    ensures c.width == SurfaceDimensions(element).width
    ensures c.height == SurfaceDimensions(element).height
  {
    if element.canvas != null {
      return element.canvas;
    }
    c := new Canvas(0, 0);
    c.width := element.offsetWidth;
    c.height := element.offsetHeight;
  }

  // ---------------------------------------------------------------------
  // Downscale

  predicate PositiveBox(box: Dimensions) {
    box.width > 0 && box.height > 0
  }

  predicate Fits(d: Dimensions, box: Dimensions) {
    d.width <= box.width && d.height <= box.height
  }

  /** Assigning a non-negative number to `canvas.width` or `canvas.height`
      truncates it to an integer. */
  function CanvasSize(x: real): (n: nat)
    requires x >= 0.0
    ensures n as real <= x < n as real + 1.0
  {
    x.Floor
  }

  /** `Math.min(maxW / w, maxH / h)`. A zero side divides to +Infinity, so
      the other side's ratio is the minimum; both sides cannot be zero here,
      since one of them exceeds a positive maximum. */
  function ScaleFactor(source: Dimensions, box: Dimensions): (s: real)
    requires PositiveBox(box) && !Fits(source, box)
    ensures 0.0 < s < 1.0
    ensures source.width > 0 ==> s <= Ratio(box.width, source.width)
    ensures source.height > 0 ==> s <= Ratio(box.height, source.height)
    ensures (source.width > 0 && s == Ratio(box.width, source.width))
         || (source.height > 0 && s == Ratio(box.height, source.height))
  {
    RatioFacts(box.width, source.width);
    RatioFacts(box.height, source.height);
    if source.width == 0 then Ratio(box.height, source.height)
    else if source.height == 0 then Ratio(box.width, source.width)
    else if Ratio(box.width, source.width) <= Ratio(box.height, source.height) then Ratio(box.width, source.width)
    else Ratio(box.height, source.height)
  }

  /** `limit / side` for a positive side. */
  function Ratio(limit: nat, side: nat): real
    requires side > 0
  {
    limit as real / side as real
  }

  lemma RatioFacts(limit: nat, side: nat)
    ensures side > 0 && limit > 0 ==> Ratio(limit, side) > 0.0
    ensures side > limit ==> Ratio(limit, side) < 1.0
    ensures side > 0 ==> side as real * Ratio(limit, side) == limit as real
  {
  }

  lemma MulMonotone(a: real, b: real, c: real)
    requires a >= 0.0 && b <= c
    ensures a * b <= a * c
  {
  }

  /** One side of the resized surface: `side * scale`, truncated. */
  function ScaledSide(side: nat, s: real): nat
    requires 0.0 < s
  {
    MulMonotone(side as real, 0.0, s);
    CanvasSize(side as real * s)
  }

  /** One side scaled by a factor at most `limit / side` (and below 1)
      stays within both `limit` and `side` once truncated. */
  lemma ScaledSideBounds(side: nat, s: real, limit: nat)
    requires 0.0 < s < 1.0
    requires side > 0 ==> s <= Ratio(limit, side)
    ensures ScaledSide(side, s) <= limit && ScaledSide(side, s) <= side
  {
    var x := side as real * s;
    MulMonotone(side as real, 0.0, s);
    MulMonotone(side as real, s, 1.0);
    assert 0.0 <= x <= side as real;
    if side > 0 {
      var r := Ratio(limit, side);
      MulMonotone(side as real, s, r);
      RatioFacts(limit, side);
      var y := side as real * r;
      assert x <= y;
      assert y == limit as real;
    }
    TruncatedWithin(x, limit);
    TruncatedWithin(x, side);
  }

  /** The resized surface: both sides scaled by the one factor and
      truncated. It fits the box and is no larger than the source. */
  function Downscale(source: Dimensions, box: Dimensions): (r: Dimensions)
    requires PositiveBox(box) && !Fits(source, box)
    ensures Fits(r, box)
    ensures r.width <= source.width && r.height <= source.height
  {
    var s := ScaleFactor(source, box);
    ScaledSideBounds(source.width, s, box.width);
    ScaledSideBounds(source.height, s, box.height);
    Dimensions(ScaledSide(source.width, s), ScaledSide(source.height, s))
  }

  lemma TruncatedWithin(x: real, limit: nat)
    requires 0.0 <= x <= limit as real
    ensures CanvasSize(x) <= limit
  {
  }

  /** The size actually encoded: resampled only when a box is given and the
      source exceeds it on some side. */
  function FinalDimensions(source: Dimensions, maxDimensions: Option<Dimensions>): (r: Dimensions)
    requires maxDimensions.Some? ==> PositiveBox(maxDimensions.value)
    ensures r.width <= source.width && r.height <= source.height
    ensures maxDimensions.Some? ==> Fits(r, maxDimensions.value)
    ensures maxDimensions.None? || Fits(source, maxDimensions.value) ==> r == source
  {
    if maxDimensions.Some? && !Fits(source, maxDimensions.value) then
      Downscale(source, maxDimensions.value)
    else
      source
  }

  /** A 400×200 surface in a 100×100 box is scaled by min(0.25, 0.5) to
      100×50. */
  lemma DownscaleExample()
    ensures FinalDimensions(Dimensions(400, 200), Some(Dimensions(100, 100))) == Dimensions(100, 50)
  {
    var src, box := Dimensions(400, 200), Dimensions(100, 100);
    assert ScaleFactor(src, box) == 0.25;
    assert ScaledSide(400, 0.25) == 100;
    assert ScaledSide(200, 0.25) == 50;
  }

  // ---------------------------------------------------------------------
  // Capture

  /** What the browser's encoder is asked to produce. */
  datatype Encoding = Encoding(mimeType: string, quality: real, width: nat, height: nat)

  datatype CaptureOutput = CaptureOutput(dataUrl: Encoding, blob: Encoding, finalDimensions: Dimensions)

  const BlobFailureMessage := "Failed to create blob from canvas"

  /** The encoder's quality fraction for a percentage. */
  function QualityFraction(quality: int): real {
    quality as real / 100.0
  }

  /** What the browser decides beyond the arithmetic of the sizes: the
      message `drawImage` throws with when its source has a zero side, the
      message `toDataURL` throws with when the surface holds cross-origin
      pixels (`None` when it does not), and whether the encoder yields a
      blob for a surface that has pixels. */
  datatype Browser = Browser(drawFailure: string, taintFailure: Option<string>, encodes: bool)

  /** The surface is resampled only when a box is given and it exceeds it. */
  predicate Resampled(source: Dimensions, maxDimensions: Option<Dimensions>) {
    maxDimensions.Some? && !Fits(source, maxDimensions.value)
  }

  /** `drawImage` throws when the surface it copies has a zero side. */
  predicate DrawThrows(source: Dimensions, maxDimensions: Option<Dimensions>) {
    Resampled(source, maxDimensions) && (source.width == 0 || source.height == 0)
  }

  /** A surface with a zero side has no pixels, and `toBlob` hands null to
      its callback for it. */
  predicate HasPixels(d: Dimensions) {
    d.width > 0 && d.height > 0
  }

  /** The outcome of `captureEditedImageWithOptions` on a surface of size
      `source`: the exception of the first step that throws (`drawImage`,
      then `toDataURL`), else the rejection of the blob promise when no blob
      comes back, else the two encodings. */
  function CaptureSpec(source: Dimensions, mimeType: string, quality: int,
                       maxDimensions: Option<Dimensions>, browser: Browser): (r: Result<CaptureOutput>)
    requires maxDimensions.Some? ==> PositiveBox(maxDimensions.value)
    ensures r.Ok? <==> !DrawThrows(source, maxDimensions) && browser.taintFailure.None?
                       && HasPixels(FinalDimensions(source, maxDimensions)) && browser.encodes
    ensures !HasPixels(FinalDimensions(source, maxDimensions)) ==> r.Err?
    ensures DrawThrows(source, maxDimensions) ==> r == Err(browser.drawFailure)
    ensures !DrawThrows(source, maxDimensions) && browser.taintFailure.Some? ==>
              r == Err(browser.taintFailure.value)
    ensures !DrawThrows(source, maxDimensions) && browser.taintFailure.None? && r.Err? ==>
              r.message == BlobFailureMessage
    ensures r.Ok? ==> r.value.dataUrl == r.value.blob
    ensures r.Ok? ==> r.value.blob.mimeType == mimeType
    ensures r.Ok? ==> r.value.blob.quality * 100.0 == quality as real
    ensures r.Ok? ==> r.value.finalDimensions == FinalDimensions(source, maxDimensions)
    ensures r.Ok? ==> r.value.blob.width == r.value.finalDimensions.width
    ensures r.Ok? ==> r.value.blob.height == r.value.finalDimensions.height
  {
    var d := FinalDimensions(source, maxDimensions);
    var e := Encoding(mimeType, QualityFraction(quality), d.width, d.height);
    if DrawThrows(source, maxDimensions) then Err(browser.drawFailure)
    else if browser.taintFailure.Some? then Err(browser.taintFailure.value)
    else if !HasPixels(d) || !browser.encodes then Err(BlobFailureMessage)
    else Ok(CaptureOutput(e, e, d))
  }

  /** A 0×500 surface exceeds a 100×100 box, so it is resampled and
      `drawImage` throws; a 0×50 surface fits, is encoded as it is, and
      yields no blob. */
  lemma ZeroSideCaptures(mimeType: string, quality: int, browser: Browser)
    ensures CaptureSpec(Dimensions(0, 500), mimeType, quality, Some(Dimensions(100, 100)), browser)
            == Err(browser.drawFailure)
    ensures browser.taintFailure.None? ==>
              CaptureSpec(Dimensions(0, 50), mimeType, quality, Some(Dimensions(100, 100)), browser)
              == Err(BlobFailureMessage)
  {
  }

  /** `captureEditedImageWithOptions`: reads the surface, replaces it by a
      resized copy when it exceeds the box, then encodes it twice. The
      element and its canvas are left as they were. */
  method CaptureEditedImageWithOptions(element: Element, mimeType: string, quality: int,
                                       maxDimensions: Option<Dimensions>, browser: Browser)
    returns (r: Result<CaptureOutput>)
    requires maxDimensions.Some? ==> PositiveBox(maxDimensions.value)
    ensures r == CaptureSpec(SurfaceDimensions(element), mimeType, quality, maxDimensions, browser)
  {
    var canvas := GetCanvasFromElement(element);
    ghost var source := SurfaceDimensions(element);
    ghost var final := FinalDimensions(source, maxDimensions);
    if maxDimensions.Some? &&
       (canvas.width > maxDimensions.value.width || canvas.height > maxDimensions.value.height)
    {
      assert source == Dimensions(canvas.width, canvas.height);
      var scale := ScaleFactor(Dimensions(canvas.width, canvas.height), maxDimensions.value);
      var resized := new Canvas(0, 0);
      resized.width := ScaledSide(canvas.width, scale);
      resized.height := ScaledSide(canvas.height, scale);
      // drawImage
      if canvas.width == 0 || canvas.height == 0 {
        return Err(browser.drawFailure);
      }
      canvas := resized;
    }
    assert canvas.width == final.width && canvas.height == final.height;
    // toDataURL
    if browser.taintFailure.Some? {
      return Err(browser.taintFailure.value);
    }
    var dataUrl := Encoding(mimeType, QualityFraction(quality), canvas.width, canvas.height);
    // toBlob
    if canvas.width == 0 || canvas.height == 0 || !browser.encodes {
      return Err(BlobFailureMessage);
    }
    var blob := Encoding(mimeType, QualityFraction(quality), canvas.width, canvas.height);
    r := Ok(CaptureOutput(dataUrl, blob, Dimensions(canvas.width, canvas.height)));
  }

  /** `captureEditedImage`: a data URL only, JPEG at 0.92 by default; the
      quality is passed to the encoder as given, not divided by 100.
      `toDataURL` throws on a surface holding cross-origin pixels. */
  method CaptureEditedImage(element: Element, mimeType: Option<string>, quality: Option<real>,
                            taintFailure: Option<string>)
    returns (r: Result<Encoding>)
    ensures r.Err? <==> taintFailure.Some?
    ensures r.Err? ==> r.message == taintFailure.value
    ensures r.Ok? ==> r.value.mimeType == mimeType.GetOr(Jpeg)
    ensures r.Ok? ==> r.value.quality == quality.GetOr(0.92)
    ensures r.Ok? ==> r.value.width == SurfaceDimensions(element).width
    ensures r.Ok? ==> r.value.height == SurfaceDimensions(element).height
  {
    var canvas := GetCanvasFromElement(element);
    if taintFailure.Some? {
      return Err(taintFailure.value);
    }
    r := Ok(Encoding(mimeType.GetOr(Jpeg), quality.GetOr(0.92), canvas.width, canvas.height));
  }

  // ---------------------------------------------------------------------
  // Edited asset

  const EditedIdPrefix := "edited-"
  const PhotoEditType := "photo-edit"

  /** `edited-${originalAssetId}-${Date.now()}`. */
  function EditedAssetId(originalAssetId: string, now: nat): string {
    EditedIdPrefix + originalAssetId + "-" + NatToDecimal(now)
  }

  /** Splits an edited-asset id back into the original id and the instant:
      the instant is the digits after the last '-'. */
  function ParseEditedAssetId(id: string): Option<(string, nat)> {
    var tail := LastSegment(id, '-');
    if |id| >= |EditedIdPrefix| + |tail| + 1 && id[..|EditedIdPrefix|] == EditedIdPrefix
       && |tail| > 0 && (forall i :: 0 <= i < |tail| ==> IsDigit(tail[i]))
    then Some((id[|EditedIdPrefix|..|id| - |tail| - 1], DecimalValue(tail)))
    else None
  }

  /** The id determines the original asset id and the instant it was made. */
  lemma EditedAssetIdRoundTrip(originalAssetId: string, now: nat)
    ensures ParseEditedAssetId(EditedAssetId(originalAssetId, now)) == Some((originalAssetId, now))
  {
    var digits := NatToDecimal(now);
    var head := EditedIdPrefix + originalAssetId;
    var id := head + ['-'] + digits;
    assert EditedAssetId(originalAssetId, now) == id;
    assert forall i :: 0 <= i < |digits| ==> digits[i] != '-';
    LastSegmentOfJoin(head, digits, '-');
    JoinSlices(EditedIdPrefix, originalAssetId, ['-'] + digits);
    assert id == EditedIdPrefix + originalAssetId + (['-'] + digits);
    DecimalRoundTrip(now);
  }

  lemma JoinSlices(a: string, b: string, c: string)
    ensures (a + b + c)[..|a|] == a
    ensures (a + b + c)[|a|..|a| + |b|] == b
  {
  }

  /** Two saves give the same id only for the same original asset at the
      same millisecond. */
  lemma EditedAssetIdInjective(o1: string, n1: nat, o2: string, n2: nat)
    requires EditedAssetId(o1, n1) == EditedAssetId(o2, n2)
    ensures o1 == o2 && n1 == n2
  {
    EditedAssetIdRoundTrip(o1, n1);
    EditedAssetIdRoundTrip(o2, n2);
  }

  /** `createPhotoEditAsset`: the new asset points at the object URL made for
      the blob and carries the history as given; the session's original URL
      and duration are left as '' and 0, and `outputMime` is not used. The
      object URL and creation time come from the browser. */
  function CreatePhotoEditAsset(originalAssetId: string, objectUrl: string,
                                editingHistory: seq<EditOperation>, outputMime: string,
                                now: nat, createdAt: string): (a: PhotoEditAsset)
    ensures a.id == EditedAssetId(originalAssetId, now)
    ensures a.assetType == PhotoEditType
    ensures a.url == objectUrl && a.photoEditMetadata.finalImageUrl == objectUrl
    ensures a.photoEditMetadata.operations == editingHistory
    ensures a.photoEditMetadata.originalImageUrl == "" && a.photoEditMetadata.duration == 0
  {
    PhotoEditAsset(
      EditedAssetId(originalAssetId, now),
      objectUrl,
      createdAt,
      PhotoEditType,
      PhotoEditSession("", objectUrl, editingHistory, 0))
  }
}
