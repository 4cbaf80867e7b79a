/** The generation side of the application store, as the uploader, the
    prompt composer and the global shortcuts use it. The store's own source
    is not part of this model: each setter is modelled as the plain field
    assignment or list update its name describes. */
module AppStore {
  import opened Wrappers
  import opened Types

  /** The three tools of the generation side. */
  datatype Tool = GenerateTool | EditTool | MaskTool

  /** The store fields read or written by the modelled components. */
  datatype StoreState = StoreState(
    selectedTool: Tool,
    uploadedImages: seq<string>,
    editReferenceImages: seq<string>,
    canvasImage: Option<string>,
    brushStrokes: seq<BrushStroke>,
    currentPrompt: string,
    seed: Option<int>,
    temperature: real,
    showHistory: bool,
    showPromptPanel: bool,
    isGenerating: bool)

  /** The marker before the payload of a base64 data URL. */
  const Base64Marker := "base64,"

  /** The argument of the generation hook's `generate`: `None` stands for
      `undefined`, also inside the reference list, where
      `split('base64,')[1]` gives `undefined` for an entry without the
      marker. */
  datatype GenerationRequest = GenerationRequest(
    prompt: string,
    referenceImages: Option<seq<Option<string>>>,
    temperature: real,
    seed: Option<int>)

  class Store {
    var selectedTool: Tool
    var uploadedImages: seq<string>
    var editReferenceImages: seq<string>
    var canvasImage: Option<string>
    var brushStrokes: seq<BrushStroke>
    var currentPrompt: string
    var seed: Option<int>
    var temperature: real
    var showHistory: bool
    var showPromptPanel: bool
    var isGenerating: bool

    function Snapshot(): StoreState
      reads this
    {
      StoreState(selectedTool, uploadedImages, editReferenceImages, canvasImage, brushStrokes,
                 currentPrompt, seed, temperature, showHistory, showPromptPanel, isGenerating)
    }

    constructor (init: StoreState)
      ensures Snapshot() == init
    {
      selectedTool := init.selectedTool;
      uploadedImages := init.uploadedImages;
      editReferenceImages := init.editReferenceImages;
      canvasImage := init.canvasImage;
      brushStrokes := init.brushStrokes;
      currentPrompt := init.currentPrompt;
      seed := init.seed;
      temperature := init.temperature;
      showHistory := init.showHistory;
      showPromptPanel := init.showPromptPanel;
      isGenerating := init.isGenerating;
    }

    method AddUploadedImage(image: string)
      modifies this
      ensures Snapshot() == old(Snapshot()).(uploadedImages := old(uploadedImages) + [image])
    {
      uploadedImages := uploadedImages + [image];
    }

    method ClearUploadedImages()
      modifies this
      ensures Snapshot() == old(Snapshot()).(uploadedImages := [])
    {
      uploadedImages := [];
    }

    method AddEditReferenceImage(image: string)
      modifies this
      ensures Snapshot() == old(Snapshot()).(editReferenceImages := old(editReferenceImages) + [image])
    {
      editReferenceImages := editReferenceImages + [image];
    }

    method ClearEditReferenceImages()
      modifies this
      ensures Snapshot() == old(Snapshot()).(editReferenceImages := [])
    {
      editReferenceImages := [];
    }

    method SetCanvasImage(image: Option<string>)
      modifies this
      ensures Snapshot() == old(Snapshot()).(canvasImage := image)
    {
      canvasImage := image;
    }

    method ClearBrushStrokes()
      modifies this
      ensures Snapshot() == old(Snapshot()).(brushStrokes := [])
    {
      brushStrokes := [];
    }

    method SetCurrentPrompt(prompt: string)
      modifies this
      ensures Snapshot() == old(Snapshot()).(currentPrompt := prompt)
    {
      currentPrompt := prompt;
    }

    method SetSeed(value: Option<int>)
      modifies this
      ensures Snapshot() == old(Snapshot()).(seed := value)
    {
      seed := value;
    }

    method SetTemperature(value: real)
      modifies this
      ensures Snapshot() == old(Snapshot()).(temperature := value)
    {
      temperature := value;
    }
  }
}
