/** The color adjustment panel of the photo editor
    (src/components/ColorAdjustmentPanel.tsx): four slider values kept by the
    panel, one history operation recorded per change, and the change
    callback, which the modal wires to `setHasUnsavedChanges(true)`. */
module ColorAdjustmentPanel {
  import opened Types
  import S = SessionSpec
  import M = PhotoEditorModal

  datatype AdjustmentKey = Brightness | Contrast | Saturation | Blur

  /** The panel's `adjustments` record. */
  datatype Adjustments = Adjustments(brightness: int, contrast: int, saturation: int, blur: int)

  /** Every adjustment starts at 0. */
  const Initial := Adjustments(0, 0, 0, 0)

  /** `adjustments[name]`. */
  function Get(a: Adjustments, k: AdjustmentKey): int {
    match k
    case Brightness => a.brightness
    case Contrast => a.contrast
    case Saturation => a.saturation
    case Blur => a.blur
  }

  /** `{ ...adjustments, [name]: value }`: the named value replaced, the
      other three kept. */
  function WithValue(a: Adjustments, k: AdjustmentKey, v: int): (r: Adjustments)
    ensures Get(r, k) == v
    ensures forall other :: other != k ==> Get(r, other) == Get(a, other)
  {
    match k
    case Brightness => a.(brightness := v)
    case Contrast => a.(contrast := v)
    case Saturation => a.(saturation := v)
    case Blur => a.(blur := v)
  }

  /** The property name of each adjustment. */
  function KeyName(k: AdjustmentKey): string {
    match k
    case Brightness => "brightness"
    case Contrast => "contrast"
    case Saturation => "saturation"
    case Blur => "blur"
  }

  const ColorAdjustmentType := "color-adjustment"

  /** The operation a change records: its type, `{ [name]: value }` and the
      clock reading. */
  function ColorOperation(k: AdjustmentKey, v: int, now: int): (op: EditOperation)
    ensures op.opType == ColorAdjustmentType && op.timestamp == now
    ensures op.parameters.Keys == {KeyName(k)} && op.parameters[KeyName(k)] == v
  {
    EditOperation(ColorAdjustmentType, map[KeyName(k) := v], now)
  }

  /** Two changes to the same adjustment: only the second one's value is
      kept. Changes to different adjustments commute. */
  lemma WithValueOverwrites(a: Adjustments, k: AdjustmentKey, v: int, w: int)
    ensures WithValue(WithValue(a, k, v), k, w) == WithValue(a, k, w)
    ensures WithValue(a, k, Get(a, k)) == a
  {
  }

  lemma WithValueCommutes(a: Adjustments, j: AdjustmentKey, v: int, k: AdjustmentKey, w: int)
    requires j != k
    ensures WithValue(WithValue(a, j, v), k, w) == WithValue(WithValue(a, k, w), j, v)
  {
  }

  /** Distinct adjustments are recorded under distinct names, so an
      operation says which slider moved. */
  lemma KeyNamesDistinct(j: AdjustmentKey, k: AdjustmentKey)
    ensures KeyName(j) == KeyName(k) <==> j == k
  {
  }

  // ---------------------------------------------------------------------
  // The slider table

  datatype SliderConfig = SliderConfig(name: string, key: AdjustmentKey, min: int, max: int)

  const SliderConfigs: seq<SliderConfig> := [
    SliderConfig("Brightness", Brightness, -100, 100),
    SliderConfig("Contrast", Contrast, -100, 100),
    SliderConfig("Saturation", Saturation, -100, 100),
    SliderConfig("Blur", Blur, 0, 100)
  ]

  const SliderStep := 1

  /** The position of each adjustment's slider in the table. */
  function SliderIndex(k: AdjustmentKey): (i: nat)
    ensures i < |SliderConfigs| && SliderConfigs[i].key == k
  {
    match k
    case Brightness => 0
    case Contrast => 1
    case Saturation => 2
    case Blur => 3
  }

  /** Each adjustment has exactly one slider; blur ranges over 0..100 and
      the other three over -100..100. */
  lemma SliderTable(k: AdjustmentKey)
    ensures |SliderConfigs| == 4
    ensures forall i :: 0 <= i < |SliderConfigs| && SliderConfigs[i].key == k ==> i == SliderIndex(k)
    ensures var c := SliderConfigs[SliderIndex(k)];
            c.max == 100 && c.min == (if k == Blur then 0 else -100)
  {
  }

  /** Whether a slider could deliver `v` for `k`. `handleValueChange` does
      not check it: the bound is the slider's. */
  predicate WithinSlider(k: AdjustmentKey, v: int) {
    var c := SliderConfigs[SliderIndex(k)];
    c.min <= v <= c.max
  }

  // ---------------------------------------------------------------------
  // The component

  /** The panel as the modal mounts it: its own adjustments, the editor
      whose history it appends to, and the change callback, which marks the
      editor as having unsaved changes. */
  class Panel {
    var adjustments: Adjustments
    const editor: M.Editor

    constructor (editor: M.Editor)
      ensures adjustments == Initial && this.editor == editor
    {
      adjustments := Initial;
      this.editor := editor;
    }

    /** `handleValueChange(name, value)` at clock reading `now`: the new
        record, one operation appended, then the callback. */
    method HandleValueChange(k: AdjustmentKey, v: int, now: int)
      modifies this, editor
      ensures adjustments == WithValue(old(adjustments), k, v)
      ensures editor.State() == ValueChanged(old(editor.State()), k, v, now)
    {
      var newAdjustments := WithValue(adjustments, k, v);
      adjustments := newAdjustments;
      editor.AddOperation(ColorOperation(k, v, now));
      editor.MarkDirty();
    }
  }

  /** What a change does to the editor: the operation appended, then the
      dirty flag set. */
  function ValueChanged(s: S.State, k: AdjustmentKey, v: int, now: int): S.State {
    S.MarkDirty(S.AddOperation(s, ColorOperation(k, v, now)))
  }

  /** A change appends exactly one operation, of type 'color-adjustment',
      carrying only the changed value and the clock reading, and marks the
      editor dirty; nothing else of the editor changes. */
  lemma ValueChangedEffect(s: S.State, k: AdjustmentKey, v: int, now: int)
    ensures var r := ValueChanged(s, k, v, now);
            |r.history| == |s.history| + 1 && r.history[..|s.history|] == s.history
            && r.hasUnsavedChanges
            && r == s.(history := r.history, hasUnsavedChanges := true)
    ensures var op := ValueChanged(s, k, v, now).history[|s.history|];
            op.opType == ColorAdjustmentType && op.timestamp == now
            && op.parameters == map[KeyName(k) := v]
  {
    var r := ValueChanged(s, k, v, now);
    assert r.history == s.history + [ColorOperation(k, v, now)];
    assert r.history[..|s.history|] == s.history;
  }

  /** A change keeps a valid editor state valid and makes no outward call. */
  lemma ValueChangedPreserves(s: S.State, k: AdjustmentKey, v: int, now: int)
    ensures S.Valid(s) ==> S.Valid(ValueChanged(s, k, v, now))
    ensures ValueChanged(s, k, v, now).trace == s.trace
  {
  }
}
