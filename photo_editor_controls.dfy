/** The Reset / Save / Cancel buttons of the photo editor
    (src/components/PhotoEditorControls.tsx): when each is enabled and what
    the Save button says. */
module PhotoEditorControls {

  datatype Props = Props(hasChanges: bool, isSaving: bool, isResetting: bool)

  /** The `disabled` expressions of the three buttons. */
  predicate ResetDisabled(p: Props) { !p.hasChanges || p.isSaving || p.isResetting }

  predicate SaveDisabled(p: Props) { !p.hasChanges || p.isSaving }

  predicate CancelDisabled(p: Props) { p.isSaving }

  function SaveLabel(p: Props): string {
    if p.isSaving then "Saving..." else "Save"
  }

  /** Reset needs changes and no save or reset under way; Save needs changes
      and no save; Cancel only needs no save, whatever the changes. An
      enabled Reset implies an enabled Save. */
  lemma Enablement(p: Props)
    ensures !ResetDisabled(p) <==> p.hasChanges && !p.isSaving && !p.isResetting
    ensures !SaveDisabled(p) <==> p.hasChanges && !p.isSaving
    ensures !CancelDisabled(p) <==> !p.isSaving
    ensures CancelDisabled(p) == CancelDisabled(p.(hasChanges := !p.hasChanges))
    ensures !ResetDisabled(p) ==> !SaveDisabled(p)
    ensures SaveLabel(p) == "Saving..." <==> p.isSaving
  {
  }
}
