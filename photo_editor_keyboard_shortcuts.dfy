/** The photo editor's keyboard shortcuts
    (src/hooks/usePhotoEditorKeyboardShortcuts.ts): which callback a key
    press runs, given the hook's props, and the table of shortcuts the help
    dialog lists. The listener registration is not modelled; a key press is
    handled as a function of the event and the props. */
module PhotoEditorKeyboardShortcuts {
  import opened Types
  import opened Text

  /** The parts of a `KeyboardEvent` the handler reads. */
  datatype KeyEvent = KeyEvent(key: string, metaKey: bool, ctrlKey: bool, shiftKey: bool)

  datatype Props = Props(activeTab: PhotoEditorTab, hasChanges: bool, disabled: bool)

  /** The callback a key press runs, if any. */
  datatype Action = NoAction | Save | Reset | ShowHelp | ChangeTab(tab: PhotoEditorTab)

  /** The callback, and whether `preventDefault` is called. */
  datatype Response = Response(action: Action, preventDefault: bool)

  const Ignored := Response(NoAction, false)

  // ---------------------------------------------------------------------
  // Tab cycling

  /** The tab order of the cycle. */
  const Tabs: seq<PhotoEditorTab> := [Color, Transform, Filters, Export]

  /** `tabs.indexOf(activeTab)`. */
  function TabIndex(t: PhotoEditorTab): (i: nat)
    ensures i < |Tabs| && Tabs[i] == t
  {
    match t
    case Color => 0
    case Transform => 1
    case Filters => 2
    case Export => 3
  }

  /** Tab: the next tab, wrapping around. */
  function NextTab(t: PhotoEditorTab): (r: PhotoEditorTab)
    ensures TabIndex(r) == (TabIndex(t) + 1) % 4
  {
    Tabs[(TabIndex(t) + 1) % |Tabs|]
  }

  /** Shift+Tab: `(currentIndex - 1 + tabs.length) % tabs.length`. */
  function PrevTab(t: PhotoEditorTab): (r: PhotoEditorTab)
    ensures TabIndex(r) == (TabIndex(t) + 3) % 4
  {
    Tabs[(TabIndex(t) - 1 + |Tabs|) % |Tabs|]
  }

  /** Distinct tabs have distinct positions. */
  lemma TabIndexInjective(a: PhotoEditorTab, b: PhotoEditorTab)
    requires TabIndex(a) == TabIndex(b)
    ensures a == b
  {
    assert a == Tabs[TabIndex(a)] == Tabs[TabIndex(b)] == b;
  }

  /** Shift+Tab undoes Tab and Tab undoes Shift+Tab. */
  lemma NextPrevInverse(t: PhotoEditorTab)
    ensures PrevTab(NextTab(t)) == t
    ensures NextTab(PrevTab(t)) == t
  {
    TabIndexInjective(PrevTab(NextTab(t)), t);
    TabIndexInjective(NextTab(PrevTab(t)), t);
  }

  /** Four presses of Tab return to the starting tab, and fewer do not:
      Tab visits every tab. */
  lemma TabCycle(t: PhotoEditorTab)
    ensures NextTab(NextTab(NextTab(NextTab(t)))) == t
    ensures NextTab(t) != t && NextTab(NextTab(t)) != t && NextTab(NextTab(NextTab(t))) != t
    ensures PrevTab(t) == NextTab(NextTab(NextTab(t)))
  {
    TabIndexInjective(NextTab(NextTab(NextTab(NextTab(t)))), t);
    TabIndexInjective(PrevTab(t), NextTab(NextTab(NextTab(t))));
  }

  // ---------------------------------------------------------------------
  // The handler

  /** `handleKeyDown`: nothing when disabled; with Cmd or Ctrl held only
      's' (save) and 'r' (reset, when there are changes) act, compared
      after lower-casing; otherwise '?' shows the help and Tab or Shift+Tab
      moves through the tabs. */
  function HandleKeyDown(p: Props, e: KeyEvent): (r: Response)
    ensures p.disabled ==> r == Ignored
    ensures r.action.ChangeTab? ==> e.key == "Tab" && !(e.metaKey || e.ctrlKey)
    ensures r.action.Save? || r.action.Reset? ==> e.metaKey || e.ctrlKey
    ensures r.action.Reset? ==> p.hasChanges
    ensures r.action.ShowHelp? ==> e.key == "?"
    ensures r.action != NoAction ==> r.preventDefault && !p.disabled
  {
    if p.disabled then Ignored
    else if e.metaKey || e.ctrlKey then
      var k := ToLower(e.key);
      if k == "s" then Response(Save, true)
      else if k == "r" then Response(if p.hasChanges then Reset else NoAction, true)
      else Ignored
    else if e.key == "?" then Response(ShowHelp, true)
    else if e.key == "Tab" then
      Response(ChangeTab(if e.shiftKey then PrevTab(p.activeTab) else NextTab(p.activeTab)), true)
    else Ignored
  }

  /** Cmd/Ctrl+S saves whatever the changes, in either case. */
  lemma SaveShortcut(p: Props, e: KeyEvent)
    requires !p.disabled && (e.metaKey || e.ctrlKey)
    ensures HandleKeyDown(p, e).action == Save <==> e.key == "s" || e.key == "S"
  {
    LowerIsLetter(e.key, 's');
  }

  /** Cmd/Ctrl+R resets only with changes; it is swallowed either way. Any
      other modified key does nothing, Tab and '?' included. */
  lemma ResetShortcut(p: Props, e: KeyEvent)
    requires !p.disabled && (e.metaKey || e.ctrlKey)
    ensures e.key == "r" || e.key == "R" ==>
              HandleKeyDown(p, e) == Response(if p.hasChanges then Reset else NoAction, true)
    ensures !(e.key in {"s", "S", "r", "R"}) ==> HandleKeyDown(p, e) == Ignored
  {
    LowerIsLetter(e.key, 's');
    LowerIsLetter(e.key, 'r');
  }

  /** Without modifiers, Tab and Shift+Tab move one tab forwards and
      backwards, and '?' shows the help. */
  lemma UnmodifiedKeys(p: Props, e: KeyEvent)
    requires !p.disabled && !e.metaKey && !e.ctrlKey
    ensures e.key == "Tab" && !e.shiftKey ==> HandleKeyDown(p, e).action == ChangeTab(NextTab(p.activeTab))
    ensures e.key == "Tab" && e.shiftKey ==> HandleKeyDown(p, e).action == ChangeTab(PrevTab(p.activeTab))
    ensures e.key == "?" ==> HandleKeyDown(p, e) == Response(ShowHelp, true)
    ensures e.key != "Tab" && e.key != "?" ==> HandleKeyDown(p, e) == Ignored
  {
  }

  // ---------------------------------------------------------------------
  // The help table

  datatype Shortcut = Shortcut(key: string, description: string)

  /** The `shortcuts` the hook returns. */
  function ShortcutTable(): (t: seq<Shortcut>)
    ensures |t| == 5
    ensures forall i, j :: 0 <= i < j < |t| ==> t[i].key != t[j].key
  {
    [ Shortcut("Cmd/Ctrl + S", "Save changes"),
      Shortcut("Cmd/Ctrl + R", "Reset all changes"),
      Shortcut("Tab", "Switch to next tab"),
      Shortcut("Shift + Tab", "Switch to previous tab"),
      Shortcut("?", "Show this help dialog") ]
  }
}
