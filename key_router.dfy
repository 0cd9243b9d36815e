/**
 The keydown handler of the shortcut service: an ordered chain of rules, the
 first match wins. One event yields at most one command and the value the
 handler returns to jQuery.
 */
module KeyRouter {
  import opened Wrappers
  import opened Commands
  import opened Modifiers

  /** The fields of a browser keydown event the handler reads. */
  datatype KeyEvent = KeyEvent(keyCode: int, shiftKey: bool, ctrlKey: bool, metaKey: bool)
  {
    function ModifierFlags(): ModifierKeyEvent
    {
      ModifierKeyEvent(metaKey, Some(ctrlKey))
    }
  }

  /** The answers of the action-mode service's four predicates at the time of the event. */
  datatype ActionModes = ActionModes(
    isActionMode: bool,
    isShowingSubPathActionMode: bool,
    isShowingSegmentActionMode: bool,
    isShowingPointActionMode: bool)

  /**
   The handler's return value: `false` (jQuery then prevents the default and
   stops propagation), `true` (an input element has focus), or `undefined`.
   */
  datatype Ret = Handled | InputFocused | PassThrough

  predicate SuppressesDefault(ret: Ret)
  {
    ret == Handled
  }

  datatype Outcome = Outcome(command: Option<Command>, ret: Ret)

  // Key codes: letters are compared against the character code of the upper-case letter.
  const KeyZ: int := 'Z' as int
  const KeyG: int := 'G' as int
  const KeyO: int := 'O' as int
  const KeyR: int := 'R' as int
  const KeyS: int := 'S' as int
  const KeyA: int := 'A' as int
  const KeyD: int := 'D' as int
  const KeyB: int := 'B' as int
  const KeyF: int := 'F' as int
  const KeyBackspace: int := 8
  const KeyDelete: int := 46
  const KeyEscape: int := 27
  const KeySpace: int := 32
  const KeyLeft: int := 37
  const KeyUp: int := 38
  const KeyRight: int := 39
  const KeyDown: int := 40

  lemma LetterKeyCodes()
    ensures KeyZ == 90 && KeyG == 71 && KeyO == 79 && KeyR == 82 && KeyS == 83
    ensures KeyA == 65 && KeyD == 68 && KeyB == 66 && KeyF == 70
  {
  }

  /** Keys bound to a primary-modifier chord. */
  predicate IsChordKey(code: int)
  {
    code == KeyZ || code == KeyG || code == KeyO
  }

  /** Keys bound without modifiers. */
  predicate IsPlainKey(code: int)
  {
    code == KeyBackspace || code == KeyDelete || code == KeyEscape || code == KeySpace
    || code == KeyLeft || code == KeyRight || code == KeyUp || code == KeyDown
    || code == KeyR || code == KeyS || code == KeyA || code == KeyD || code == KeyB || code == KeyF
  }

  /** Keys whose meaning depends on the action-mode predicates. */
  predicate IsModeKey(code: int)
  {
    code == KeyBackspace || code == KeyDelete
    || code == KeyR || code == KeyS || code == KeyA || code == KeyD || code == KeyB || code == KeyF
  }

  function Act(c: Command): Outcome
  {
    Outcome(Some(c), Handled)
  }

  /** What the keydown handler does with one event. */
  function Resolve(ev: KeyEvent, isMac: bool, inputFocused: bool, modes: ActionModes): (r: Outcome)
    // an event causes an action only when it also suppresses the default
    ensures r.command.Some? ==> r.ret == Handled
    // the default is suppressed exactly for a bound chord, or an unmodified bound key outside an input
    ensures r.ret == Handled <==>
      (OsDependentModifierKey(ev.ModifierFlags(), isMac) && IsChordKey(ev.keyCode))
      || (!ev.ctrlKey && !ev.metaKey && !inputFocused && IsPlainKey(ev.keyCode))
    ensures r.ret == InputFocused <==> !ev.ctrlKey && !ev.metaKey && inputFocused
    // the zoom chord is the only emission on the subject; the navigator is reached only by Up and Down
    ensures r.command == Some(EmitZoomToFit) <==> OsDependentModifierKey(ev.ModifierFlags(), isMac) && ev.keyCode == KeyO
    ensures r.command.Some? && r.command.value.ArrowNavigation? ==>
      r.command.value.shiftKey == ev.shiftKey && (ev.keyCode == KeyUp || ev.keyCode == KeyDown)
  {
    var primary := OsDependentModifierKey(ev.ModifierFlags(), isMac);
    var code := ev.keyCode;
    if primary && code == KeyZ then
      Act(if ev.shiftKey then Redo else Undo)
    else if primary && code == KeyG then
      Act(GroupOrUngroupSelectedLayers(!ev.shiftKey))
    else if primary && code == KeyO then
      Act(EmitZoomToFit)
    else if ev.ctrlKey || ev.metaKey then
      Outcome(None, PassThrough)
    else if inputFocused then
      Outcome(None, InputFocused)
    else if code == KeyBackspace || code == KeyDelete then
      Act(if modes.isActionMode then DeleteSelections else DeleteSelectedModels)
    else if code == KeyEscape then
      Act(CloseActionMode)
    else if code == KeySpace then
      Act(ToggleIsPlaying)
    else if code == KeyLeft then
      Act(Rewind)
    else if code == KeyRight then
      Act(FastForward)
    else if code == KeyUp then
      Act(ArrowNavigation(Up, ev.shiftKey))
    else if code == KeyDown then
      Act(ArrowNavigation(Down, ev.shiftKey))
    else if code == KeyR then
      Act(if modes.isShowingSubPathActionMode then ReverseSelectedSubPaths else ToggleIsRepeating)
    else if code == KeyS then
      Act(if modes.isShowingSubPathActionMode || modes.isShowingSegmentActionMode
          then ToggleSplitSubPathsMode else ToggleIsSlowMotion)
    else if code == KeyA then
      if modes.isShowingSubPathActionMode || modes.isShowingSegmentActionMode then Act(ToggleSplitCommandsMode)
      else if modes.isShowingPointActionMode then Act(SplitInHalfClick)
      else Outcome(None, Handled)
    else if code == KeyD then
      if modes.isShowingSubPathActionMode || modes.isShowingSegmentActionMode then Act(TogglePairSubPathsMode)
      else Outcome(None, Handled)
    else if code == KeyB then
      if modes.isShowingSubPathActionMode then Act(ShiftBackSelectedSubPaths)
      else Outcome(None, Handled)
    else if code == KeyF then
      if modes.isShowingSubPathActionMode then Act(ShiftForwardSelectedSubPaths)
      else if modes.isShowingPointActionMode then Act(ShiftPointToFront)
      else Outcome(None, Handled)
    else
      Outcome(None, PassThrough)
  }

  /** Z, G and O with the primary modifier, whatever has focus and whatever the modes. */
  lemma PrimaryModifierChords(ev: KeyEvent, isMac: bool, inputFocused: bool, modes: ActionModes)
    requires OsDependentModifierKey(ev.ModifierFlags(), isMac)
    ensures ev.keyCode == KeyZ ==>
      Resolve(ev, isMac, inputFocused, modes) == Act(if ev.shiftKey then Redo else Undo)
    ensures ev.keyCode == KeyG ==>
      Resolve(ev, isMac, inputFocused, modes) == Act(GroupOrUngroupSelectedLayers(!ev.shiftKey))
    ensures ev.keyCode == KeyO ==>
      Resolve(ev, isMac, inputFocused, modes) == Act(EmitZoomToFit)
  {
  }

  /** The zoom chord is the one key press whose command goes to the shortcut subject rather than the store. */
  lemma OnlyZoomChordReachesSubject(ev: KeyEvent, isMac: bool, inputFocused: bool, modes: ActionModes)
    ensures (Resolve(ev, isMac, inputFocused, modes).command.Some?
             && Target(Resolve(ev, isMac, inputFocused, modes).command.value) == ShortcutSubject)
      <==> OsDependentModifierKey(ev.ModifierFlags(), isMac) && ev.keyCode == KeyO
  {
  }

  /** A held ctrl or meta key that no chord matched passes the event through untouched, e.g. Ctrl+Z on a Mac. */
  lemma OtherModifiersPassThrough(ev: KeyEvent, isMac: bool, inputFocused: bool, modes: ActionModes)
    requires ev.ctrlKey || ev.metaKey
    requires !(OsDependentModifierKey(ev.ModifierFlags(), isMac) && IsChordKey(ev.keyCode))
    ensures Resolve(ev, isMac, inputFocused, modes) == Outcome(None, PassThrough)
  {
  }

  lemma CtrlZOnMacDoesNothing(shiftKey: bool, inputFocused: bool, modes: ActionModes)
    ensures Resolve(KeyEvent(KeyZ, shiftKey, true, false), true, inputFocused, modes) == Outcome(None, PassThrough)
  {
  }

  /** Without modifiers, a focused input swallows every key. */
  lemma FocusedInputIgnoresShortcuts(ev: KeyEvent, isMac: bool, modes: ActionModes)
    requires !ev.ctrlKey && !ev.metaKey
    ensures Resolve(ev, isMac, true, modes) == Outcome(None, InputFocused)
  {
  }

  /** A key that no rule names passes through. */
  lemma UnboundKeysPassThrough(ev: KeyEvent, isMac: bool, inputFocused: bool, modes: ActionModes)
    requires !IsChordKey(ev.keyCode) && !IsPlainKey(ev.keyCode)
    ensures Resolve(ev, isMac, inputFocused, modes).command == None
    ensures Resolve(ev, isMac, inputFocused, modes).ret != Handled
  {
  }

  /** The plain keys that do not read any mode; arrows hand over to the navigator. */
  lemma PlainSingleCallKeys(ev: KeyEvent, isMac: bool, modes: ActionModes)
    requires !ev.ctrlKey && !ev.metaKey
    ensures ev.keyCode == KeyEscape ==> Resolve(ev, isMac, false, modes) == Act(CloseActionMode)
    ensures ev.keyCode == KeySpace ==> Resolve(ev, isMac, false, modes) == Act(ToggleIsPlaying)
    ensures ev.keyCode == KeyLeft ==> Resolve(ev, isMac, false, modes) == Act(Rewind)
    ensures ev.keyCode == KeyRight ==> Resolve(ev, isMac, false, modes) == Act(FastForward)
    ensures ev.keyCode == KeyUp ==> Resolve(ev, isMac, false, modes) == Act(ArrowNavigation(Up, ev.shiftKey))
    ensures ev.keyCode == KeyDown ==> Resolve(ev, isMac, false, modes) == Act(ArrowNavigation(Down, ev.shiftKey))
  {
  }

  /** Backspace and Delete go to the action-mode service in an action mode and to the store otherwise, never both. */
  lemma DeleteKeys(ev: KeyEvent, isMac: bool, modes: ActionModes)
    requires !ev.ctrlKey && !ev.metaKey
    requires ev.keyCode == KeyBackspace || ev.keyCode == KeyDelete
    ensures modes.isActionMode ==> Resolve(ev, isMac, false, modes) == Act(DeleteSelections)
    ensures !modes.isActionMode ==> Resolve(ev, isMac, false, modes) == Act(DeleteSelectedModels)
    ensures Target(Resolve(ev, isMac, false, modes).command.value) == if modes.isActionMode then ActionMode else Store
  {
  }

  /** The mode-overloaded letters: the first predicate that holds picks the command. */
  lemma ModeOverloadedKeys(ev: KeyEvent, isMac: bool, modes: ActionModes)
    requires !ev.ctrlKey && !ev.metaKey
    ensures ev.keyCode == KeyR ==> (
      Resolve(ev, isMac, false, modes).command ==
      Some(if modes.isShowingSubPathActionMode then ReverseSelectedSubPaths else ToggleIsRepeating))
    ensures ev.keyCode == KeyS ==> (
      Resolve(ev, isMac, false, modes).command ==
      Some(if modes.isShowingSubPathActionMode || modes.isShowingSegmentActionMode
           then ToggleSplitSubPathsMode else ToggleIsSlowMotion))
    ensures ev.keyCode == KeyA ==> (
      Resolve(ev, isMac, false, modes).command ==
      if modes.isShowingSubPathActionMode || modes.isShowingSegmentActionMode then Some(ToggleSplitCommandsMode)
      else if modes.isShowingPointActionMode then Some(SplitInHalfClick) else None)
    ensures ev.keyCode == KeyD ==> (
      Resolve(ev, isMac, false, modes).command ==
      if modes.isShowingSubPathActionMode || modes.isShowingSegmentActionMode then Some(TogglePairSubPathsMode) else None)
    ensures ev.keyCode == KeyB ==> (
      Resolve(ev, isMac, false, modes).command ==
      if modes.isShowingSubPathActionMode then Some(ShiftBackSelectedSubPaths) else None)
    ensures ev.keyCode == KeyF ==> (
      Resolve(ev, isMac, false, modes).command ==
      if modes.isShowingSubPathActionMode then Some(ShiftForwardSelectedSubPaths)
      else if modes.isShowingPointActionMode then Some(ShiftPointToFront) else None)
    ensures IsModeKey(ev.keyCode) ==> Resolve(ev, isMac, false, modes).ret == Handled
  {
  }

  /** A, D, B and F with no matching mode call nothing but still suppress the default. */
  lemma SilentlyHandledKeys(ev: KeyEvent, isMac: bool, modes: ActionModes)
    requires !ev.ctrlKey && !ev.metaKey
    requires !modes.isShowingSubPathActionMode && !modes.isShowingSegmentActionMode && !modes.isShowingPointActionMode
    requires ev.keyCode == KeyA || ev.keyCode == KeyD || ev.keyCode == KeyB || ev.keyCode == KeyF
    ensures Resolve(ev, isMac, false, modes) == Outcome(None, Handled)
  {
  }

  /** When several predicates hold at once, the earlier branch wins: sub-path over point for A and F. */
  lemma EarlierModeBranchWins(ev: KeyEvent, isMac: bool, modes: ActionModes)
    requires !ev.ctrlKey && !ev.metaKey
    requires modes.isShowingSubPathActionMode && modes.isShowingPointActionMode
    ensures ev.keyCode == KeyA ==> Resolve(ev, isMac, false, modes) == Act(ToggleSplitCommandsMode)
    ensures ev.keyCode == KeyF ==> Resolve(ev, isMac, false, modes) == Act(ShiftForwardSelectedSubPaths)
  {
  }

  /** Only the mode-overloaded keys read the action-mode predicates. */
  lemma ModesMatterOnlyForModeKeys(ev: KeyEvent, isMac: bool, inputFocused: bool, modes: ActionModes, modes': ActionModes)
    requires !IsModeKey(ev.keyCode)
    ensures Resolve(ev, isMac, inputFocused, modes) == Resolve(ev, isMac, inputFocused, modes')
  {
  }

  /** The platform matters only through the primary modifier: with neither ctrl nor meta held it is irrelevant. */
  lemma PlatformMattersOnlyWithModifiers(ev: KeyEvent, inputFocused: bool, modes: ActionModes)
    requires !ev.ctrlKey && !ev.metaKey
    ensures Resolve(ev, true, inputFocused, modes) == Resolve(ev, false, inputFocused, modes)
  {
  }

  /** Undo on a Mac: Cmd+Z dispatches Undo once and suppresses the default. */
  lemma CmdZIsUndoOnMac(inputFocused: bool, modes: ActionModes)
    ensures Resolve(KeyEvent(KeyZ, false, false, true), true, inputFocused, modes) == Act(Undo)
  {
  }
}
