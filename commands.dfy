/**
 Everything one key press can cause: a store dispatch, a call into the
 action-mode, animator or playback collaborator, an emission on the
 service's own shortcut subject, or a call of the arrow-key navigator.
 */
module Commands {

  datatype Direction = Up | Down

  /** Who receives a command. */
  datatype Collaborator = Store | ActionMode | Animator | Playback | ShortcutSubject | Navigator

  datatype Command =
    // store actions
    | Undo
    | Redo
    | GroupOrUngroupSelectedLayers(isGroup: bool)
    | DeleteSelectedModels
    | SelectLayer(id: string, clearExisting: bool)
    // action-mode service calls
    | DeleteSelections
    | CloseActionMode
    | ReverseSelectedSubPaths
    | ToggleSplitSubPathsMode
    | ToggleSplitCommandsMode
    | SplitInHalfClick
    | TogglePairSubPathsMode
    | ShiftBackSelectedSubPaths
    | ShiftForwardSelectedSubPaths
    | ShiftPointToFront
    // animator service calls
    | Rewind
    | FastForward
    // playback service calls
    | ToggleIsPlaying
    | ToggleIsRepeating
    | ToggleIsSlowMotion
    // `Shortcut.ZoomToFit` emitted on the service's subject
    | EmitZoomToFit
    // the service's own `onArrow(event, direction)`
    | ArrowNavigation(direction: Direction, shiftKey: bool)

  function Target(c: Command): Collaborator
  {
    match c
    case Undo | Redo | GroupOrUngroupSelectedLayers(_) | DeleteSelectedModels | SelectLayer(_, _) => Store
    case DeleteSelections | CloseActionMode | ReverseSelectedSubPaths | ToggleSplitSubPathsMode
      | ToggleSplitCommandsMode | SplitInHalfClick | TogglePairSubPathsMode | ShiftBackSelectedSubPaths
      | ShiftForwardSelectedSubPaths | ShiftPointToFront => ActionMode
    case Rewind | FastForward => Animator
    case ToggleIsPlaying | ToggleIsRepeating | ToggleIsSlowMotion => Playback
    case EmitZoomToFit => ShortcutSubject
    case ArrowNavigation(_, _) => Navigator
  }
}
