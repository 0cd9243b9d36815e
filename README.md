# ShapeShifter keyboard shortcuts, modelled in Dafny

A model of `ShortcutService` from ShapeShifter's Angular front end
(`src/app/services/shortcut.service.ts`). The service turns keydown events into editor commands. It has four parts:

- **Primary modifier and labels** (`modifiers.dfy`). The primary modifier is Meta on a Mac and Ctrl elsewhere. The
  platform is `IsMac(appVersion)`, a substring test on the application version, and is passed everywhere else as a
  boolean. `ZoomToFitText` builds the "Cmd + O" / "Ctrl + O" label.
- **The keydown handler** (`key_router.dfy`). `Resolve` is the handler body written as one total function: the same
  ordered first-match-wins chain, the same key codes, the same mode tests. It returns at most one `Command` and the
  handler's return value: `Handled` for `false`, `InputFocused` for `true` and `PassThrough` for `undefined`.
  `Command` (`commands.dfy`) lists every store action, every action-mode, animator and playback call, the
  `Shortcut.ZoomToFit` emission, and the call of the arrow navigator.
- **The navigator** (`navigator.dfy`, `layers.dfy`). `Navigate` specifies `onArrow`: the layer tree is walked in
  pre-order, the first walked id that is selected is the anchor, and `SelectLayer(neighbour, !shift)` is dispatched.
  `CollectIds` (a worklist loop that pushes ids in walk order) and `FindIndex` (lodash `findIndex`) are the imperative
  steps. `ShortcutService.OnArrow` chains them and is proved equal to `Navigate`.
- **The lifecycle** (`shortcut_service.dfy`). A class with the `isInit` field and a ghost count of the keydown
  handlers registered on the window. `Init` and `Destroy` are idempotent. `KeyDown` composes `Resolve` with the
  navigator, so it gives everything one event sends to collaborators.

Behaviour kept exactly as written in the source:

- Going down requires `index + 1 < length - 1`. So the last walked layer is never selected by Down, and Down from the
  second-to-last layer does nothing (`Navigator.DownNeverReachesLast`, `Navigator.DownFromSecondToLastIsNoop`).
- When the selection is non-empty but contains no walked id, `findIndex` gives -1. Up then does nothing. Down selects
  the first walked id (the vector layer itself) once at least two ids are walked (`Navigator.SelectionOutsideWalk`).
- A, D, B and F with no matching mode call nothing but still return `false`, and arrow keys return `false` even when
  the navigator dispatches nothing, so a handled event can have no effect at all.

## Model

| member | source | states |
|---|---|---|
| `Modifiers.IsMacWherever` | src/app/services/shortcut.service.ts:44-46 | a version string with "Mac" anywhere in it counts as a Mac |
| `Modifiers.OsDependentModifierKey` | src/app/services/shortcut.service.ts:48-50 | on a Mac the primary modifier is held iff meta is held; elsewhere iff ctrl is present and true |
| `Modifiers.PrimaryModifierIgnoresTheOtherKey` | src/app/services/shortcut.service.ts:34-50 | the Mac answer does not depend on ctrl, the other answer does not depend on meta, and an absent ctrl counts as not held |
| `Modifiers.ZoomToFitText` | src/app/services/shortcut.service.ts:193-199 | the label is "Cmd + O" on a Mac and "Ctrl + O" elsewhere |
| `Modifiers.ZoomToFitTextDistinguishesPlatforms` | src/app/services/shortcut.service.ts:193-199 | equal labels mean equal platforms |
| `KeyRouter.LetterKeyCodes` | src/app/services/shortcut.service.ts:71-173 | the letter codes compared against are 90, 71, 79, 82, 83, 65, 68, 66 and 70 |
| `KeyRouter.Resolve` | src/app/services/shortcut.service.ts:69-182 | every command comes with `false`; `false` is returned iff a bound chord is pressed with the primary modifier or an unmodified bound key is pressed outside an input; `true` iff no ctrl/meta is held and an input has focus; the zoom emission happens iff primary+O; the navigator is reached only from Up and Down, carrying the event's shift flag |
| `KeyRouter.PrimaryModifierChords` | src/app/services/shortcut.service.ts:70-85 | with the primary modifier, Z gives Redo with shift and Undo without, G gives group/ungroup with `!shift`, O gives the zoom emission, whatever has focus and whatever the modes |
| `KeyRouter.OnlyZoomChordReachesSubject` | src/app/services/shortcut.service.ts:69-182 | a key press yields a command for the shortcut subject (rather than the store or a service) iff it is the primary modifier with O |
| `KeyRouter.OtherModifiersPassThrough` | src/app/services/shortcut.service.ts:86-89 | a held ctrl or meta that no chord matched yields no command and `undefined` |
| `KeyRouter.CtrlZOnMacDoesNothing` | src/app/services/shortcut.service.ts:70-89 | Ctrl+Z on a Mac yields no command and `undefined` |
| `KeyRouter.FocusedInputIgnoresShortcuts` | src/app/services/shortcut.service.ts:90-93 | without ctrl or meta, a focused input yields no command and `true` for every key |
| `KeyRouter.UnboundKeysPassThrough` | src/app/services/shortcut.service.ts:181 | a key no rule names yields no command and never `false` |
| `KeyRouter.PlainSingleCallKeys` | src/app/services/shortcut.service.ts:104-133 | Escape, Space, Left and Right give exactly closeActionMode, toggleIsPlaying, rewind and fastForward; Up and Down call the navigator with their direction and the shift flag; all return `false` |
| `KeyRouter.DeleteKeys` | src/app/services/shortcut.service.ts:94-103 | Backspace and Delete call deleteSelections in an action mode and dispatch DeleteSelectedModels otherwise, never both, and return `false`; the recipient is the action-mode service in an action mode and the store otherwise |
| `KeyRouter.ModeOverloadedKeys` | src/app/services/shortcut.service.ts:134-180 | the command of R, S, A, D, B and F for every combination of the mode predicates, the first true predicate winning, and `false` for each |
| `KeyRouter.SilentlyHandledKeys` | src/app/services/shortcut.service.ts:151-180 | A, D, B and F with no sub-path, segment or point mode make no call and still return `false` |
| `KeyRouter.EarlierModeBranchWins` | src/app/services/shortcut.service.ts:151-180 | when sub-path and point mode both hold, A toggles split-commands mode and F shifts sub-paths forward; the point branches apply only when the earlier test fails |
| `KeyRouter.ModesMatterOnlyForModeKeys` | src/app/services/shortcut.service.ts:69-182 | only Backspace, Delete, R, S, A, D, B and F read the action-mode predicates |
| `KeyRouter.PlatformMattersOnlyWithModifiers` | src/app/services/shortcut.service.ts:70-93 | with neither ctrl nor meta held the platform does not change the outcome |
| `KeyRouter.CmdZIsUndoOnMac` | src/app/services/shortcut.service.ts:70-76 | Cmd+Z on a Mac dispatches Undo to the store and returns `false` |
| `Layers.FlattenForestAppend` | src/app/services/shortcut.service.ts:210-211 | walking a concatenation of sibling lists visits the first list, then the second |
| `Layers.FlattenVisitsExactlyTheTree` | src/app/services/shortcut.service.ts:210-211 | an id is walked iff it names the root or one of its descendants |
| `Layers.FlattenForestVisitsExactly` | src/app/services/shortcut.service.ts:210-211 | an id is walked in a sibling list iff it is in one of the trees of the list |
| `Layers.FlattenStartsAtRoot` | src/app/services/shortcut.service.ts:210-211 | the walk is never empty and starts with the root's id |
| `Navigator.FirstIndex` | src/app/services/shortcut.service.ts:212 | -1 iff no id is selected; otherwise a selected position with no selected id before it |
| `Navigator.FindIndex` | src/app/services/shortcut.service.ts:212 | the front-to-back scan returns `FirstIndex` |
| `Navigator.CollectIds` | src/app/services/shortcut.service.ts:210-211 | the ids pushed during the walk are the pre-order flattening of the tree |
| `Navigator.Navigate` | src/app/services/shortcut.service.ts:207-223 | an empty selection dispatches nothing; any dispatch is a `SelectLayer` of a walked id with `clearExisting == !shift` |
| `Navigator.UpFromAnchor` | src/app/services/shortcut.service.ts:212-218 | Up selects the id just before the anchor iff the anchor is not at position 0, otherwise nothing |
| `Navigator.DownFromAnchor` | src/app/services/shortcut.service.ts:212-223 | Down selects the id just after the anchor iff `anchor + 1 < length - 1`, otherwise nothing |
| `Navigator.DownFromSecondToLastIsNoop` | src/app/services/shortcut.service.ts:219-223 | Down with the anchor on the second-to-last walked id dispatches nothing |
| `Navigator.DownNeverReachesLast` | src/app/services/shortcut.service.ts:219-223 | with distinct ids, Down never selects the last walked layer |
| `Navigator.SelectionOutsideWalk` | src/app/services/shortcut.service.ts:207-223 | a non-empty selection with no walked id in it: Up does nothing, Down selects the first walked id iff at least two ids are walked |
| `Navigator.NavigationExample` | src/app/services/shortcut.service.ts:207-223 | on a five-layer tree: pre-order order, interior moves both ways, the shift flag keeps the existing selection, the first walked selected id is the anchor, and the boundaries do nothing |
| `Shortcuts.ShortcutService.constructor` | src/app/services/shortcut.service.ts:41 | a new service is not listening and has registered no handler |
| `Shortcuts.ShortcutService.Init` | src/app/services/shortcut.service.ts:63-69 | afterwards the service is listening with exactly one handler; a call while listening changes nothing |
| `Shortcuts.ShortcutService.Destroy` | src/app/services/shortcut.service.ts:185-191 | afterwards the service is not listening and no handler is registered; a call while not listening changes nothing |
| `Shortcuts.ShortcutService.OnArrow` | src/app/services/shortcut.service.ts:202-225 | the store action dispatched is exactly `Navigate` of the walked ids, the selection, the direction and the shift flag |
| `Shortcuts.ShortcutService.KeyDown` | src/app/services/shortcut.service.ts:69-182 | while the service is listening with its one handler, the handler returns `Resolve`'s value and sends at most one command, only with `false`; arrow keys send the navigator's selection, every other command is sent as resolved |
| `Shortcuts.InitAndDestroyTwice` | src/app/services/shortcut.service.ts:63-191 | two `init` calls leave one handler registered and the service listening; two `destroy` calls then leave it stopped with none |

## Left out

- The jQuery binding `$(window).on('keydown', …)` and `$(window).unbind('keydown')` are reduced to a ghost count of this service's handlers. `unbind('keydown')` removes every keydown handler on the window, including other code's, and the model does not track those.
- jQuery's treatment of the handler's return value (a `false` result prevents the default and stops propagation) is not modelled beyond `SuppressesDefault`.
- The explicit `event.preventDefault()` for Backspace and Delete is not modelled separately. It matters only when `deleteSelections()` or the store dispatch throws. In that case the default is already suppressed but `return false` is never reached. The model has no such path.
- Exceptions thrown by the collaborators (the store and the action-mode, animator and playback services) are not modelled. Every call is assumed to return normally.
- `document.activeElement.matches('input')` and `navigator.appVersion` are DOM and browser reads. They are parameters: `inputFocused`, and `isMac` (to be computed as `IsMac(appVersion)`).
- The RxJS plumbing is left out: `Subject`, `asObservable` and `combineLatest(…).first()`. The navigator is given the vector layer and the selected ids as a synchronous snapshot. Emissions and dispatches are returned as `Command` values.
- The store, redux-undo and the action-mode, animator and playback services are opaque. Their calls are `Command` constructors, and the four action-mode predicates are `ActionModes` inputs. What `SelectLayer(id, clearExisting)` does to the selection is the store's reducer, which is not part of this model.
- `Layer.walk` is not part of this model. `Layers.Flatten` stands for it as a pre-order traversal (parent first, children in sibling order).
- `Navigator.DownNeverReachesLast`: assumes the walked ids are distinct. Layer ids are unique in the store, but this file does not enforce it.
- The action-mode service's invariant that at most one "showing" predicate holds is not assumed; the lemmas cover every combination.
- `src/app/scripts/common/index.ts` only re-exports other modules and has no logic.
