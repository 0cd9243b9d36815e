/**
 The platform-dependent primary modifier and the shortcut labels built on it.
 The platform is a boolean: whether the runtime's application version string
 mentions "Mac".
 */
module Modifiers {
  import opened Wrappers

  /** `sub` occurs in `s` starting at position `i`. */
  predicate OccursAt(s: string, sub: string, i: int)
  {
    0 <= i <= |s| - |sub| && s[i..i + |sub|] == sub
  }

  /** `sub` occurs in `s` at some position. */
  predicate Includes(s: string, sub: string)
  {
    exists i | 0 <= i <= |s| - |sub| :: OccursAt(s, sub, i)
  }

  /** The platform test applied to the runtime's application version string. */
  predicate IsMac(appVersion: string)
  {
    Includes(appVersion, "Mac")
  }

  /** Any version string with "Mac" somewhere in it counts as a Mac. */
  lemma IsMacWherever(before: string, after: string)
    ensures IsMac(before + "Mac" + after)
  {
    var s := before + "Mac" + after;
    assert s[|before|..|before| + 3] == "Mac";
    assert OccursAt(s, "Mac", |before|);
  }

  /** The modifier flags of an event; `ctrlKey` may be absent. */
  datatype ModifierKeyEvent = ModifierKeyEvent(metaKey: bool, ctrlKey: Option<bool>)

  /** Whether the platform's primary ("command") modifier is held. */
  function OsDependentModifierKey(event: ModifierKeyEvent, isMac: bool): (pressed: bool)
    ensures isMac ==> (pressed <==> event.metaKey)
    ensures !isMac ==> (pressed <==> event.ctrlKey == Some(true))
  {
    if isMac then event.metaKey else event.ctrlKey.Some? && event.ctrlKey.value
  }

  /** On a Mac the ctrl flag is ignored; elsewhere the meta flag is, and an absent ctrl flag counts as not held. */
  lemma PrimaryModifierIgnoresTheOtherKey(meta: bool, ctrl: Option<bool>, meta': bool, ctrl': Option<bool>)
    ensures OsDependentModifierKey(ModifierKeyEvent(meta, ctrl), true)
         == OsDependentModifierKey(ModifierKeyEvent(meta, ctrl'), true)
    ensures OsDependentModifierKey(ModifierKeyEvent(meta, ctrl), false)
         == OsDependentModifierKey(ModifierKeyEvent(meta', ctrl), false)
    ensures !OsDependentModifierKey(ModifierKeyEvent(meta, None), false)
  {
  }

  function CmdOrCtrlText(isMac: bool): string
  {
    if isMac then "Cmd" else "Ctrl"
  }

  /** The label shown for the zoom-to-fit shortcut. */
  function ZoomToFitText(isMac: bool): (text: string)
    ensures isMac ==> text == "Cmd + O"
    ensures !isMac ==> text == "Ctrl + O"
  {
    CmdOrCtrlText(isMac) + " + O"
  }

  /** The label tells the two platforms apart. */
  lemma ZoomToFitTextDistinguishesPlatforms(isMac: bool, isMac': bool)
    requires ZoomToFitText(isMac) == ZoomToFitText(isMac')
    ensures isMac == isMac'
  {
  }
}
