/**
 * Recording a shortcut from a key-down event: Escape cancels, a bare
 * modifier key records nothing, and any other key records the held
 * modifiers in a fixed order followed by the key's code, joined by '+'.
 */
module HotkeyRecording {
  import opened Wrappers
  import opened Strings

  /** The lower-cased key names that count as modifiers and are never recorded alone. */
  predicate IsModifierName(key: string) {
    key == "control" || key == "alt" || key == "shift" || key == "super" || key == "meta"
  }

  /** The modifier names for the held keys, always in the order control, alt, shift, super. */
  function HeldModifiers(ctrl: bool, alt: bool, shift: bool, meta: bool): (r: seq<string>)
    ensures |r| == (if ctrl then 1 else 0) + (if alt then 1 else 0) + (if shift then 1 else 0) + (if meta then 1 else 0)
    ensures forall i :: 0 <= i < |r| ==> IsModifierName(r[i]) && r[i] != "meta"
  {
    (if ctrl then ["control"] else []) + (if alt then ["alt"] else []) +
    (if shift then ["shift"] else []) + (if meta then ["super"] else [])
  }

  /** What a key-down during recording leads to. */
  datatype Outcome = Cancelled | Ignored | Recorded(shortcut: string)

  /**
   * `handleHotkeyKeyDown`. The callbacks are modelled by the outcome; the
   * returned flag is whether the event was handled.
   */
  method HandleHotkeyKeyDown(key: string, code: string, ctrl: bool, alt: bool, shift: bool, meta: bool)
    returns (handled: bool, outcome: Outcome)
    ensures handled
    ensures key == "Escape" <==> outcome == Cancelled
    ensures key != "Escape" && IsModifierName(ToLower(key)) <==> outcome == Ignored
    ensures outcome.Recorded? ==> outcome.shortcut == Join(HeldModifiers(ctrl, alt, shift, meta) + [code], '+')
  {
    if key == "Escape" {
      return true, Cancelled;
    }
    var lowered := ToLower(key);
    var modifiers: seq<string> := [];
    if ctrl { modifiers := modifiers + ["control"]; }
    if alt { modifiers := modifiers + ["alt"]; }
    if shift { modifiers := modifiers + ["shift"]; }
    if meta { modifiers := modifiers + ["super"]; }
    assert modifiers == HeldModifiers(ctrl, alt, shift, meta);
    if IsModifierName(lowered) {
      return true, Ignored;
    }
    modifiers := modifiers + [code];
    if |modifiers| > 0 {
      return true, Recorded(Join(modifiers, '+'));
    }
    assert false;
  }

  /**
   * A recorded shortcut splits back into the held modifiers and the key's
   * code, so it ends with the code; it is empty only for an empty code with
   * no modifier held.
   */
  lemma RecordedShortcutParts(ctrl: bool, alt: bool, shift: bool, meta: bool, code: string)
    requires '+' !in code
    ensures var parts := HeldModifiers(ctrl, alt, shift, meta) + [code];
      Split(Join(parts, '+'), '+') == parts
    ensures var s := Join(HeldModifiers(ctrl, alt, shift, meta) + [code], '+');
      |s| >= |code| && s[|s| - |code|..] == code
    ensures Join(HeldModifiers(ctrl, alt, shift, meta) + [code], '+') == "" <==>
      code == "" && !ctrl && !alt && !shift && !meta
  {
    var mods := HeldModifiers(ctrl, alt, shift, meta);
    var parts := mods + [code];
    forall i | 0 <= i < |parts| ensures '+' !in parts[i] {
      if i < |mods| {
        assert parts[i] == mods[i];
        ModifierNameHasNoPlus(mods[i]);
      }
    }
    SplitJoin(parts, '+');
    JoinEndsWithLast(parts, '+');
    if |mods| > 0 {
      JoinNonEmpty(parts, '+', mods[0]);
    }
  }

  lemma ModifierNameHasNoPlus(name: string)
    requires IsModifierName(name)
    ensures '+' !in name && |name| > 0
  {
  }
}
