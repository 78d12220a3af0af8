/**
 * How a recorded shortcut is shown: each '+'-separated key loses its first
 * "Key" and is then replaced by its platform label when it has one.
 */
module KeyMapping {
  import opened Wrappers
  import opened Strings

  /** The operating system reported by the OS plugin; only macOS is told apart. */
  datatype Platform = MacOS | Other

  /** The arrow keys' labels, shared by both tables. */
  function ArrowLabel(k: string): Option<string> {
    if k == "ArrowUp" then Some("Up")
    else if k == "ArrowDown" then Some("Down")
    else if k == "ArrowLeft" then Some("Left")
    else if k == "ArrowRight" then Some("Right")
    else None
  }

  /** The macOS table: the arrows, then the modifier and return labels. */
  function MacLabel(k: string): Option<string> {
    if k == "control" then Some("Ctrl")
    else if k == "alt" then Some("Option")
    else if k == "shift" then Some("Shift")
    else if k == "meta" then Some("Cmd")
    else if k == "super" then Some("Cmd")
    else if k == "return" then Some("Return")
    else ArrowLabel(k)
  }

  /** The table for every other platform. */
  function WindowsLabel(k: string): Option<string> {
    if k == "control" then Some("CTRL")
    else if k == "alt" then Some("ALT")
    else if k == "shift" then Some("Shift")
    else if k == "meta" then Some("WIN")
    else if k == "super" then Some("WIN")
    else ArrowLabel(k)
  }

  /** `KEY_MAPPING[key]`: the label of a key on a platform, if the table has one. */
  function Label(platform: Platform, k: string): Option<string> {
    if platform == MacOS then MacLabel(k) else WindowsLabel(k)
  }

  /** One key of a shortcut as displayed. */
  function MapKey(platform: Platform, key: string): (r: string)
    ensures var k := ReplaceFirst(key, "Key", "");
      (Label(platform, k).Some? ==> r == Label(platform, k).value) && (Label(platform, k).None? ==> r == k)
  {
    var k := ReplaceFirst(key, "Key", "");
    match Label(platform, k)
    case Some(text) => text
    case None => k
  }

  /**
   * `getShortcutMapping`: the shortcut with every key displayed by `MapKey`.
   * The display has exactly as many '+'-separated parts as the recorded
   * shortcut, and each part is the display of the matching key.
   */
  function ShortcutMapping(platform: Platform, shortcut: string): (r: string)
    ensures var keys := Split(shortcut, '+');
      var shown := Split(r, '+');
      |shown| == |keys| && forall i :: 0 <= i < |keys| ==> shown[i] == MapKey(platform, keys[i])
  {
    var keys := Split(shortcut, '+');
    var mapped := seq(|keys|, i requires 0 <= i < |keys| => MapKey(platform, keys[i]));
    MappedKeysKeepPlusOut(platform, keys);
    SplitJoin(mapped, '+');
    Join(mapped, '+')
  }

  /** No label contains the separator. */
  lemma LabelsHaveNoPlus(platform: Platform, k: string)
    requires Label(platform, k).Some?
    ensures '+' !in Label(platform, k).value
  {
  }

  /** A key without '+' is displayed without '+'. */
  lemma MapKeyKeepsPlusOut(platform: Platform, key: string)
    requires '+' !in key
    ensures '+' !in MapKey(platform, key)
  {
    var k := ReplaceFirst(key, "Key", "");
    assert '+' !in k;
    if Label(platform, k).Some? {
      LabelsHaveNoPlus(platform, k);
    }
  }

  /** Keys without '+' are displayed without '+'. */
  lemma MappedKeysKeepPlusOut(platform: Platform, keys: seq<string>)
    requires forall i :: 0 <= i < |keys| ==> '+' !in keys[i]
    ensures forall i :: 0 <= i < |keys| ==> '+' !in MapKey(platform, keys[i])
  {
    forall i | 0 <= i < |keys| ensures '+' !in MapKey(platform, keys[i]) {
      MapKeyKeepsPlusOut(platform, keys[i]);
    }
  }

  /** On macOS, super and meta read "Cmd", alt reads "Option" and control "Ctrl". */
  lemma MacModifierLabels(key: string)
    requires key == "super" || key == "meta" || key == "alt" || key == "control"
    ensures key == "super" || key == "meta" ==> MapKey(MacOS, key) == "Cmd"
    ensures key == "alt" ==> MapKey(MacOS, key) == "Option"
    ensures key == "control" ==> MapKey(MacOS, key) == "Ctrl"
  {
    NoKeyIn(key);
  }

  /** Elsewhere, super and meta read "WIN", alt reads "ALT" and control "CTRL". */
  lemma OtherModifierLabels(key: string)
    requires key == "super" || key == "meta" || key == "alt" || key == "control"
    ensures key == "super" || key == "meta" ==> MapKey(Other, key) == "WIN"
    ensures key == "alt" ==> MapKey(Other, key) == "ALT"
    ensures key == "control" ==> MapKey(Other, key) == "CTRL"
  {
    NoKeyIn(key);
  }

  /** The arrow keys read the same on both platforms. */
  lemma ArrowLabels(platform: Platform, key: string)
    requires ArrowLabel(key).Some?
    ensures MapKey(platform, key) == ArrowLabel(key).value
    ensures key == "ArrowUp" ==> MapKey(platform, key) == "Up"
    ensures key == "ArrowDown" ==> MapKey(platform, key) == "Down"
    ensures key == "ArrowLeft" ==> MapKey(platform, key) == "Left"
    ensures key == "ArrowRight" ==> MapKey(platform, key) == "Right"
  {
    NoKeyIn(key);
  }

  /** A letter key code loses its "Key" prefix: "KeyA" is shown as "A". */
  lemma LetterKeysDropPrefix(platform: Platform, code: string, letter: char)
    requires 'A' <= letter <= 'Z' && code == "Key" + [letter]
    ensures MapKey(platform, code) == [letter]
  {
    assert OccursAt(code, "Key", 0);
    assert code[3..] == [letter];
    assert Label(platform, [letter]).None?;
  }

  /** A name without a capital K has no "Key" in it, so the replacement leaves it alone. */
  lemma NoKeyIn(s: string)
    requires 'K' !in s
    ensures ReplaceFirst(s, "Key", "") == s
  {
    if IndexOf(s, "Key").Some? {
      OccurrenceStartsWith(s, "Key", IndexOf(s, "Key").value);
      assert false;
    }
  }
}
