/**
 * The macOS drag-to-zone detector: global mouse and key events drive a
 * small state machine. A left-button drag of the frontmost window snaps it
 * to the zone under the pointer on release, but only if the configured
 * modifier key was held at some moment during the drag.
 */
module DragDetector {
  import opened Wrappers
  import opened LayoutActions
  import LayoutStore
  import ScreenSelection

  /** The keys the detector tells apart; every other key is `OtherKey`. */
  datatype Key =
    | ControlLeft | ControlRight | Alt | AltGr | ShiftLeft | ShiftRight | MetaLeft | MetaRight
    | OtherKey

  /** The events forwarded by the global listener. */
  datatype DragEvent =
    | ButtonDown
    | ButtonUp
    | MouseMove(x: real, y: real)
    | KeyPress(key: Key)
    | KeyRelease(key: Key)

  /** Which modifier keys are down. */
  datatype ModifierState = ModifierState(control: bool, alt: bool, shift: bool, superKey: bool)

  /** The settings name of the modifier a key belongs to, if any. */
  function ModifierName(k: Key): Option<string> {
    match k
    case ControlLeft => Some("control")
    case ControlRight => Some("control")
    case Alt => Some("alt")
    case AltGr => Some("alt")
    case ShiftLeft => Some("shift")
    case ShiftRight => Some("shift")
    case MetaLeft => Some("super")
    case MetaRight => Some("super")
    case OtherKey => None
  }

  /** `is_modifier_pressed`: the flag for a known name; any other name is not pressed. */
  function IsModifierPressed(s: ModifierState, name: string): (r: bool)
    ensures r ==> name == "control" || name == "alt" || name == "shift" || name == "super"
    ensures name == "control" ==> (r <==> s.control)
    ensures name == "alt" ==> (r <==> s.alt)
    ensures name == "shift" ==> (r <==> s.shift)
    ensures name == "super" ==> (r <==> s.superKey)
  {
    if name == "control" then s.control
    else if name == "alt" then s.alt
    else if name == "shift" then s.shift
    else if name == "super" then s.superKey
    else false
  }

  /** A key press: either variant of a modifier sets its flag; other keys change nothing. */
  function Press(s: ModifierState, k: Key): (r: ModifierState)
    ensures ModifierName(k).None? ==> r == s
  {
    match k
    case ControlLeft => s.(control := true)
    case ControlRight => s.(control := true)
    case Alt => s.(alt := true)
    case AltGr => s.(alt := true)
    case ShiftLeft => s.(shift := true)
    case ShiftRight => s.(shift := true)
    case MetaLeft => s.(superKey := true)
    case MetaRight => s.(superKey := true)
    case OtherKey => s
  }

  /** A key release: either variant of a modifier clears its flag; other keys change nothing. */
  function Release(s: ModifierState, k: Key): (r: ModifierState)
    ensures ModifierName(k).None? ==> r == s
  {
    match k
    case ControlLeft => s.(control := false)
    case ControlRight => s.(control := false)
    case Alt => s.(alt := false)
    case AltGr => s.(alt := false)
    case ShiftLeft => s.(shift := false)
    case ShiftRight => s.(shift := false)
    case MetaLeft => s.(superKey := false)
    case MetaRight => s.(superKey := false)
    case OtherKey => s
  }

  /** After a press, exactly the pressed key's modifier is added to those reported as held. */
  lemma PressByName(s: ModifierState, k: Key, name: string)
    ensures IsModifierPressed(Press(s, k), name) == (IsModifierPressed(s, name) || ModifierName(k) == Some(name))
  {
    match k
    case OtherKey =>
    case ControlLeft => ModifierCase(s, Press(s, k), "control", name);
    case ControlRight => ModifierCase(s, Press(s, k), "control", name);
    case Alt => ModifierCase(s, Press(s, k), "alt", name);
    case AltGr => ModifierCase(s, Press(s, k), "alt", name);
    case ShiftLeft => ModifierCase(s, Press(s, k), "shift", name);
    case ShiftRight => ModifierCase(s, Press(s, k), "shift", name);
    case MetaLeft => ModifierCase(s, Press(s, k), "super", name);
    case MetaRight => ModifierCase(s, Press(s, k), "super", name);
  }

  /** After a release, exactly the released key's modifier is removed from those reported as held. */
  lemma ReleaseByName(s: ModifierState, k: Key, name: string)
    ensures IsModifierPressed(Release(s, k), name) == (IsModifierPressed(s, name) && ModifierName(k) != Some(name))
  {
    match k
    case OtherKey =>
    case ControlLeft => ModifierCase(s, Release(s, k), "control", name);
    case ControlRight => ModifierCase(s, Release(s, k), "control", name);
    case Alt => ModifierCase(s, Release(s, k), "alt", name);
    case AltGr => ModifierCase(s, Release(s, k), "alt", name);
    case ShiftLeft => ModifierCase(s, Release(s, k), "shift", name);
    case ShiftRight => ModifierCase(s, Release(s, k), "shift", name);
    case MetaLeft => ModifierCase(s, Release(s, k), "super", name);
    case MetaRight => ModifierCase(s, Release(s, k), "super", name);
  }

  /**
   * When two states differ at most in the flag named `m`, every other name
   * reads the same in both.
   */
  lemma ModifierCase(s: ModifierState, t: ModifierState, m: string, name: string)
    requires m == "control" || m == "alt" || m == "shift" || m == "super"
    requires m != "control" ==> t.control == s.control
    requires m != "alt" ==> t.alt == s.alt
    requires m != "shift" ==> t.shift == s.shift
    requires m != "super" ==> t.superKey == s.superKey
    ensures name != m ==> IsModifierPressed(t, name) == IsModifierPressed(s, name)
  {
    if name == "control" || name == "alt" || name == "shift" || name == "super" {
      DistinctModifierNames(m, name);
    }
  }

  /** The four modifier names compare as their flags do. */
  lemma DistinctModifierNames(a: string, b: string)
    requires a == "control" || a == "alt" || a == "shift" || a == "super"
    requires b == "control" || b == "alt" || b == "shift" || b == "super"
    ensures a == b <==> (a == "control") == (b == "control") && (a == "alt") == (b == "alt") && (a == "shift") == (b == "shift")
  {
  }

  /** `f64 as i32`: truncation toward zero, saturating at the `i32` bounds. */
  function F64AsI32(v: real): (r: int)
    ensures -0x8000_0000 <= r <= 0x7fff_ffff
    ensures 0.0 <= v < 0x8000_0000 as real ==> r as real <= v < r as real + 1.0
    ensures -0x8000_0001 as real < v <= 0.0 ==> r as real - 1.0 < v <= r as real
    ensures v >= 0x8000_0000 as real ==> r == 0x7fff_ffff
    ensures v <= -0x8000_0001 as real ==> r == -0x8000_0000
  {
    var t := if v >= 0.0 then v.Floor else -((-v).Floor);
    if t < -0x8000_0000 then -0x8000_0000
    else if t > 0x7fff_ffff then 0x7fff_ffff
    else t
  }

  /** The detector's shared state, one field per global. */
  class Detector {
    var modifiers: ModifierState
    var dragging: bool
    var dragStart: Option<(real, real)>
    var modifierPressedDuringDrag: bool
    var lastMousePos: Option<(real, real)>

    /** The latch can only be set while a drag is in progress. */
    ghost predicate Valid()
      reads this
    {
      modifierPressedDuringDrag ==> dragging
    }

    constructor ()
      ensures Valid()
      ensures modifiers == ModifierState(false, false, false, false)
      ensures !dragging && dragStart.None? && !modifierPressedDuringDrag && lastMousePos.None?
    {
      modifiers := ModifierState(false, false, false, false);
      dragging := false;
      dragStart := None;
      modifierPressedDuringDrag := false;
      lastMousePos := None;
    }

    /**
     * `check_and_update_modifier_state`: if the configured modifier (none
     * when the settings cannot be read) is held, set the latch. It is never
     * cleared here.
     */
    method CheckAndUpdateModifierState(modifierKey: Option<string>)
      modifies this
      ensures modifierPressedDuringDrag ==
        (old(modifierPressedDuringDrag) || (modifierKey.Some? && IsModifierPressed(modifiers, modifierKey.value)))
      ensures modifiers == old(modifiers) && dragging == old(dragging)
      ensures dragStart == old(dragStart) && lastMousePos == old(lastMousePos)
    {
      if modifierKey.None? {
        return;
      }
      var pressed := IsModifierPressed(modifiers, modifierKey.value);
      if pressed {
        modifierPressedDuringDrag := true;
      }
    }

    /**
     * `handle_left_button_down`: with a frontmost window, start a drag with
     * the latch cleared, then check the modifier once.
     */
    method HandleLeftButtonDown(frontmostWindow: bool, modifierKey: Option<string>)
      modifies this
      ensures !frontmostWindow ==> dragging == old(dragging) && modifierPressedDuringDrag == old(modifierPressedDuringDrag)
      ensures frontmostWindow ==>
        dragging && modifierPressedDuringDrag == (modifierKey.Some? && IsModifierPressed(modifiers, modifierKey.value))
      ensures modifiers == old(modifiers) && dragStart == old(dragStart) && lastMousePos == old(lastMousePos)
    {
      if !frontmostWindow {
        return;
      }
      dragging := true;
      modifierPressedDuringDrag := false;
      CheckAndUpdateModifierState(modifierKey);
    }

    /** `handle_mouse_move`: nothing unless dragging; then check the modifier if there is a frontmost window. */
    method HandleMouseMove(frontmostWindow: bool, modifierKey: Option<string>)
      modifies this
      ensures !old(dragging) || !frontmostWindow ==> modifierPressedDuringDrag == old(modifierPressedDuringDrag)
      ensures old(dragging) && frontmostWindow ==>
        modifierPressedDuringDrag == (old(modifierPressedDuringDrag) || (modifierKey.Some? && IsModifierPressed(modifiers, modifierKey.value)))
      ensures modifiers == old(modifiers) && dragging == old(dragging)
      ensures dragStart == old(dragStart) && lastMousePos == old(lastMousePos)
    {
      if !dragging {
        return;
      }
      if frontmostWindow {
        CheckAndUpdateModifierState(modifierKey);
      }
    }

    /**
     * `handle_left_button_up`: nothing unless dragging. Otherwise the drop
     * point (the last pointer position, or the origin when none is known,
     * cast to `i32`) is returned only if the latch was set, and the drag
     * state is cleared.
     */
    method HandleLeftButtonUp() returns (dropAt: Option<(int, int)>)
      modifies this
      ensures !old(dragging) ==>
        dropAt.None? && dragging == old(dragging) && dragStart == old(dragStart) && modifierPressedDuringDrag == old(modifierPressedDuringDrag)
      ensures old(dragging) ==> !dragging && dragStart.None? && !modifierPressedDuringDrag
      ensures old(dragging) ==> (dropAt.Some? <==> old(modifierPressedDuringDrag))
      ensures dropAt.Some? ==>
        var pos := if lastMousePos.Some? then lastMousePos.value else (0.0, 0.0);
        dropAt.value == (F64AsI32(pos.0), F64AsI32(pos.1))
      ensures modifiers == old(modifiers) && lastMousePos == old(lastMousePos)
    {
      if !dragging {
        return None;
      }
      var pos := if lastMousePos.Some? then lastMousePos.value else (0.0, 0.0);
      if modifierPressedDuringDrag {
        dropAt := Some((F64AsI32(pos.0), F64AsI32(pos.1)));
      } else {
        dropAt := None;
      }
      dragging := false;
      dragStart := None;
      modifierPressedDuringDrag := false;
    }

    /**
     * `handle_event_on_main_thread`: key events first update the modifier
     * flags and, during a drag, re-check the modifier; a mouse move records
     * the position before it is handled. The result is the drop point of a
     * release that snaps.
     */
    method HandleEvent(event: DragEvent, frontmostWindow: bool, modifierKey: Option<string>)
      returns (dropAt: Option<(int, int)>)
      requires Valid()
      modifies this
      ensures Valid()
      ensures !event.ButtonUp? ==> dropAt.None?
      ensures event.ButtonUp? ==> (dropAt.Some? <==> old(dragging) && old(modifierPressedDuringDrag))
      ensures event.KeyPress? ==> modifiers == Press(old(modifiers), event.key)
      ensures event.KeyRelease? ==> modifiers == Release(old(modifiers), event.key)
      ensures event.MouseMove? ==> lastMousePos == Some((event.x, event.y))
      ensures old(modifierPressedDuringDrag) && !event.ButtonUp? && !event.ButtonDown? ==> modifierPressedDuringDrag
      // A key event or a mouse move never starts or ends a drag; during a
      // drag with a frontmost window it latches a held configured modifier.
      ensures !event.ButtonDown? && !event.ButtonUp? ==> dragging == old(dragging) && dragStart == old(dragStart)
      ensures (event.KeyPress? || event.KeyRelease?) ==> lastMousePos == old(lastMousePos)
      ensures !event.ButtonDown? && !event.ButtonUp? && !(old(dragging) && frontmostWindow) ==>
        modifierPressedDuringDrag == old(modifierPressedDuringDrag)
      ensures !event.ButtonDown? && !event.ButtonUp? && old(dragging) && frontmostWindow ==>
        modifierPressedDuringDrag == (old(modifierPressedDuringDrag) || (modifierKey.Some? && IsModifierPressed(modifiers, modifierKey.value)))
      // A press starts a drag with a fresh latch when there is a frontmost window.
      ensures event.ButtonDown? && !frontmostWindow ==>
        dragging == old(dragging) && modifierPressedDuringDrag == old(modifierPressedDuringDrag)
      ensures event.ButtonDown? && frontmostWindow ==>
        dragging && modifierPressedDuringDrag == (modifierKey.Some? && IsModifierPressed(modifiers, modifierKey.value))
      // A release ends a drag in progress.
      ensures event.ButtonUp? && old(dragging) ==> !dragging && dragStart.None? && !modifierPressedDuringDrag
      ensures event.ButtonUp? && !old(dragging) ==> dragging == old(dragging) && modifierPressedDuringDrag == old(modifierPressedDuringDrag)
      ensures event.ButtonDown? || event.ButtonUp? || event.MouseMove? ==> modifiers == old(modifiers)
      ensures event.ButtonDown? || event.ButtonUp? ==> lastMousePos == old(lastMousePos)
    {
      dropAt := None;
      match event
      case KeyPress(k) =>
        modifiers := Press(modifiers, k);
        if dragging && frontmostWindow {
          CheckAndUpdateModifierState(modifierKey);
        }
      case KeyRelease(k) =>
        modifiers := Release(modifiers, k);
        if dragging && frontmostWindow {
          CheckAndUpdateModifierState(modifierKey);
        }
      case MouseMove(x, y) =>
        lastMousePos := Some((x, y));
        HandleMouseMove(frontmostWindow, modifierKey);
      case ButtonDown =>
        HandleLeftButtonDown(frontmostWindow, modifierKey);
      case ButtonUp =>
        dropAt := HandleLeftButtonUp();
    }
  }

  /**
   * `handle_drop`: the action for a drop at `(x, y)`. It fails without an
   * active layout id, without a stored layout of that id, or when the screen
   * cannot be determined; otherwise it applies the zone under the point,
   * or nothing when there is none. `zoneAt` is the layout's zone lookup,
   * which is not part of this model.
   */
  method HandleDrop(store: LayoutStore.ZoneLayoutStore, x: int, y: int,
                    screen: Result<ScreenSelection.ScreenDimensions, string>,
                    zoneAt: (LayoutStore.ZoneLayout, int, int, ScreenSelection.ScreenDimensions) -> Option<u32>)
    returns (r: Result<Option<LayoutAction>, string>)
    ensures store.activeLayoutId.None? ==> r == Err("No active zone layout")
    ensures store.activeLayoutId.Some? && LayoutStore.Find(store.Stored(), store.activeLayoutId.value).None? ==>
      r == Err("Failed to get zone layout")
    ensures r.Ok? ==>
      store.activeLayoutId.Some? && screen.Ok? &&
      var layout := LayoutStore.Find(store.Stored(), store.activeLayoutId.value);
      layout.Some? &&
      match zoneAt(layout.value, x, y, screen.value)
      case None => r.value.None?
      case Some(n) => r.value == Some(ApplyZone(n))
    ensures r.Err? && store.activeLayoutId.Some? && LayoutStore.Find(store.Stored(), store.activeLayoutId.value).Some? ==>
      screen.Err? && r.error == screen.error
  {
    var activeId := store.GetActiveId();
    if activeId.None? {
      return Err("No active zone layout");
    }
    var layout := store.Get(activeId.value);
    if layout.None? {
      return Err("Failed to get zone layout");
    }
    if screen.Err? {
      return Err(screen.error);
    }
    var zone := zoneAt(layout.value, x, y, screen.value);
    match zone
    case None => return Ok(None);
    case Some(n) => return Ok(Some(ApplyZone(n)));
  }

  /** A modifier key reads as held after it is pressed and as not held after it is then released. */
  lemma PressedThenReleasedModifierIsNotHeld(s: ModifierState, k: Key)
    requires ModifierName(k).Some?
    ensures IsModifierPressed(Press(s, k), ModifierName(k).value)
    ensures !IsModifierPressed(Release(Press(s, k), k), ModifierName(k).value)
  {
    PressByName(s, k, ModifierName(k).value);
    ReleaseByName(Press(s, k), k, ModifierName(k).value);
  }
}
