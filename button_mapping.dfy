/** The default key-binding table and key-press dispatch
    (src/controller/button_mapping.rs).

    Each bound function of the source is a tag of `Action`; a press
    returns the tag it would call, or `None` when it calls nothing. The
    button-index constants are defined in a file that is not part of this
    model, so they are a parameter `idx` about which only the facts the code
    relies on are assumed: every index is below the table size and, for the
    exact slot assignments, no two buttons share an index. */
module ButtonMapping {
  import opened Wrappers

  /** The functions the table can hold (the source's `KeyboundFunction`s). */
  datatype Action =
    | UpAction          // up_action
    | HalfWidthPoint5x  // half_screen_width_ingame_point5times
    | HalfWidth2x       // half_screen_width_ingame_2times
    | HalfWidthRegular  // half_screen_width_ingame_regular
    | PlaceDebugObject  // place_debug_object_action
    | WheelUp           // simulate_mouse_wheel_up
    | WheelDown         // simulate_mouse_wheel_down
    | NoAction          // no_action

  /** The eleven input sources that own a slot of the table
      (W_BUTTON, D_BUTTON, ... in button_constants.rs). */
  datatype Button =
    | WButton | DButton | SButton | AButton
    | MouseLeft | MouseRight | MouseMiddle
    | SpaceBar | Ctrl | JButton | LButton

  /** The key codes that the dispatch matches on (winit's `VirtualKeyCode`). */
  datatype Key =
    | Key1 | Key2 | Key3 | Key4 | Key5 | Key6 | Key7 | Key8 | Key9 | Key0
    | A | B | C | D | E | F | G | H | I | J
    | K | L | M | N | O | P | Q | R | S | T
    | U | V | W | X | Y | Z | Escape | F1 | F2 | F3
    | F4 | F5 | F6 | F7 | F8 | F9 | F10 | F11 | F12 | F13
    | F14 | F15 | F16 | F17 | F18 | F19 | F20 | F21 | F22 | F23
    | F24 | Snapshot | Scroll | Pause | Insert | Home | Delete | End | PageDown | PageUp
    | Left | Up | Right | Down | Back | Return | Space | Compose | Caret | Numlock
    | Numpad0 | Numpad1 | Numpad2 | Numpad3 | Numpad4 | Numpad5 | Numpad6 | Numpad7 | Numpad8 | Numpad9
    | NumpadAdd | NumpadDivide | NumpadDecimal | NumpadComma | NumpadEnter | NumpadEquals | NumpadMultiply | NumpadSubtract | AbntC1 | AbntC2
    | Apostrophe | Apps | Asterisk | At | Ax | Backslash | Calculator | Capital | Colon | Comma
    | Convert | Equals | Grave | Kana | Kanji | LAlt | LBracket | LControl | LShift | LWin
    | Mail | MediaSelect | MediaStop | Minus | Mute | MyComputer | NavigateForward | NavigateBackward | NextTrack | NoConvert
    | OEM102 | Period | PlayPause | Plus | Power | PrevTrack | RAlt | RBracket | RControl | RShift
    | RWin | Semicolon | Slash | Sleep | Stop | Sysrq | Tab | Underline | Unlabeled | VolumeDown
    | VolumeUp | Wake | WebBack | WebFavorites | WebForward | WebHome | WebRefresh | WebSearch | WebStop | Yen
    | Copy | Paste | Cut

  type Keybinds = seq<Option<Action>>

  /** The size `resize` gives the default table. */
  const TableSize: nat := 11

  /** The facts about the button constants that indexing the table needs. */
  predicate InRange(idx: Button -> nat) {
    forall b :: idx(b) < TableSize
  }

  /** No two buttons share a slot. */
  predicate Distinct(idx: Button -> nat) {
    forall b1, b2 :: b1 != b2 ==> idx(b1) != idx(b2)
  }

  /** A witness assignment of the constants (the buttons in the order they
      are listed in the source's import); it is not the real constants. */
  function ExampleIndex(b: Button): nat {
    match b
    case WButton => 0
    case DButton => 1
    case SButton => 2
    case AButton => 3
    case MouseLeft => 4
    case MouseRight => 5
    case MouseMiddle => 6
    case SpaceBar => 7
    case Ctrl => 8
    case JButton => 9
    case LButton => 10
  }

  /** `ExampleIndex` shows that `InRange` and `Distinct` can hold together,
      so the requires of the lemmas below can be met. */
  lemma ExampleIndexValid()
    ensures InRange(ExampleIndex) && Distinct(ExampleIndex)
  {
  }

  /** What the default table holds for each button, stated per button. */
  function DefaultBinding(b: Button): Option<Action> {
    match b
    case WButton => Some(UpAction)
    case DButton => Some(HalfWidthPoint5x)
    case SButton => Some(NoAction)
    case AButton => Some(HalfWidth2x)
    case MouseLeft => Some(PlaceDebugObject)
    case MouseRight => Some(NoAction)
    case MouseMiddle => Some(NoAction)
    case SpaceBar => Some(HalfWidthRegular)
    case Ctrl => None
    case JButton => Some(WheelUp)
    case LButton => Some(WheelDown)
  }

  /** A table of the default size whose slot for every button holds that
      button's default binding. */
  ghost predicate IsDefaultTable(t: Keybinds, idx: Button -> nat) {
    |t| == TableSize && InRange(idx) && forall b :: t[idx(b)] == DefaultBinding(b)
  }

  /** Slot `i` belongs to no button. */
  predicate Unassigned(idx: Button -> nat, i: nat) {
    forall b :: idx(b) != i
  }

  /** Rust's `Vec::resize`: truncate to `n` or extend with copies of `fill`. */
  function Resize<T>(s: seq<T>, n: nat, fill: T): (r: seq<T>)
    ensures |r| == n
    ensures forall i :: 0 <= i < n ==> r[i] == if i < |s| then s[i] else fill
  {
    if n <= |s| then s[..n] else s + seq(n - |s|, _ => fill)
  }

  /** What slot `i` holds once every assignment of `load_default_keybinds`
      has run: the value of the LAST assignment to that index (the checks are
      the assignments in reverse order), or the `None` that `resize` put
      there when no assignment hit it. This holds whether or not the
      constants are distinct. */
  function SlotAfterLoad(idx: Button -> nat, i: nat): Option<Action> {
    if i == idx(Ctrl) then None
    else if i == idx(LButton) then Some(WheelDown)
    else if i == idx(JButton) then Some(WheelUp)
    else if i == idx(SpaceBar) then Some(HalfWidthRegular)
    else if i == idx(MouseMiddle) then Some(NoAction)
    else if i == idx(MouseRight) then Some(NoAction)
    else if i == idx(MouseLeft) then Some(PlaceDebugObject)
    else if i == idx(AButton) then Some(HalfWidth2x)
    else if i == idx(SButton) then Some(NoAction)
    else if i == idx(DButton) then Some(HalfWidthPoint5x)
    else if i == idx(WButton) then Some(UpAction)
    else None
  }

  /** With distinct constants no assignment overwrites another, so the slot
      of every button ends up holding that button's default binding. */
  lemma SlotAfterLoadDistinct(idx: Button -> nat, b: Button)
    requires Distinct(idx)
    ensures SlotAfterLoad(idx, idx(b)) == DefaultBinding(b)
  {
  }

  /** `load_default_keybinds`: resize an empty table to eleven empty slots,
      then write the bound actions slot by slot, clearing the CTRL slot last. */
  method LoadDefaultKeybinds(idx: Button -> nat) returns (ret: Keybinds)
    requires InRange(idx)
    ensures |ret| == TableSize
    ensures forall i :: 0 <= i < |ret| ==> ret[i] == SlotAfterLoad(idx, i)
    ensures ret[idx(Ctrl)] == None
    ensures forall i :: 0 <= i < |ret| && Unassigned(idx, i) ==> ret[i] == None
    ensures Distinct(idx) ==> IsDefaultTable(ret, idx)
  {
    ret := [];
    ret := Resize(ret, TableSize, None);
    ret := ret[idx(WButton) := Some(UpAction)];
    ret := ret[idx(DButton) := Some(HalfWidthPoint5x)];
    ret := ret[idx(SButton) := Some(NoAction)];
    ret := ret[idx(AButton) := Some(HalfWidth2x)];
    ret := ret[idx(MouseLeft) := Some(PlaceDebugObject)];
    ret := ret[idx(MouseRight) := Some(NoAction)];
    ret := ret[idx(MouseMiddle) := Some(NoAction)];
    ret := ret[idx(SpaceBar) := Some(HalfWidthRegular)];
    ret := ret[idx(JButton) := Some(WheelUp)];
    ret := ret[idx(LButton) := Some(WheelDown)];
    ret := ret[idx(Ctrl) := None];
    assert forall i :: 0 <= i < |ret| ==> ret[i] == SlotAfterLoad(idx, i);
    if Distinct(idx) {
      forall b ensures ret[idx(b)] == DefaultBinding(b) {
        SlotAfterLoadDistinct(idx, b);
      }
    }
  }

  /** The slot a key press looks at, if any: the seven keys with a non-empty
      arm in `key_action_pressed`. */
  function KeyButton(key: Key): (r: Option<Button>)
    ensures r.Some? <==> key in {A, D, J, L, S, W, Space}
    ensures r.Some? ==> r.value !in {MouseLeft, MouseRight, MouseMiddle, Ctrl}
  {
    match key
    case A => Some(AButton)
    case D => Some(DButton)
    case J => Some(JButton)
    case L => Some(LButton)
    case S => Some(SButton)
    case W => Some(WButton)
    case Space => Some(SpaceBar)
    case _ => None
  }

  /** The table indices a press of `key` reads. Indexing panics in the
      source unless each is below the table's length. */
  predicate PressInRange(key: Key, t: Keybinds, idx: Button -> nat) {
    KeyButton(key).Some? ==> idx(KeyButton(key).value) < |t|
  }

  /** `key_action_pressed`: the action it calls, if any. */
  function KeyActionPressed(key: Key, t: Keybinds, idx: Button -> nat): (r: Option<Action>)
    requires PressInRange(key, t, idx)
    ensures key !in {A, D, J, L, S, W, Space} ==> r == None
    ensures forall b :: KeyButton(key) == Some(b) ==> r == t[idx(b)]
  {
    match KeyButton(key)
    case None => None
    case Some(b) => t[idx(b)]
  }

  /** `key_action_released`: not implemented in the source, so it calls
      nothing whatever the key and the table. */
  function KeyActionReleased(key: Key, t: Keybinds, idx: Button -> nat): (r: Option<Action>)
    ensures r == None
  {
    None
  }

  /** The default table is long enough for every key press. */
  lemma DefaultTablePressInRange(key: Key, t: Keybinds, idx: Button -> nat)
    requires IsDefaultTable(t, idx)
    ensures PressInRange(key, t, idx)
  {
  }

  /** Pressing a key on the default table fires exactly that key's default
      action; every other key fires nothing. */
  lemma DefaultPress(key: Key, t: Keybinds, idx: Button -> nat)
    requires IsDefaultTable(t, idx)
    ensures PressInRange(key, t, idx)
    ensures KeyActionPressed(key, t, idx) ==
      match key
      case W => Some(UpAction)
      case D => Some(HalfWidthPoint5x)
      case A => Some(HalfWidth2x)
      case Space => Some(HalfWidthRegular)
      case J => Some(WheelUp)
      case L => Some(WheelDown)
      case S => Some(NoAction)
      case _ => None
  {
  }

  /** A press depends on the key's own slot and on nothing else in the table:
      in particular the mouse and CTRL slots are never read. */
  lemma PressReadsOnlyItsSlot(key: Key, t1: Keybinds, t2: Keybinds, idx: Button -> nat)
    requires PressInRange(key, t1, idx) && PressInRange(key, t2, idx)
    requires KeyButton(key).Some? ==> t1[idx(KeyButton(key).value)] == t2[idx(KeyButton(key).value)]
    ensures KeyActionPressed(key, t1, idx) == KeyActionPressed(key, t2, idx)
  {
  }
}
