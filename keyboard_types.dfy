/** The values the keyboard map builder works on: physical key states, logical key
    inputs, the data recorded for a key state, and the operating-system capabilities
    the builder queries, given here as total functions (oracles). */
module KeyboardTypes {

  datatype Option<T> = None | Some(value: T)

  /** A Windows virtual-key code (an unsigned integer in the source). */
  type VirtualKey = nat

  /** A platform key code (the WPF `Key` enumeration); 0 is `Key.None`. */
  type Key = nat
  const KeyNone: Key := 0

  /** Virtual key modifiers as bit flags.  `Regular` and `Extended` are the two
      meta-masks: the standard modifiers and the layout-specific Oem modifiers. */
  type Modifiers = bv8
  const NoModifiers: Modifiers := 0
  const Shift: Modifiers := 0x01
  const Control: Modifiers := 0x02
  const Alt: Modifiers := 0x04
  const CapsLock: Modifiers := 0x08
  const Oem1: Modifiers := 0x10
  const Oem2: Modifiers := 0x20
  const Regular: Modifiers := Shift | Control | Alt | CapsLock
  const Extended: Modifiers := Oem1 | Oem2

  /** The editor's named keys: the 44 keys with a fixed virtual key, the no-op key,
      the key that stands for a plain character, and the remaining named keys. */
  datatype VimKey =
    | Enter | Tab | Escape | LineFeed | Back | Delete
    | Left | Up | Right | Down | Help | Insert | Home | End | PageUp | PageDown | Break
    | F1 | F2 | F3 | F4 | F5 | F6 | F7 | F8 | F9 | F10 | F11 | F12
    | KeypadMultiply | KeypadPlus | KeypadMinus | KeypadDecimal | KeypadDivide
    | Keypad0 | Keypad1 | Keypad2 | Keypad3 | Keypad4
    | Keypad5 | Keypad6 | Keypad7 | Keypad8 | Keypad9
    | Nop
    | RawCharacter
    | OtherVimKey(ordinal: nat)

  /** A logical key press of the editor; `keyModifiers` is a bit mask, 0 for none. */
  datatype KeyInput = KeyInput(key: VimKey, rawChar: Option<char>, keyModifiers: nat)

  /** A physical key press: a platform key and the modifiers held with it. */
  datatype KeyState = KeyState(key: Key, modifiers: Modifiers)

  /** What the forward map records for a key state. */
  datatype VimKeyData = VimKeyData(keyInput: KeyInput, text: string) | DeadKey

  /** The answer of a text query: the text produced, or no text, with the flag that
      says whether the key state starts a dead-key sequence. */
  datatype TextResult = Text(text: string) | NoText(isDeadKey: bool)

  /** The virtual keyboard of the active layout.
      - getText(vk, mods): the text virtual key `vk` produces under `mods`;
      - mapChar(c): the virtual key and modifiers that produce `c`, if any;
      - probeText(held, vk, mods): the text `vk` produces under `mods` while the
        candidate modifier key `held` is set down in the scratch keyboard state;
      - initialOem1/initialOem2: the Oem modifier keys the keyboard state already
        knows when the builder is constructed. */
  datatype VirtualKeyboard = VirtualKeyboard(
    getText: (VirtualKey, Modifiers) -> TextResult,
    mapChar: char -> Option<(VirtualKey, Modifiers)>,
    probeText: (VirtualKey, VirtualKey, Modifiers) -> TextResult,
    initialOem1: Option<VirtualKey>,
    initialOem2: Option<VirtualKey>)

  /** The platform around the builder: the editor's list of key inputs, every
      platform key in enumeration order, and the two virtual-key/key conversions
      (keyFromVirtualKey answers `KeyNone` for a virtual key with no platform key). */
  datatype Platform = Platform(
    vimKeyInputList: seq<KeyInput>,
    keys: seq<Key>,
    keyFromVirtualKey: VirtualKey -> Key,
    virtualKeyFromKey: Key -> VirtualKey)

  /** The text of a query, or the empty string when there is none. */
  function TextOrEmpty(r: TextResult): string
  {
    match r
    case Text(t) => t
    case NoText(_) => ""
  }
}
