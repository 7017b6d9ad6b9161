/** The special-key table: the named editor keys that are mapped through a fixed
    virtual key rather than through the character they produce. */
module SpecialKeys {
  import opened KeyboardTypes

  // Constants of the Windows Virtual-Key Codes table (WinUser.h), by their names there.
  const VkCancel: VirtualKey := 0x03
  const VkBack: VirtualKey := 0x08
  const VkTab: VirtualKey := 0x09
  const VkReturn: VirtualKey := 0x0D
  const VkEscape: VirtualKey := 0x1B
  const VkPrior: VirtualKey := 0x21
  const VkNext: VirtualKey := 0x22
  const VkEnd: VirtualKey := 0x23
  const VkHome: VirtualKey := 0x24
  const VkLeft: VirtualKey := 0x25
  const VkUp: VirtualKey := 0x26
  const VkRight: VirtualKey := 0x27
  const VkDown: VirtualKey := 0x28
  const VkInsert: VirtualKey := 0x2D
  const VkDelete: VirtualKey := 0x2E
  const VkHelp: VirtualKey := 0x2F
  const VkNumpad0: VirtualKey := 0x60
  const VkMultiply: VirtualKey := 0x6A
  const VkAdd: VirtualKey := 0x6B
  const VkSubtract: VirtualKey := 0x6D
  const VkDecimal: VirtualKey := 0x6E
  const VkDivide: VirtualKey := 0x6F
  const VkF1: VirtualKey := 0x70

  /** Line feed has no virtual key of its own; it is recorded with code 0. */
  const NoVirtualKey: VirtualKey := 0

  /** Reference table: the Windows virtual key each special editor key stands for. */
  function WindowsVirtualKey(vimKey: VimKey): Option<VirtualKey>
  {
    match vimKey
    case Enter => Some(VkReturn)
    case Tab => Some(VkTab)
    case Escape => Some(VkEscape)
    case LineFeed => Some(NoVirtualKey)
    case Back => Some(VkBack)
    case Delete => Some(VkDelete)
    case Left => Some(VkLeft)
    case Up => Some(VkUp)
    case Right => Some(VkRight)
    case Down => Some(VkDown)
    case Help => Some(VkHelp)
    case Insert => Some(VkInsert)
    case Home => Some(VkHome)
    case End => Some(VkEnd)
    case PageUp => Some(VkPrior)
    case PageDown => Some(VkNext)
    case Break => Some(VkCancel)
    case F1 => Some(VkF1)
    case F2 => Some(VkF1 + 1)
    case F3 => Some(VkF1 + 2)
    case F4 => Some(VkF1 + 3)
    case F5 => Some(VkF1 + 4)
    case F6 => Some(VkF1 + 5)
    case F7 => Some(VkF1 + 6)
    case F8 => Some(VkF1 + 7)
    case F9 => Some(VkF1 + 8)
    case F10 => Some(VkF1 + 9)
    case F11 => Some(VkF1 + 10)
    case F12 => Some(VkF1 + 11)
    case KeypadMultiply => Some(VkMultiply)
    case KeypadPlus => Some(VkAdd)
    case KeypadMinus => Some(VkSubtract)
    case KeypadDecimal => Some(VkDecimal)
    case KeypadDivide => Some(VkDivide)
    case Keypad0 => Some(VkNumpad0)
    case Keypad1 => Some(VkNumpad0 + 1)
    case Keypad2 => Some(VkNumpad0 + 2)
    case Keypad3 => Some(VkNumpad0 + 3)
    case Keypad4 => Some(VkNumpad0 + 4)
    case Keypad5 => Some(VkNumpad0 + 5)
    case Keypad6 => Some(VkNumpad0 + 6)
    case Keypad7 => Some(VkNumpad0 + 7)
    case Keypad8 => Some(VkNumpad0 + 8)
    case Keypad9 => Some(VkNumpad0 + 9)
    case _ => None
  }

  /** The special editor keys, in the order of the table: the editing keys, the
      function keys and the keypad keys. */
  const EditingKeys: seq<VimKey> := [
    Enter, Tab, Escape, LineFeed, Back, Delete, Left, Up, Right, Down, Help, Insert,
    Home, End, PageUp, PageDown, Break
  ]
  const FunctionKeys: seq<VimKey> := [F1, F2, F3, F4, F5, F6, F7, F8, F9, F10, F11, F12]
  const KeypadKeys: seq<VimKey> := [
    KeypadMultiply, KeypadPlus, KeypadMinus, KeypadDecimal, KeypadDivide,
    Keypad0, Keypad1, Keypad2, Keypad3, Keypad4, Keypad5, Keypad6, Keypad7, Keypad8, Keypad9
  ]
  const SpecialVimKeys: seq<VimKey> := EditingKeys + FunctionKeys + KeypadKeys

  /** The virtual key of a special editor key: found for exactly the keys of the
      reference table, with the table's code; any other key is not found, with code 0. */
  function TrySpecialVimKeyToVirtualKey(vimKey: VimKey): (r: (bool, VirtualKey))
    ensures r.0 <==> WindowsVirtualKey(vimKey).Some?
    ensures r.0 ==> r.1 == WindowsVirtualKey(vimKey).value
    ensures !r.0 ==> r.1 == 0
  {
    match vimKey
    case Enter => (true, 0xD)
    case Tab => (true, 0x9)
    case Escape => (true, 0x1B)
    case LineFeed => (true, 0)
    case Back => (true, 0x8)
    case Delete => (true, 0x2E)
    case Left => (true, 0x25)
    case Up => (true, 0x26)
    case Right => (true, 0x27)
    case Down => (true, 0x28)
    case Help => (true, 0x2F)
    case Insert => (true, 0x2D)
    case Home => (true, 0x24)
    case End => (true, 0x23)
    case PageUp => (true, 0x21)
    case PageDown => (true, 0x22)
    case Break => (true, 0x03)
    case F1 => (true, 0x70)
    case F2 => (true, 0x71)
    case F3 => (true, 0x72)
    case F4 => (true, 0x73)
    case F5 => (true, 0x74)
    case F6 => (true, 0x75)
    case F7 => (true, 0x76)
    case F8 => (true, 0x77)
    case F9 => (true, 0x78)
    case F10 => (true, 0x79)
    case F11 => (true, 0x7a)
    case F12 => (true, 0x7b)
    case KeypadMultiply => (true, 0x6A)
    case KeypadPlus => (true, 0x6B)
    case KeypadMinus => (true, 0x6D)
    case KeypadDecimal => (true, 0x6E)
    case KeypadDivide => (true, 0x6F)
    case Keypad0 => (true, 0x60)
    case Keypad1 => (true, 0x61)
    case Keypad2 => (true, 0x62)
    case Keypad3 => (true, 0x63)
    case Keypad4 => (true, 0x64)
    case Keypad5 => (true, 0x65)
    case Keypad6 => (true, 0x66)
    case Keypad7 => (true, 0x67)
    case Keypad8 => (true, 0x68)
    case Keypad9 => (true, 0x69)
    case _ => (false, 0)
  }

  /** Every key of the 44-entry list is a special editor key. */
  lemma ListedKeysAreSpecial(k: VimKey)
    requires k in SpecialVimKeys
    ensures TrySpecialVimKeyToVirtualKey(k).0
  {
    if k in EditingKeys {
      EditingKeysAreSpecial(k);
    } else if k in FunctionKeys {
      FunctionKeysAreSpecial(k);
    } else {
      KeypadKeysAreSpecial(k);
    }
  }

  lemma EditingKeysAreSpecial(k: VimKey)
    requires k in EditingKeys
    ensures TrySpecialVimKeyToVirtualKey(k).0
  {
  }

  lemma FunctionKeysAreSpecial(k: VimKey)
    requires k in FunctionKeys
    ensures TrySpecialVimKeyToVirtualKey(k).0
  {
  }

  lemma KeypadKeysAreSpecial(k: VimKey)
    requires k in KeypadKeys
    ensures TrySpecialVimKeyToVirtualKey(k).0
  {
  }

  /** Every special editor key is on the 44-entry list. */
  lemma SpecialKeysAreListed(k: VimKey)
    requires TrySpecialVimKeyToVirtualKey(k).0
    ensures k in SpecialVimKeys
  {
  }

  /** The list holds 44 different keys. */
  lemma SpecialKeyCount()
    ensures |SpecialVimKeys| == 44
    ensures forall i, j :: 0 <= i < j < |SpecialVimKeys| ==> SpecialVimKeys[i] != SpecialVimKeys[j]
  {
    SpecialKeyPositions();
  }

  /** The place of a special key in the list (0 for any other key). */
  function Position(k: VimKey): nat
  {
    match k
    case Enter => 0 case Tab => 1 case Escape => 2 case LineFeed => 3 case Back => 4
    case Delete => 5 case Left => 6 case Up => 7 case Right => 8 case Down => 9
    case Help => 10 case Insert => 11 case Home => 12 case End => 13 case PageUp => 14
    case PageDown => 15 case Break => 16
    case F1 => 17 case F2 => 18 case F3 => 19 case F4 => 20 case F5 => 21 case F6 => 22
    case F7 => 23 case F8 => 24 case F9 => 25 case F10 => 26 case F11 => 27 case F12 => 28
    case KeypadMultiply => 29 case KeypadPlus => 30 case KeypadMinus => 31
    case KeypadDecimal => 32 case KeypadDivide => 33
    case Keypad0 => 34 case Keypad1 => 35 case Keypad2 => 36 case Keypad3 => 37 case Keypad4 => 38
    case Keypad5 => 39 case Keypad6 => 40 case Keypad7 => 41 case Keypad8 => 42 case Keypad9 => 43
    case _ => 0
  }

  /** Each key of the list sits at its own position, so no key appears twice. */
  lemma SpecialKeyPositions()
    ensures forall i :: 0 <= i < |SpecialVimKeys| ==> Position(SpecialVimKeys[i]) == i
  {
    EditingKeyPositions();
    FunctionKeyPositions();
    KeypadKeyPositions();
    forall i | 0 <= i < |SpecialVimKeys|
      ensures Position(SpecialVimKeys[i]) == i
    {
      if i < 17 {
        assert SpecialVimKeys[i] == EditingKeys[i];
      } else if i < 29 {
        assert SpecialVimKeys[i] == FunctionKeys[i - 17];
      } else {
        assert SpecialVimKeys[i] == KeypadKeys[i - 29];
      }
    }
  }

  lemma EditingKeyPositions()
    ensures forall i :: 0 <= i < |EditingKeys| ==> Position(EditingKeys[i]) == i
  {
  }

  lemma FunctionKeyPositions()
    ensures forall i :: 0 <= i < |FunctionKeys| ==> Position(FunctionKeys[i]) == i + 17
  {
  }

  lemma KeypadKeyPositions()
    ensures forall i :: 0 <= i < |KeypadKeys| ==> Position(KeypadKeys[i]) == i + 29
  {
    KeypadOperatorPositions();
    KeypadLowDigitPositions();
    KeypadHighDigitPositions();
  }

  lemma KeypadOperatorPositions()
    ensures forall i :: 0 <= i < 5 ==> Position(KeypadKeys[i]) == i + 29
  {
  }

  lemma KeypadLowDigitPositions()
    ensures forall i :: 5 <= i < 10 ==> Position(KeypadKeys[i]) == i + 29
  {
  }

  lemma KeypadHighDigitPositions()
    ensures forall i :: 10 <= i < |KeypadKeys| ==> Position(KeypadKeys[i]) == i + 29
  {
  }

  /** Sample entries: Enter is 0xD, F12 is 0x7B, Keypad9 is 0x69, and LineFeed is
      found although its code is 0. */
  lemma SpecialKeyExamples()
    ensures TrySpecialVimKeyToVirtualKey(Enter) == (true, 0xD)
    ensures TrySpecialVimKeyToVirtualKey(F12) == (true, 0x7B)
    ensures TrySpecialVimKeyToVirtualKey(Keypad9) == (true, 0x69)
    ensures TrySpecialVimKeyToVirtualKey(LineFeed) == (true, 0)
    ensures TrySpecialVimKeyToVirtualKey(Nop) == (false, 0)
  {
  }
}
