/** What the two-pass construction guarantees about the tables it builds. */
module MapBuildProperties {
  import opened KeyboardTypes
  import opened SpecialKeys
  import opened ShiftStates
  import opened KeyTables
  import opened OemDiscovery
  import opened MapBuild

  // ---------------------------------------------------------------------------
  // Consistency of the forward and reverse tables

  lemma ApplyOutcomeConsistent(t: KeyMaps, o: Outcome)
    requires Consistent(t)
    ensures Consistent(ApplyOutcome(t, o))
  {
    match o
    case Mapping(keyState, keyInput, text) => WithMappingConsistent(t, keyState, keyInput, text);
    case MarkDead(keyState) => WithDeadKeyConsistent(t, keyState);
    case Unmapped =>
  }

  /** The first pass keeps the tables consistent. */
  lemma {:induction false} BuildKeyInputDataConsistent(kb: VirtualKeyboard, platform: Platform, s: Pass1State, inputs: seq<KeyInput>)
    requires WellFormedInputList(inputs)
    requires Consistent(s.maps)
    ensures Consistent(BuildKeyInputData(kb, platform, s, inputs).maps)
    decreases |inputs|
  {
    if inputs != [] {
      var n := |inputs| - 1;
      var p := BuildKeyInputData(kb, platform, s, inputs[..n]);
      BuildKeyInputDataConsistent(kb, platform, s, inputs[..n]);
      var current := inputs[n];
      var (found, virtualKey) := TrySpecialVimKeyToVirtualKey(current.key);
      if current.key != Nop && found {
        var key := platform.keyFromVirtualKey(virtualKey);
        if key != KeyNone {
          WithMappingConsistent(p.maps, KeyState(key, NoModifiers), current, TextOrEmpty(kb.getText(virtualKey, NoModifiers)));
        }
      }
    }
  }

  /** The sweep keeps the tables consistent. */
  lemma {:induction false} SweepCellsConsistent(kb: VirtualKeyboard, platform: Platform, charMap: map<char, KeyInput>,
                                                t: KeyMaps, cells: seq<(Key, Modifiers)>)
    requires Consistent(t)
    ensures Consistent(SweepCells(kb, platform, charMap, t, cells))
    decreases |cells|
  {
    if cells != [] {
      var n := |cells| - 1;
      SweepCellsConsistent(kb, platform, charMap, t, cells[..n]);
      ApplyOutcomeConsistent(SweepCells(kb, platform, charMap, t, cells[..n]),
                             SweepOutcome(kb, platform, charMap, cells[n].0, cells[n].1));
    }
  }

  /** At the end of a build every forward entry that is not a dead key is listed under
      its key input in the reverse table, and every key state of the reverse table has
      a forward entry. */
  lemma CreateConsistent(kb: VirtualKeyboard, platform: Platform, slots: OemSlots)
    requires WellFormedInputList(platform.vimKeyInputList)
    ensures Consistent(Create(kb, platform, slots).maps)
  {
    var p := BuildKeyInputData(kb, platform, Pass1State(EmptyKeyMaps, slots, map[]), platform.vimKeyInputList);
    EmptyConsistent();
    BuildKeyInputDataConsistent(kb, platform, Pass1State(EmptyKeyMaps, slots, map[]), platform.vimKeyInputList);
    SweepCellsConsistent(kb, platform, p.charMap, p.maps, Cells(platform.keys, GetShiftStateModifiers(p.slots.oem1, p.slots.oem2)));
  }

  // ---------------------------------------------------------------------------
  // The order of the sweep, and the last write winning

  /** Sweeping the keys `a + b` queries all cells of `a` before those of `b`. */
  lemma {:induction false} CellsAppend(a: seq<Key>, b: seq<Key>, modifiers: seq<Modifiers>)
    ensures Cells(a + b, modifiers) == Cells(a, modifiers) + Cells(b, modifiers)
    decreases |b|
  {
    if b == [] {
      assert a + b == a;
    } else {
      var n := |b| - 1;
      assert (a + b)[..|a + b| - 1] == a + b[..n];
      assert (a + b)[|a + b| - 1] == b[n];
      calc {
        Cells(a + b, modifiers);
        Cells(a + b[..n], modifiers) + KeyCells(b[n], modifiers);
        { CellsAppend(a, b[..n], modifiers); }
        Cells(a, modifiers) + Cells(b[..n], modifiers) + KeyCells(b[n], modifiers);
        Cells(a, modifiers) + (Cells(b[..n], modifiers) + KeyCells(b[n], modifiers));
        Cells(a, modifiers) + Cells(b, modifiers);
      }
    }
  }

  /** The cells of a sweep are the keys in enumeration order, each under every shift
      state of the list in list order. */
  lemma CellsOrder(keys: seq<Key>, i: nat, modifiers: seq<Modifiers>)
    requires i < |keys|
    ensures Cells(keys, modifiers) == Cells(keys[..i], modifiers) + KeyCells(keys[i], modifiers) + Cells(keys[i + 1..], modifiers)
  {
    assert keys == keys[..i] + [keys[i]] + keys[i + 1..];
    CellsAppend(keys[..i] + [keys[i]], keys[i + 1..], modifiers);
    CellsAppend(keys[..i], [keys[i]], modifiers);
    assert [keys[i]][..0] == [];
  }

  lemma CellsMembers(keys: seq<Key>, modifiers: seq<Modifiers>, cell: (Key, Modifiers))
    requires cell in Cells(keys, modifiers)
    ensures cell.0 in keys && cell.1 in modifiers
    decreases |keys|
  {
    var n := |keys| - 1;
    if cell in Cells(keys[..n], modifiers) {
      CellsMembers(keys[..n], modifiers, cell);
    }
  }

  /** The key state whose forward entry an outcome writes, and the entry it writes. */
  function Written(o: Outcome): Option<(KeyState, VimKeyData)>
  {
    match o
    case Mapping(keyState, keyInput, text) => Some((keyState, VimKeyData(keyInput, text)))
    case MarkDead(keyState) => Some((keyState, DeadKey))
    case Unmapped => None
  }

  predicate WritesKeyState(kb: VirtualKeyboard, platform: Platform, charMap: map<char, KeyInput>,
                           cell: (Key, Modifiers), ks: KeyState)
  {
    var w := Written(SweepOutcome(kb, platform, charMap, cell.0, cell.1));
    w.Some? && w.value.0 == ks
  }

  /** A key state no cell writes keeps its forward entry (or its absence) through the sweep. */
  lemma {:induction false} SweepUnwrittenUnchanged(kb: VirtualKeyboard, platform: Platform, charMap: map<char, KeyInput>,
                                                   t: KeyMaps, cells: seq<(Key, Modifiers)>, ks: KeyState)
    requires forall i :: 0 <= i < |cells| ==> !WritesKeyState(kb, platform, charMap, cells[i], ks)
    ensures var r := SweepCells(kb, platform, charMap, t, cells);
      (ks in r.forward <==> ks in t.forward) && (ks in t.forward ==> r.forward[ks] == t.forward[ks])
    decreases |cells|
  {
    if cells != [] {
      var n := |cells| - 1;
      SweepUnwrittenUnchanged(kb, platform, charMap, t, cells[..n], ks);
      assert !WritesKeyState(kb, platform, charMap, cells[n], ks);
    }
  }

  /** Last write wins: the forward entry of a key state is the one written by the last
      cell of the sweep that writes it. */
  lemma {:induction false} SweepLastWriteWins(kb: VirtualKeyboard, platform: Platform, charMap: map<char, KeyInput>,
                                              t: KeyMaps, cells: seq<(Key, Modifiers)>, i: nat)
    requires i < |cells|
    requires Written(SweepOutcome(kb, platform, charMap, cells[i].0, cells[i].1)).Some?
    requires var ks := Written(SweepOutcome(kb, platform, charMap, cells[i].0, cells[i].1)).value.0;
      forall j :: i < j < |cells| ==> !WritesKeyState(kb, platform, charMap, cells[j], ks)
    ensures var w := Written(SweepOutcome(kb, platform, charMap, cells[i].0, cells[i].1)).value;
      var r := SweepCells(kb, platform, charMap, t, cells);
      w.0 in r.forward && r.forward[w.0] == w.1
    decreases |cells|
  {
    var n := |cells| - 1;
    var w := Written(SweepOutcome(kb, platform, charMap, cells[i].0, cells[i].1)).value;
    if i < n {
      SweepLastWriteWins(kb, platform, charMap, t, cells[..n], i);
      assert !WritesKeyState(kb, platform, charMap, cells[n], w.0);
    }
  }

  // ---------------------------------------------------------------------------
  // The outcome of one sweep query

  /** A query records a mapping exactly when its text is one character of the working
      table, at the queried key state; it records a dead key exactly when the layout
      reports one, always at the key with no modifiers, whichever shift state found it. */
  lemma SweepOutcomeCases(kb: VirtualKeyboard, platform: Platform, charMap: map<char, KeyInput>, key: Key, modifier: Modifiers)
    ensures var o := SweepOutcome(kb, platform, charMap, key, modifier);
      var result := kb.getText(platform.virtualKeyFromKey(key), modifier);
      && (o.Mapping? <==> result.Text? && |result.text| == 1 && result.text[0] in charMap)
      && (o.Mapping? ==> o == Mapping(KeyState(key, modifier), charMap[result.text[0]], result.text))
      && (o.MarkDead? <==> result == NoText(true))
      && (o.MarkDead? ==> o.keyState == KeyState(key, NoModifiers))
  {
  }

  // ---------------------------------------------------------------------------
  // Where every forward entry comes from

  /** A forward entry written by the first pass: a special input of the list, at the
      platform key of its virtual key with no modifiers, with the text that virtual key
      produces alone (empty when it produces none). */
  ghost predicate SpecialKeyEntry(kb: VirtualKeyboard, platform: Platform, ks: KeyState, d: VimKeyData)
  {
    && d.VimKeyData?
    && d.keyInput in platform.vimKeyInputList
    && d.keyInput.key != Nop
    && TrySpecialVimKeyToVirtualKey(d.keyInput.key).0
    && var virtualKey := TrySpecialVimKeyToVirtualKey(d.keyInput.key).1;
      && ks == KeyState(platform.keyFromVirtualKey(virtualKey), NoModifiers)
      && ks.key != KeyNone
      && d.text == TextOrEmpty(kb.getText(virtualKey, NoModifiers))
  }

  /** The working table maps each character to a character input of the list that
      stands for that very character. */
  ghost predicate CharMapFrom(charMap: map<char, KeyInput>, inputs: seq<KeyInput>)
  {
    forall c :: c in charMap ==> charMap[c] in inputs && IsCharacterInput(charMap[c]) && charMap[c].rawChar == Some(c)
  }

  /** A forward entry written by the sweep: the key is a platform key and, for a
      mapping, the key state under one of the swept shift states produces exactly the
      one-character text recorded, whose input the working table names; for a dead
      key, the key has no modifiers and some swept shift state reported a dead key. */
  ghost predicate SweepEntry(kb: VirtualKeyboard, platform: Platform, charMap: map<char, KeyInput>,
                             modifiers: seq<Modifiers>, ks: KeyState, d: VimKeyData)
  {
    && ks.key in platform.keys
    && var virtualKey := platform.virtualKeyFromKey(ks.key);
      match d
      case VimKeyData(keyInput, text) =>
        && ks.modifiers in modifiers
        && |text| == 1
        && kb.getText(virtualKey, ks.modifiers) == Text(text)
        && text[0] in charMap && charMap[text[0]] == keyInput
      case DeadKey =>
        && ks.modifiers == NoModifiers
        && exists m :: m in modifiers && kb.getText(virtualKey, m) == NoText(true)
  }

  ghost predicate AllSpecialKeyEntries(kb: VirtualKeyboard, platform: Platform, t: KeyMaps)
  {
    forall ks :: ks in t.forward ==> SpecialKeyEntry(kb, platform, ks, t.forward[ks])
  }

  ghost predicate AllBuiltEntries(kb: VirtualKeyboard, platform: Platform, charMap: map<char, KeyInput>,
                                  modifiers: seq<Modifiers>, t: KeyMaps)
  {
    forall ks :: ks in t.forward ==>
      SpecialKeyEntry(kb, platform, ks, t.forward[ks]) || SweepEntry(kb, platform, charMap, modifiers, ks, t.forward[ks])
  }

  /** The first pass writes only special-key entries and fills the working table only
      with character inputs under their own character. */
  lemma {:induction false} BuildKeyInputDataProvenance(kb: VirtualKeyboard, platform: Platform, s: Pass1State, inputs: seq<KeyInput>)
    requires WellFormedInputList(inputs)
    requires forall i :: 0 <= i < |inputs| ==> inputs[i] in platform.vimKeyInputList
    requires AllSpecialKeyEntries(kb, platform, s.maps)
    requires CharMapFrom(s.charMap, platform.vimKeyInputList)
    ensures var r := BuildKeyInputData(kb, platform, s, inputs);
      AllSpecialKeyEntries(kb, platform, r.maps) && CharMapFrom(r.charMap, platform.vimKeyInputList)
    decreases |inputs|
  {
    if inputs != [] {
      var n := |inputs| - 1;
      BuildKeyInputDataProvenance(kb, platform, s, inputs[..n]);
      assert inputs[n] in platform.vimKeyInputList;
    }
  }

  /** The sweep writes only sweep entries, and leaves earlier entries as they were or
      replaces them by sweep entries. */
  lemma {:induction false} SweepCellsProvenance(kb: VirtualKeyboard, platform: Platform, charMap: map<char, KeyInput>,
                                                modifiers: seq<Modifiers>, t: KeyMaps, cells: seq<(Key, Modifiers)>)
    requires forall i :: 0 <= i < |cells| ==> cells[i].0 in platform.keys && cells[i].1 in modifiers
    requires AllBuiltEntries(kb, platform, charMap, modifiers, t)
    ensures AllBuiltEntries(kb, platform, charMap, modifiers, SweepCells(kb, platform, charMap, t, cells))
    decreases |cells|
  {
    if cells != [] {
      var n := |cells| - 1;
      SweepCellsProvenance(kb, platform, charMap, modifiers, t, cells[..n]);
      ApplyOutcomeProvenance(kb, platform, charMap, modifiers, SweepCells(kb, platform, charMap, t, cells[..n]), cells[n].0, cells[n].1);
    }
  }

  /** One query of the sweep writes only a sweep entry. */
  lemma ApplyOutcomeProvenance(kb: VirtualKeyboard, platform: Platform, charMap: map<char, KeyInput>,
                               modifiers: seq<Modifiers>, t: KeyMaps, key: Key, modifier: Modifiers)
    requires key in platform.keys && modifier in modifiers
    requires AllBuiltEntries(kb, platform, charMap, modifiers, t)
    ensures AllBuiltEntries(kb, platform, charMap, modifiers, ApplyOutcome(t, SweepOutcome(kb, platform, charMap, key, modifier)))
  {
    if SweepOutcome(kb, platform, charMap, key, modifier).MarkDead? {
      assert kb.getText(platform.virtualKeyFromKey(key), modifier) == NoText(true);
    }
  }

  /** At the end of a build every forward entry was written either by the first pass
      for a special input or by the sweep, and the working table holds each character
      input under its own character. */
  lemma CreateProvenance(kb: VirtualKeyboard, platform: Platform, slots: OemSlots)
    requires WellFormedInputList(platform.vimKeyInputList)
    ensures var r := Create(kb, platform, slots);
      && AllBuiltEntries(kb, platform, r.charMap, GetShiftStateModifiers(r.slots.oem1, r.slots.oem2), r.maps)
      && CharMapFrom(r.charMap, platform.vimKeyInputList)
  {
    var start := Pass1State(EmptyKeyMaps, slots, map[]);
    var p := BuildKeyInputData(kb, platform, start, platform.vimKeyInputList);
    var modifiers := GetShiftStateModifiers(p.slots.oem1, p.slots.oem2);
    BuildKeyInputDataProvenance(kb, platform, start, platform.vimKeyInputList);
    var cells := Cells(platform.keys, modifiers);
    forall i | 0 <= i < |cells|
      ensures cells[i].0 in platform.keys && cells[i].1 in modifiers
    {
      CellsMembers(platform.keys, modifiers, cells[i]);
    }
    SweepCellsProvenance(kb, platform, p.charMap, modifiers, p.maps, cells);
  }

  /** A character input is recorded only for a one-character text that is its own
      character; and, when converting the platform key of each special key's virtual key
      back gives that virtual key, every non-empty text recorded is what the layout produces for the key state. */
  lemma CreateRoundTrip(kb: VirtualKeyboard, platform: Platform, slots: OemSlots)
    requires WellFormedInputList(platform.vimKeyInputList)
    ensures var r := Create(kb, platform, slots);
      forall ks :: ks in r.maps.forward && r.maps.forward[ks].VimKeyData? && IsCharacterInput(r.maps.forward[ks].keyInput) ==>
        |r.maps.forward[ks].text| == 1 && r.maps.forward[ks].keyInput.rawChar == Some(r.maps.forward[ks].text[0])
    ensures (forall k: VimKey :: TrySpecialVimKeyToVirtualKey(k).0 && platform.keyFromVirtualKey(TrySpecialVimKeyToVirtualKey(k).1) != KeyNone ==>
               platform.virtualKeyFromKey(platform.keyFromVirtualKey(TrySpecialVimKeyToVirtualKey(k).1)) == TrySpecialVimKeyToVirtualKey(k).1) ==>
      var r := Create(kb, platform, slots);
      forall ks :: ks in r.maps.forward && r.maps.forward[ks].VimKeyData? && r.maps.forward[ks].text != "" ==>
        kb.getText(platform.virtualKeyFromKey(ks.key), ks.modifiers) == Text(r.maps.forward[ks].text)
  {
    CreateProvenance(kb, platform, slots);
  }

  // ---------------------------------------------------------------------------
  // The first pass, input by input

  /** The working table maps a character to the last character input that carries it. */
  lemma {:induction false} CharMapLastWriteWins(kb: VirtualKeyboard, platform: Platform, s: Pass1State, inputs: seq<KeyInput>, i: nat)
    requires WellFormedInputList(inputs)
    requires i < |inputs| && IsCharacterInput(inputs[i])
    requires forall j :: i < j < |inputs| && IsCharacterInput(inputs[j]) ==> inputs[j].rawChar != inputs[i].rawChar
    ensures var r := BuildKeyInputData(kb, platform, s, inputs);
      inputs[i].rawChar.value in r.charMap && r.charMap[inputs[i].rawChar.value] == inputs[i]
    decreases |inputs|
  {
    var n := |inputs| - 1;
    var p := BuildKeyInputData(kb, platform, s, inputs[..n]);
    assert BuildKeyInputData(kb, platform, s, inputs) == KeyInputStep(kb, platform, p, inputs[n]);
    if i < n {
      CharMapLastWriteWins(kb, platform, s, inputs[..n], i);
      assert !IsCharacterInput(inputs[n]) || inputs[n].rawChar != inputs[i].rawChar;
    }
  }

  /** A character no input carries keeps its working-table entry (or its absence). */
  lemma {:induction false} CharMapUnwritten(kb: VirtualKeyboard, platform: Platform, s: Pass1State, inputs: seq<KeyInput>, c: char)
    requires WellFormedInputList(inputs)
    requires forall j :: 0 <= j < |inputs| && IsCharacterInput(inputs[j]) ==> inputs[j].rawChar != Some(c)
    ensures var r := BuildKeyInputData(kb, platform, s, inputs);
      (c in r.charMap <==> c in s.charMap) && (c in s.charMap ==> r.charMap[c] == s.charMap[c])
    decreases |inputs|
  {
    if inputs != [] {
      var n := |inputs| - 1;
      var p := BuildKeyInputData(kb, platform, s, inputs[..n]);
      assert BuildKeyInputData(kb, platform, s, inputs) == KeyInputStep(kb, platform, p, inputs[n]);
      CharMapUnwritten(kb, platform, s, inputs[..n], c);
      assert !IsCharacterInput(inputs[n]) || inputs[n].rawChar != Some(c);
    }
  }

  /** Every special input whose virtual key has a platform key gets a forward entry at
      that key with no modifiers. */
  lemma {:induction false} SpecialKeysRecorded(kb: VirtualKeyboard, platform: Platform, s: Pass1State, inputs: seq<KeyInput>, i: nat)
    requires WellFormedInputList(inputs)
    requires i < |inputs| && inputs[i].key != Nop && TrySpecialVimKeyToVirtualKey(inputs[i].key).0
    requires platform.keyFromVirtualKey(TrySpecialVimKeyToVirtualKey(inputs[i].key).1) != KeyNone
    ensures var key := platform.keyFromVirtualKey(TrySpecialVimKeyToVirtualKey(inputs[i].key).1);
      KeyState(key, NoModifiers) in BuildKeyInputData(kb, platform, s, inputs).maps.forward
    decreases |inputs|
  {
    var n := |inputs| - 1;
    if i < n {
      SpecialKeysRecorded(kb, platform, s, inputs[..n], i);
    }
  }

  // ---------------------------------------------------------------------------
  // The Oem slots

  /** A slot already looked for keeps its value through the first pass; a slot that
      changes was not looked for before, and the key found for it is a candidate
      modifier key of the layout. */
  lemma {:induction false} BuildKeyInputDataSlots(kb: VirtualKeyboard, platform: Platform, s: Pass1State, inputs: seq<KeyInput>)
    requires WellFormedInputList(inputs)
    ensures var r := BuildKeyInputData(kb, platform, s, inputs).slots;
      && (s.slots.lookedForOem1 ==> r.lookedForOem1 && r.oem1 == s.slots.oem1)
      && (s.slots.lookedForOem2 ==> r.lookedForOem2 && r.oem2 == s.slots.oem2)
      && (r.oem1 != s.slots.oem1 ==>
            !s.slots.lookedForOem1 && r.lookedForOem1 &&
            (r.oem1.Some? ==> r.oem1.value in PossibleModifierVirtualKeys(kb)))
      && (r.oem2 != s.slots.oem2 ==>
            !s.slots.lookedForOem2 && r.lookedForOem2 &&
            (r.oem2.Some? ==> r.oem2.value in PossibleModifierVirtualKeys(kb)))
    decreases |inputs|
  {
    if inputs != [] {
      var n := |inputs| - 1;
      var p := BuildKeyInputData(kb, platform, s, inputs[..n]);
      BuildKeyInputDataSlots(kb, platform, s, inputs[..n]);
      KeyInputStepSlots(kb, platform, p, inputs[n]);
      assert BuildKeyInputData(kb, platform, s, inputs) == KeyInputStep(kb, platform, p, inputs[n]);
    }
  }

  /** One input of the first pass changes a slot only by searching it for the first
      time, and the key it finds is a candidate modifier key. */
  lemma KeyInputStepSlots(kb: VirtualKeyboard, platform: Platform, p: Pass1State, current: KeyInput)
    requires WellFormedInput(current)
    ensures var r := KeyInputStep(kb, platform, p, current).slots;
      && (p.slots.lookedForOem1 ==> r.lookedForOem1 && r.oem1 == p.slots.oem1)
      && (p.slots.lookedForOem2 ==> r.lookedForOem2 && r.oem2 == p.slots.oem2)
      && (r.oem1 != p.slots.oem1 ==>
            !p.slots.lookedForOem1 && r.lookedForOem1 &&
            (r.oem1.Some? ==> r.oem1.value in PossibleModifierVirtualKeys(kb)))
      && (r.oem2 != p.slots.oem2 ==>
            !p.slots.lookedForOem2 && r.lookedForOem2 &&
            (r.oem2.Some? ==> r.oem2.value in PossibleModifierVirtualKeys(kb)))
  {
  }

  /** A slot whose looked-for flag the builder seeded from the keyboard's own state is
      never searched, and as the builder starts from a fresh keyboard state it stays
      empty, so the sweep never tries that Oem modifier; any slot found holds a
      candidate modifier key. */
  lemma CreateSlots(kb: VirtualKeyboard, platform: Platform)
    requires WellFormedInputList(platform.vimKeyInputList)
    ensures var r := Create(kb, platform, InitialSlots(kb)).slots;
      && (kb.initialOem1.Some? ==> r.oem1 == None)
      && (kb.initialOem2.Some? ==> r.oem2 == None)
      && (r.oem1.Some? ==> r.oem1.value in PossibleModifierVirtualKeys(kb))
      && (r.oem2.Some? ==> r.oem2.value in PossibleModifierVirtualKeys(kb))
      && (kb.initialOem1.Some? ==> forall m :: m in GetShiftStateModifiers(r.oem1, r.oem2) ==> m & Oem1 == 0)
      && (kb.initialOem2.Some? ==> forall m :: m in GetShiftStateModifiers(r.oem1, r.oem2) ==> m & Oem2 == 0)
  {
    var start := Pass1State(EmptyKeyMaps, InitialSlots(kb), map[]);
    BuildKeyInputDataSlots(kb, platform, start, platform.vimKeyInputList);
    var r := Create(kb, platform, InitialSlots(kb)).slots;
    ShiftStatesUseDiscoveredSlots(r.oem1, r.oem2);
  }

  /** Whether the slot of the Oem modifier `oem` has been looked for. */
  function LookedFor(s: OemSlots, oem: Modifiers): bool
  {
    if oem == Oem1 then s.lookedForOem1 else s.lookedForOem2
  }

  /** The key held by the slot of the Oem modifier `oem`. */
  function SlotKey(s: OemSlots, oem: Modifiers): Option<VirtualKey>
  {
    if oem == Oem1 then s.oem1 else s.oem2
  }

  /** A character input whose key on the layout needs exactly the Oem modifier `oem`. */
  predicate NeedsOem(kb: VirtualKeyboard, input: KeyInput, oem: Modifiers)
  {
    && IsCharacterInput(input)
    && input.rawChar.Some?
    && kb.mapChar(input.rawChar.value).Some?
    && kb.mapChar(input.rawChar.value).value.1 & Extended == oem
  }

  /** The key a search started by the character of `input` finds. */
  function SearchFor(kb: VirtualKeyboard, input: KeyInput): Option<VirtualKey>
    requires input.rawChar.Some? && kb.mapChar(input.rawChar.value).Some?
  {
    var (virtualKey, modifiers) := kb.mapChar(input.rawChar.value).value;
    FindModifierKey(kb, PossibleModifierVirtualKeys(kb), input.rawChar.value, virtualKey, modifiers & Regular)
  }

  /** One input of the first pass: a character that needs `oem` marks its slot as
      looked for and, when it was not yet, fills it with what the search finds; any
      other input leaves that slot as it was. */
  lemma KeyInputStepOem(kb: VirtualKeyboard, platform: Platform, p: Pass1State, current: KeyInput, oem: Modifiers)
    requires WellFormedInput(current)
    requires oem == Oem1 || oem == Oem2
    ensures var r := KeyInputStep(kb, platform, p, current).slots;
      && (NeedsOem(kb, current, oem) ==>
            LookedFor(r, oem) && (!LookedFor(p.slots, oem) ==> SlotKey(r, oem) == SearchFor(kb, current)))
      && (!NeedsOem(kb, current, oem) ==>
            LookedFor(r, oem) == LookedFor(p.slots, oem) && SlotKey(r, oem) == SlotKey(p.slots, oem))
  {
  }

  /** After the first pass the slot of `oem` has been looked for as soon as one
      character of the list needs that modifier. */
  lemma {:induction false} Pass1LooksForOem(kb: VirtualKeyboard, platform: Platform, s: Pass1State, inputs: seq<KeyInput>, i: nat, oem: Modifiers)
    requires WellFormedInputList(inputs)
    requires oem == Oem1 || oem == Oem2
    requires i < |inputs| && NeedsOem(kb, inputs[i], oem)
    ensures LookedFor(BuildKeyInputData(kb, platform, s, inputs).slots, oem)
    decreases |inputs|
  {
    var n := |inputs| - 1;
    var p := BuildKeyInputData(kb, platform, s, inputs[..n]);
    assert BuildKeyInputData(kb, platform, s, inputs) == KeyInputStep(kb, platform, p, inputs[n]);
    KeyInputStepOem(kb, platform, p, inputs[n], oem);
    if i < n {
      assert inputs[..n][i] == inputs[i];
      Pass1LooksForOem(kb, platform, s, inputs[..n], i, oem);
    }
  }

  /** A list in which no character needs `oem` leaves that slot as it was. */
  lemma {:induction false} Pass1NoOemNeeded(kb: VirtualKeyboard, platform: Platform, s: Pass1State, inputs: seq<KeyInput>, oem: Modifiers)
    requires WellFormedInputList(inputs)
    requires oem == Oem1 || oem == Oem2
    requires forall j :: 0 <= j < |inputs| ==> !NeedsOem(kb, inputs[j], oem)
    ensures var r := BuildKeyInputData(kb, platform, s, inputs).slots;
      LookedFor(r, oem) == LookedFor(s.slots, oem) && SlotKey(r, oem) == SlotKey(s.slots, oem)
    decreases |inputs|
  {
    if inputs != [] {
      var n := |inputs| - 1;
      var p := BuildKeyInputData(kb, platform, s, inputs[..n]);
      assert BuildKeyInputData(kb, platform, s, inputs) == KeyInputStep(kb, platform, p, inputs[n]);
      Pass1NoOemNeeded(kb, platform, s, inputs[..n], oem);
      KeyInputStepOem(kb, platform, p, inputs[n], oem);
    }
  }

  /** When the slot of `oem` was not looked for before the first pass, the first
      character that needs `oem` decides it: the slot holds what the search started
      by that character finds, and later characters do not search again. */
  lemma Pass1FirstOemDecides(kb: VirtualKeyboard, platform: Platform, s: Pass1State, inputs: seq<KeyInput>, i: nat, oem: Modifiers)
    requires WellFormedInputList(inputs)
    requires oem == Oem1 || oem == Oem2
    requires !LookedFor(s.slots, oem)
    requires i < |inputs| && NeedsOem(kb, inputs[i], oem)
    requires forall j :: 0 <= j < i ==> !NeedsOem(kb, inputs[j], oem)
    ensures SlotKey(BuildKeyInputData(kb, platform, s, inputs).slots, oem) == SearchFor(kb, inputs[i])
  {
    var p := BuildKeyInputData(kb, platform, s, inputs[..i + 1]);
    Pass1FirstOemAtLast(kb, platform, s, inputs[..i + 1], oem);
    assert LookedFor(p.slots, oem) by {
      Pass1LooksForOem(kb, platform, s, inputs[..i + 1], i, oem);
    }
    assert inputs[..i + 1] + inputs[i + 1..] == inputs;
    BuildKeyInputDataAppend(kb, platform, s, inputs[..i + 1], inputs[i + 1..]);
  }

  /** The first pass over two lists in turn is the first pass over their concatenation. */
  lemma {:induction false} BuildKeyInputDataAppend(kb: VirtualKeyboard, platform: Platform, s: Pass1State, a: seq<KeyInput>, b: seq<KeyInput>)
    requires WellFormedInputList(a) && WellFormedInputList(b)
    ensures WellFormedInputList(a + b)
    ensures BuildKeyInputData(kb, platform, s, a + b) == BuildKeyInputData(kb, platform, BuildKeyInputData(kb, platform, s, a), b)
    decreases |b|
  {
    if b == [] {
      assert a + b == a;
    } else {
      var m := |b| - 1;
      assert (a + b)[..|a + b| - 1] == a + b[..m];
      BuildKeyInputDataAppend(kb, platform, s, a, b[..m]);
    }
  }

  /** The case of `Pass1FirstOemDecides` where the deciding character is the last input. */
  lemma Pass1FirstOemAtLast(kb: VirtualKeyboard, platform: Platform, s: Pass1State, inputs: seq<KeyInput>, oem: Modifiers)
    requires WellFormedInputList(inputs)
    requires oem == Oem1 || oem == Oem2
    requires !LookedFor(s.slots, oem)
    requires inputs != [] && NeedsOem(kb, inputs[|inputs| - 1], oem)
    requires forall j :: 0 <= j < |inputs| - 1 ==> !NeedsOem(kb, inputs[j], oem)
    ensures SlotKey(BuildKeyInputData(kb, platform, s, inputs).slots, oem) == SearchFor(kb, inputs[|inputs| - 1])
  {
    var n := |inputs| - 1;
    var p := BuildKeyInputData(kb, platform, s, inputs[..n]);
    assert BuildKeyInputData(kb, platform, s, inputs) == KeyInputStep(kb, platform, p, inputs[n]);
    Pass1NoOemNeeded(kb, platform, s, inputs[..n], oem);
    KeyInputStepOem(kb, platform, p, inputs[n], oem);
  }

  /** Over a whole build from the builder's starting slots, a slot seeded as looked
      for stays empty, and otherwise the first character of the list that needs the
      slot's Oem modifier decides the key it holds. */
  lemma CreateFindsOemKey(kb: VirtualKeyboard, platform: Platform, i: nat, oem: Modifiers)
    requires WellFormedInputList(platform.vimKeyInputList)
    requires oem == Oem1 || oem == Oem2
    requires i < |platform.vimKeyInputList| && NeedsOem(kb, platform.vimKeyInputList[i], oem)
    requires forall j :: 0 <= j < i ==> !NeedsOem(kb, platform.vimKeyInputList[j], oem)
    ensures var r := Create(kb, platform, InitialSlots(kb)).slots;
      && LookedFor(r, oem)
      && SlotKey(r, oem) == (if LookedFor(InitialSlots(kb), oem) then None else SearchFor(kb, platform.vimKeyInputList[i]))
  {
    var start := Pass1State(EmptyKeyMaps, InitialSlots(kb), map[]);
    Pass1LooksForOem(kb, platform, start, platform.vimKeyInputList, i, oem);
    if !LookedFor(InitialSlots(kb), oem) {
      Pass1FirstOemDecides(kb, platform, start, platform.vimKeyInputList, i, oem);
    }
  }

  /** Over a whole build in which no character needs `oem`, that slot is never
      searched and stays empty. */
  lemma CreateNoOemNeeded(kb: VirtualKeyboard, platform: Platform, oem: Modifiers)
    requires WellFormedInputList(platform.vimKeyInputList)
    requires oem == Oem1 || oem == Oem2
    requires forall j :: 0 <= j < |platform.vimKeyInputList| ==> !NeedsOem(kb, platform.vimKeyInputList[j], oem)
    ensures var r := Create(kb, platform, InitialSlots(kb)).slots;
      LookedFor(r, oem) == LookedFor(InitialSlots(kb), oem) && SlotKey(r, oem) == None
  {
    var start := Pass1State(EmptyKeyMaps, InitialSlots(kb), map[]);
    Pass1NoOemNeeded(kb, platform, start, platform.vimKeyInputList, oem);
  }
}
