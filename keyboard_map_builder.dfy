/** The builder object: it owns the two tables, the Oem slot state and the lazily
    computed list of candidate modifier keys, and fills the tables in two passes. */
module Builder {
  import opened KeyboardTypes
  import opened SpecialKeys
  import opened ShiftStates
  import opened KeyTables
  import opened OemDiscovery
  import opened MapBuild
  import opened MapBuildProperties

  class KeyboardMapBuilder {
    const virtualKeyboard: VirtualKeyboard
    const platform: Platform
    var keyStateToVimKeyDataMap: map<KeyState, VimKeyData>
    var keyInputToWpfKeyDataMap: map<KeyInput, seq<KeyState>>
    /** The memoised candidate modifier keys, computed on first use. */
    var possibleModifierVirtualKey: Option<seq<VirtualKey>>
    var lookedForOem1ModifierVirtualKey: bool
    var lookedForOem2ModifierVirtualKey: bool
    /** The Oem slots of the builder's own (fresh) keyboard state. */
    var oem1ModifierVirtualKey: Option<VirtualKey>
    var oem2ModifierVirtualKey: Option<VirtualKey>

    /** The memoised candidate list, once computed, is the layout's candidate list. */
    ghost predicate Valid()
      reads this
    {
      possibleModifierVirtualKey.Some? ==> possibleModifierVirtualKey.value == PossibleModifierVirtualKeys(virtualKeyboard)
    }

    function Maps(): KeyMaps
      reads this
    {
      KeyMaps(keyStateToVimKeyDataMap, keyInputToWpfKeyDataMap)
    }

    function Slots(): OemSlots
      reads this
    {
      OemSlots(lookedForOem1ModifierVirtualKey, lookedForOem2ModifierVirtualKey, oem1ModifierVirtualKey, oem2ModifierVirtualKey)
    }

    /** The looked-for flags are seeded from the Oem keys the keyboard already knows,
        but the builder then works on a fresh keyboard state, whose slots are empty. */
    constructor (virtualKeyboard: VirtualKeyboard, platform: Platform)
      ensures Valid()
      ensures this.virtualKeyboard == virtualKeyboard && this.platform == platform
      ensures Slots() == InitialSlots(virtualKeyboard)
      ensures possibleModifierVirtualKey == None
      ensures Maps() == EmptyKeyMaps
    {
      this.virtualKeyboard := virtualKeyboard;
      this.platform := platform;
      lookedForOem1ModifierVirtualKey := virtualKeyboard.initialOem1.Some?;
      lookedForOem2ModifierVirtualKey := virtualKeyboard.initialOem2.Some?;
      possibleModifierVirtualKey := None;
      oem1ModifierVirtualKey := None;
      oem2ModifierVirtualKey := None;
      keyStateToVimKeyDataMap := map[];
      keyInputToWpfKeyDataMap := map[];
    }

    /** Builds both tables from scratch and returns them; they are consistent. */
    method Create() returns (forward: map<KeyState, VimKeyData>, reverse: map<KeyInput, seq<KeyState>>)
      requires Valid()
      requires WellFormedInputList(platform.vimKeyInputList)
      modifies this
      ensures Valid()
      ensures var r := MapBuild.Create(virtualKeyboard, platform, old(Slots()));
        KeyMaps(forward, reverse) == r.maps && Slots() == r.slots
      ensures Consistent(KeyMaps(forward, reverse))
    {
      keyStateToVimKeyDataMap := map[];
      keyInputToWpfKeyDataMap := map[];
      var charMap := BuildKeyInputData();
      BuildRemainingData(charMap);
      forward := keyStateToVimKeyDataMap;
      reverse := keyInputToWpfKeyDataMap;
      CreateConsistent(virtualKeyboard, platform, old(Slots()));
    }

    /** The first pass: records the special keys and returns the working table from
        characters to their inputs, looking for Oem modifiers on the way. */
    method BuildKeyInputData() returns (charMap: map<char, KeyInput>)
      requires Valid()
      requires WellFormedInputList(platform.vimKeyInputList)
      modifies this
      ensures Valid()
      ensures Pass1State(Maps(), Slots(), charMap) ==
        MapBuild.BuildKeyInputData(virtualKeyboard, platform, Pass1State(old(Maps()), old(Slots()), map[]), platform.vimKeyInputList)
    {
      charMap := map[];
      var inputs := platform.vimKeyInputList;
      ghost var start := Pass1State(Maps(), Slots(), map[]);
      for i := 0 to |inputs|
        invariant Valid()
        invariant Pass1State(Maps(), Slots(), charMap) == MapBuild.BuildKeyInputData(virtualKeyboard, platform, start, inputs[..i])
      {
        BuildKeyInputDataStep(virtualKeyboard, platform, start, inputs, i);
        var current := inputs[i];
        if current.key == Nop {
          continue;
        }

        var (found, virtualKey) := TrySpecialVimKeyToVirtualKey(current.key);
        if found {
          var text := "";
          var result := virtualKeyboard.getText(virtualKey, NoModifiers);
          if result.Text? {
            text := result.text;
          }
          var key := platform.keyFromVirtualKey(virtualKey);
          if key == KeyNone {
            continue;
          }
          AddMapping(KeyState(key, NoModifiers), current, text);
        } else {
          var c := current.rawChar.value;
          var mapped := virtualKeyboard.mapChar(c);
          if mapped.Some? && mapped.value.1 & Extended != 0 {
            LookForOemModifiers(c, mapped.value.0, mapped.value.1);
          }
          charMap := charMap[c := current];
        }
      }
      assert inputs[..|inputs|] == inputs;
    }

    /** The second pass: every platform key under every interesting shift state. */
    method BuildRemainingData(charMap: map<char, KeyInput>)
      modifies this`keyStateToVimKeyDataMap, this`keyInputToWpfKeyDataMap
      ensures Maps() == MapBuild.BuildRemainingData(virtualKeyboard, platform, charMap, old(Maps()),
                                                    ShiftStates.GetShiftStateModifiers(oem1ModifierVirtualKey, oem2ModifierVirtualKey))
    {
      var shiftStateModifiers := GetShiftStateModifiers();
      var keys := platform.keys;
      ghost var t := Maps();
      for i := 0 to |keys|
        invariant Maps() == SweepCells(virtualKeyboard, platform, charMap, t, Cells(keys[..i], shiftStateModifiers))
      {
        CellsStep(keys, i, shiftStateModifiers);
        SweepCellsAppend(virtualKeyboard, platform, charMap, t, Cells(keys[..i], shiftStateModifiers), KeyCells(keys[i], shiftStateModifiers));
        BuildKeyData(charMap, keys[i], shiftStateModifiers);
      }
      assert keys[..|keys|] == keys;
    }

    /** The inner loop of the second pass: one key under every shift state, in order. */
    method BuildKeyData(charMap: map<char, KeyInput>, key: Key, shiftStateModifiers: seq<Modifiers>)
      modifies this`keyStateToVimKeyDataMap, this`keyInputToWpfKeyDataMap
      ensures Maps() == SweepCells(virtualKeyboard, platform, charMap, old(Maps()), KeyCells(key, shiftStateModifiers))
    {
      ghost var t := Maps();
      for j := 0 to |shiftStateModifiers|
        invariant Maps() == SweepCells(virtualKeyboard, platform, charMap, t, KeyCells(key, shiftStateModifiers[..j]))
      {
        var shiftStateModifier := shiftStateModifiers[j];
        KeyCellsStep(key, shiftStateModifiers, j);
        SweepCellsSnoc(virtualKeyboard, platform, charMap, t, KeyCells(key, shiftStateModifiers[..j]), (key, shiftStateModifier));
        ghost var previous := Maps();

        var virtualKey := platform.virtualKeyFromKey(key);
        var result := virtualKeyboard.getText(virtualKey, shiftStateModifier);
        if result.Text? {
          var text := result.text;
          if |text| == 1 && text[0] in charMap {
            AddMapping(KeyState(key, shiftStateModifier), charMap[text[0]], text);
          }
        } else if result.isDeadKey {
          keyStateToVimKeyDataMap := keyStateToVimKeyDataMap[KeyState(key, NoModifiers) := DeadKey];
        }
        assert Maps() == ApplyOutcome(previous, SweepOutcome(virtualKeyboard, platform, charMap, key, shiftStateModifier));
      }
      assert shiftStateModifiers[..|shiftStateModifiers|] == shiftStateModifiers;
    }

    /** The interesting shift states of the layout: the base combinations, then the
        Oem1 combinations when its modifier key was found, the Oem2 combinations when
        its key was found, and the combined ones when both were. */
    method GetShiftStateModifiers() returns (list: seq<Modifiers>)
      ensures list == ShiftStates.GetShiftStateModifiers(oem1ModifierVirtualKey, oem2ModifierVirtualKey)
    {
      list := BaseShiftStates;
      if oem1ModifierVirtualKey.Some? {
        list := list + OemShiftStates(Oem1);
      }
      if oem2ModifierVirtualKey.Some? {
        list := list + OemShiftStates(Oem2);
      }
      if oem1ModifierVirtualKey.Some? && oem2ModifierVirtualKey.Some? {
        list := list + CombinedOemShiftStates;
      }
    }

    /** Records that `keyState` produces `keyInput` with `text` in both tables. */
    method AddMapping(keyState: KeyState, keyInput: KeyInput, text: string)
      modifies this`keyStateToVimKeyDataMap, this`keyInputToWpfKeyDataMap
      ensures Maps() == WithMapping(old(Maps()), keyState, keyInput, text)
    {
      ghost var t := Maps();
      keyStateToVimKeyDataMap := keyStateToVimKeyDataMap[keyState := VimKeyData(keyInput, text)];
      if keyInput !in keyInputToWpfKeyDataMap {
        keyInputToWpfKeyDataMap := keyInputToWpfKeyDataMap[keyInput := [keyState]];
        assert ReverseList(t, keyInput) + [keyState] == [keyState];
      } else {
        var list := keyInputToWpfKeyDataMap[keyInput];
        keyInputToWpfKeyDataMap := keyInputToWpfKeyDataMap[keyInput := list + [keyState]];
      }
      assert Maps() == WithMapping(t, keyState, keyInput, text);
    }

    /** Looks for the modifier key of the one Oem slot named by the extended part of
        `modifiers`, unless that slot was looked for already. */
    method LookForOemModifiers(c: char, virtualKey: VirtualKey, modifiers: Modifiers)
      requires Valid()
      modifies this`lookedForOem1ModifierVirtualKey, this`lookedForOem2ModifierVirtualKey
      modifies this`oem1ModifierVirtualKey, this`oem2ModifierVirtualKey, this`possibleModifierVirtualKey
      ensures Valid()
      ensures Slots() == OemDiscovery.LookForOemModifiers(old(Slots()), virtualKeyboard, c, virtualKey, modifiers)
    {
      var regular := modifiers & Regular;
      var extended := modifiers & Extended;
      if extended == Oem1 {
        if !lookedForOem1ModifierVirtualKey {
          lookedForOem1ModifierVirtualKey := true;
          oem1ModifierVirtualKey := LookForOemModifiersSingle(c, virtualKey, regular);
        }
      } else if extended == Oem2 {
        if !lookedForOem2ModifierVirtualKey {
          lookedForOem2ModifierVirtualKey := true;
          oem2ModifierVirtualKey := LookForOemModifiersSingle(c, virtualKey, regular);
        }
      }
    }

    /** The first candidate modifier key that, held down, makes `virtualKey` under
        `regular` produce exactly `c`. */
    method LookForOemModifiersSingle(c: char, virtualKey: VirtualKey, regular: Modifiers) returns (r: Option<VirtualKey>)
      requires Valid()
      modifies this`possibleModifierVirtualKey
      ensures Valid() && possibleModifierVirtualKey.Some?
      ensures r == FindModifierKey(virtualKeyboard, PossibleModifierVirtualKeys(virtualKeyboard), c, virtualKey, regular)
    {
      var candidates := PossibleModifierVirtualKey();
      for i := 0 to |candidates|
        invariant forall j :: 0 <= j < i ==> !ProbeMatches(virtualKeyboard, candidates[j], c, virtualKey, regular)
      {
        var code := candidates[i];
        var result := virtualKeyboard.probeText(code, virtualKey, regular);
        if result == Text([c]) {
          FindModifierKeyAt(virtualKeyboard, candidates, c, virtualKey, regular, i);
          return Some(code);
        }
      }
      FindModifierKeyAbsent(virtualKeyboard, candidates, c, virtualKey, regular);
      return None;
    }

    /** The memoised candidate list: computed on first use, reused afterwards. */
    method PossibleModifierVirtualKey() returns (candidates: seq<VirtualKey>)
      requires Valid()
      modifies this`possibleModifierVirtualKey
      ensures Valid()
      ensures possibleModifierVirtualKey == Some(candidates)
      ensures candidates == PossibleModifierVirtualKeys(virtualKeyboard)
      ensures old(possibleModifierVirtualKey).Some? ==> possibleModifierVirtualKey == old(possibleModifierVirtualKey)
    {
      if possibleModifierVirtualKey.None? {
        var list := GetPossibleVirtualKeyModifiers();
        possibleModifierVirtualKey := Some(list);
      }
      candidates := possibleModifierVirtualKey.value;
    }

    /** The codes of the probed range that, pressed alone, produce neither text nor a
        dead key, in ascending order. */
    method GetPossibleVirtualKeyModifiers() returns (list: seq<VirtualKey>)
      ensures forall x :: x in list <==> FirstCandidate <= x < CandidateLimit && BehavesAsModifier(virtualKeyboard, x)
      ensures StrictlyIncreasing(list)
      ensures list == PossibleModifierVirtualKeys(virtualKeyboard)
    {
      list := [];
      for i := 0xBA to 0xE5
        invariant list == CandidatesBelow(virtualKeyboard, i)
      {
        var result := virtualKeyboard.getText(i, NoModifiers);
        if result.NoText? && !result.isDeadKey {
          list := list + [i];
        }
      }
      CandidatesBelowIncreasing(virtualKeyboard, CandidateLimit);
    }
  }

  /** One more input of the first pass is one more step. */
  lemma BuildKeyInputDataStep(kb: VirtualKeyboard, platform: Platform, s: Pass1State, inputs: seq<KeyInput>, i: nat)
    requires WellFormedInputList(inputs) && i < |inputs|
    ensures WellFormedInputList(inputs[..i]) && WellFormedInputList(inputs[..i + 1]) && WellFormedInput(inputs[i])
    ensures MapBuild.BuildKeyInputData(kb, platform, s, inputs[..i + 1]) ==
            KeyInputStep(kb, platform, MapBuild.BuildKeyInputData(kb, platform, s, inputs[..i]), inputs[i])
  {
    assert inputs[..i + 1][..i] == inputs[..i];
  }

  /** One more key's cells extend the sweep cells of the keys before it. */
  lemma CellsStep(keys: seq<Key>, i: nat, modifiers: seq<Modifiers>)
    requires i < |keys|
    ensures Cells(keys[..i + 1], modifiers) == Cells(keys[..i], modifiers) + KeyCells(keys[i], modifiers)
  {
    assert keys[..i + 1][..i] == keys[..i];
  }

  /** One more shift state of `key` extends its cells by that one pair. */
  lemma KeyCellsStep(key: Key, modifiers: seq<Modifiers>, j: nat)
    requires j < |modifiers|
    ensures KeyCells(key, modifiers[..j + 1]) == KeyCells(key, modifiers[..j]) + [(key, modifiers[j])]
  {
  }

  /** Sweeping two runs of cells is sweeping the first, then the second. */
  lemma {:induction false} SweepCellsAppend(kb: VirtualKeyboard, platform: Platform, charMap: map<char, KeyInput>, t: KeyMaps,
                                            a: seq<(Key, Modifiers)>, b: seq<(Key, Modifiers)>)
    ensures SweepCells(kb, platform, charMap, t, a + b) ==
            SweepCells(kb, platform, charMap, SweepCells(kb, platform, charMap, t, a), b)
    decreases |b|
  {
    if b == [] {
      assert a + b == a;
    } else {
      var n := |b| - 1;
      assert (a + b)[..|a + b| - 1] == a + b[..n];
      assert (a + b)[|a + b| - 1] == b[n];
      SweepCellsAppend(kb, platform, charMap, t, a, b[..n]);
    }
  }

  /** Querying one more cell applies that query's outcome. */
  lemma SweepCellsSnoc(kb: VirtualKeyboard, platform: Platform, charMap: map<char, KeyInput>, t: KeyMaps,
                       cells: seq<(Key, Modifiers)>, cell: (Key, Modifiers))
    ensures SweepCells(kb, platform, charMap, t, cells + [cell]) ==
            ApplyOutcome(SweepCells(kb, platform, charMap, t, cells), SweepOutcome(kb, platform, charMap, cell.0, cell.1))
  {
    assert (cells + [cell])[..|cells|] == cells;
  }
}
