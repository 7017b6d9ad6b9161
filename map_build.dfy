/** The two-pass construction of the key tables, as functions of the layout, the
    platform and the Oem slots the build starts with. */
module MapBuild {
  import opened KeyboardTypes
  import opened SpecialKeys
  import opened ShiftStates
  import opened KeyTables
  import opened OemDiscovery

  // ---------------------------------------------------------------------------
  // Pass 1: the editor's key inputs

  /** An input that is neither the no-op key nor a special key: a plain character. */
  predicate IsCharacterInput(ki: KeyInput)
  {
    ki.key != Nop && !TrySpecialVimKeyToVirtualKey(ki.key).0
  }

  /** A character input carries its character and no modifiers. */
  predicate WellFormedInput(ki: KeyInput)
  {
    IsCharacterInput(ki) ==> ki.rawChar.Some? && ki.keyModifiers == 0
  }

  predicate WellFormedInputList(inputs: seq<KeyInput>)
  {
    forall i :: 0 <= i < |inputs| ==> WellFormedInput(inputs[i])
  }

  /** The state of the first pass: the key tables, the Oem slots and the working
      table from characters to the inputs that stand for them. */
  datatype Pass1State = Pass1State(maps: KeyMaps, slots: OemSlots, charMap: map<char, KeyInput>)

  /** The slots after asking the layout which key produces `c`: when that needs an
      Oem modifier, the slot it names is looked for. */
  function CheckExtendedModifier(s: OemSlots, kb: VirtualKeyboard, c: char): (r: OemSlots)
    ensures kb.mapChar(c).None? || kb.mapChar(c).value.1 & Extended == 0 ==> r == s
    ensures s.lookedForOem1 ==> r.lookedForOem1 && r.oem1 == s.oem1
    ensures s.lookedForOem2 ==> r.lookedForOem2 && r.oem2 == s.oem2
    ensures kb.mapChar(c).Some? && kb.mapChar(c).value.1 & Extended == Oem1 ==>
      r.lookedForOem1 &&
      (!s.lookedForOem1 ==> r.oem1 == FindModifierKey(kb, PossibleModifierVirtualKeys(kb), c, kb.mapChar(c).value.0, kb.mapChar(c).value.1 & Regular))
    ensures kb.mapChar(c).Some? && kb.mapChar(c).value.1 & Extended == Oem2 ==>
      r.lookedForOem2 &&
      (!s.lookedForOem2 ==> r.oem2 == FindModifierKey(kb, PossibleModifierVirtualKeys(kb), c, kb.mapChar(c).value.0, kb.mapChar(c).value.1 & Regular))
  {
    match kb.mapChar(c)
    case Some((virtualKey, modifiers)) =>
      if modifiers & Extended != 0 then LookForOemModifiers(s, kb, c, virtualKey, modifiers) else s
    case None => s
  }

  /** One input of the first pass. */
  function KeyInputStep(kb: VirtualKeyboard, platform: Platform, s: Pass1State, current: KeyInput): (r: Pass1State)
    requires WellFormedInput(current)
    ensures !IsCharacterInput(current) ==> r.slots == s.slots && r.charMap == s.charMap
    ensures IsCharacterInput(current) ==> r.maps == s.maps && r.charMap == s.charMap[current.rawChar.value := current]
    ensures s.slots.lookedForOem1 ==> r.slots.lookedForOem1 && r.slots.oem1 == s.slots.oem1
    ensures s.slots.lookedForOem2 ==> r.slots.lookedForOem2 && r.slots.oem2 == s.slots.oem2
  {
    if current.key == Nop then s
    else
      var (found, virtualKey) := TrySpecialVimKeyToVirtualKey(current.key);
      if found then
        var text := TextOrEmpty(kb.getText(virtualKey, NoModifiers));
        var key := platform.keyFromVirtualKey(virtualKey);
        if key == KeyNone then s
        else s.(maps := WithMapping(s.maps, KeyState(key, NoModifiers), current, text))
      else
        var c := current.rawChar.value;
        s.(slots := CheckExtendedModifier(s.slots, kb, c), charMap := s.charMap[c := current])
  }

  /** The first pass over `inputs`, in order. */
  function BuildKeyInputData(kb: VirtualKeyboard, platform: Platform, s: Pass1State, inputs: seq<KeyInput>): (r: Pass1State)
    requires WellFormedInputList(inputs)
    ensures s.slots.lookedForOem1 ==> r.slots.lookedForOem1 && r.slots.oem1 == s.slots.oem1
    ensures s.slots.lookedForOem2 ==> r.slots.lookedForOem2 && r.slots.oem2 == s.slots.oem2
    decreases |inputs|
  {
    if inputs == [] then s
    else
      var n := |inputs| - 1;
      KeyInputStep(kb, platform, BuildKeyInputData(kb, platform, s, inputs[..n]), inputs[n])
  }

  // ---------------------------------------------------------------------------
  // Pass 2: every platform key under every interesting shift state

  /** What one (key, shift state) query records. */
  datatype Outcome =
    | Mapping(keyState: KeyState, keyInput: KeyInput, text: string)
    | MarkDead(keyState: KeyState)
    | Unmapped

  /** The outcome of querying `key` under `modifier`: a mapping when the text is one
      character of the working table; a dead key, recorded without modifiers, when the
      query reports one; nothing otherwise. */
  function SweepOutcome(kb: VirtualKeyboard, platform: Platform, charMap: map<char, KeyInput>,
                        key: Key, modifier: Modifiers): (r: Outcome)
    ensures r.Mapping? ==> r.keyState == KeyState(key, modifier)
    ensures r.MarkDead? ==> r.keyState == KeyState(key, NoModifiers)
  {
    match kb.getText(platform.virtualKeyFromKey(key), modifier)
    case Text(text) =>
      if |text| == 1 && text[0] in charMap then Mapping(KeyState(key, modifier), charMap[text[0]], text)
      else Unmapped
    case NoText(isDeadKey) =>
      if isDeadKey then MarkDead(KeyState(key, NoModifiers)) else Unmapped
  }

  function ApplyOutcome(t: KeyMaps, o: Outcome): (r: KeyMaps)
  {
    match o
    case Mapping(keyState, keyInput, text) => WithMapping(t, keyState, keyInput, text)
    case MarkDead(keyState) => WithDeadKey(t, keyState)
    case Unmapped => t
  }

  /** The (key, shift state) pairs of one key, in shift-state order. */
  function KeyCells(key: Key, modifiers: seq<Modifiers>): (r: seq<(Key, Modifiers)>)
    ensures |r| == |modifiers|
    ensures forall j :: 0 <= j < |r| ==> r[j] == (key, modifiers[j])
  {
    seq(|modifiers|, j requires 0 <= j < |modifiers| => (key, modifiers[j]))
  }

  /** The pairs of the sweep: keys in the outer order, shift states in the inner. */
  function Cells(keys: seq<Key>, modifiers: seq<Modifiers>): seq<(Key, Modifiers)>
    decreases |keys|
  {
    if keys == [] then []
    else
      var n := |keys| - 1;
      Cells(keys[..n], modifiers) + KeyCells(keys[n], modifiers)
  }

  /** The tables after querying the `cells` in order. */
  function SweepCells(kb: VirtualKeyboard, platform: Platform, charMap: map<char, KeyInput>,
                      t: KeyMaps, cells: seq<(Key, Modifiers)>): KeyMaps
    decreases |cells|
  {
    if cells == [] then t
    else
      var n := |cells| - 1;
      ApplyOutcome(SweepCells(kb, platform, charMap, t, cells[..n]),
                   SweepOutcome(kb, platform, charMap, cells[n].0, cells[n].1))
  }

  /** The second pass: every platform key under every shift state of `modifiers`. */
  function BuildRemainingData(kb: VirtualKeyboard, platform: Platform, charMap: map<char, KeyInput>,
                              t: KeyMaps, modifiers: seq<Modifiers>): (r: KeyMaps)
    ensures t.forward.Keys <= r.forward.Keys
    ensures platform.keys == [] ==> r == t
  {
    SweepCellsKeepsKeys(kb, platform, charMap, t, Cells(platform.keys, modifiers));
    SweepCells(kb, platform, charMap, t, Cells(platform.keys, modifiers))
  }

  /** The sweep never removes a forward entry. */
  lemma {:induction false} SweepCellsKeepsKeys(kb: VirtualKeyboard, platform: Platform, charMap: map<char, KeyInput>,
                                               t: KeyMaps, cells: seq<(Key, Modifiers)>)
    ensures t.forward.Keys <= SweepCells(kb, platform, charMap, t, cells).forward.Keys
    decreases |cells|
  {
    if cells != [] {
      SweepCellsKeepsKeys(kb, platform, charMap, t, cells[..|cells| - 1]);
    }
  }

  // ---------------------------------------------------------------------------
  // The whole build

  /** The Oem slots of a new builder: looked-for flags seeded from the keyboard's own
      state, slots empty, because the builder works on a fresh keyboard state. */
  function InitialSlots(kb: VirtualKeyboard): (r: OemSlots)
    ensures r.lookedForOem1 == kb.initialOem1.Some? && r.lookedForOem2 == kb.initialOem2.Some?
    ensures GetShiftStateModifiers(r.oem1, r.oem2) == BaseShiftStates
  {
    OemSlots(kb.initialOem1.Some?, kb.initialOem2.Some?, None, None)
  }

  /** The state at the end of one build started with `slots`. */
  function Create(kb: VirtualKeyboard, platform: Platform, slots: OemSlots): (r: Pass1State)
    requires WellFormedInputList(platform.vimKeyInputList)
    ensures slots.lookedForOem1 ==> r.slots.lookedForOem1 && r.slots.oem1 == slots.oem1
    ensures slots.lookedForOem2 ==> r.slots.lookedForOem2 && r.slots.oem2 == slots.oem2
  {
    var p := BuildKeyInputData(kb, platform, Pass1State(EmptyKeyMaps, slots, map[]), platform.vimKeyInputList);
    var modifiers := GetShiftStateModifiers(p.slots.oem1, p.slots.oem2);
    p.(maps := BuildRemainingData(kb, platform, p.charMap, p.maps, modifiers))
  }
}
