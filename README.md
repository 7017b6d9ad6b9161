# Keyboard map builder

A model of VsVim's `KeyboardMapBuilder`, the WPF class that turns the active Windows
keyboard layout into two tables:

- a forward table from a physical key state (a WPF `Key` plus the virtual key modifiers
  held with it) to the editor key input it produces, or to a dead-key marker;
- a reverse table from an editor key input to the key states that produce it.

The build has two passes.

- The first pass walks the editor's list of key inputs.
  - It skips the no-op key.
  - It records each special input of the list (one of 44 special keys: Enter, the
    arrows, F1-F12, the keypad and so on) at the WPF key of its fixed virtual key, with
    no modifiers. A special input whose virtual key has no WPF key is skipped.
  - It collects every plain character input into a working table from characters to
    inputs.
  - When the layout says a character needs one of the layout-specific Oem modifiers,
    it discovers which virtual key acts as that modifier. It tries the candidate
    modifier keys in the range 0xBA-0xE4, in order, and searches each Oem slot at most
    once.
- The second pass sweeps every WPF key under every interesting shift state.
  - The shift states are the seven base combinations, plus eight per discovered Oem
    modifier, plus four when both Oem modifiers are known.
  - A one-character text found in the working table is recorded as a mapping.
  - A dead key is recorded at the key with no modifiers.
  - A later write to the same key state wins.

The model has two layers:

- Pure functions give the specification:
  - `MapBuild.BuildKeyInputData`, a fold over the input list;
  - `MapBuild.SweepCells` over `MapBuild.Cells`, the (key, shift state) pairs in sweep
    order;
  - `MapBuild.Create` for the whole build.
- The class `Builder.KeyboardMapBuilder` keeps the source's fields and loops. Each of
  its methods is proved equal to the matching function.

The operating system and WPF come in as values:

- `VirtualKeyboard` answers the layout's text queries (`getText`, `mapChar`) and the
  probe with a candidate modifier key held down (`probeText`).
- `Platform` carries the editor's key-input list, the enumeration of WPF keys and the
  two key/virtual-key conversions.

Modules:

- `KeyboardTypes`: the values.
- `SpecialKeys`: the virtual-key table of the special keys.
- `ShiftStates`: the shift-state list.
- `KeyTables`: the two tables and the one insertion routine.
- `OemDiscovery`: the candidate modifier keys and the Oem slot search.
- `MapBuild`: the two passes as functions.
- `MapBuildProperties`: what a build guarantees.
- `Builder`: the imperative class.

All source paths below are in `VimWpf/Implementation/Keyboard/KeyboardMapBuilder.cs`.

## Model

| member | source | states |
|---|---|---|
| Builder.KeyboardMapBuilder.constructor | VimWpf/Implementation/Keyboard/KeyboardMapBuilder.cs:29-37 | The looked-for flags are seeded from the Oem keys the layout's keyboard state already knows. The builder then works on a fresh keyboard state, so both Oem slots start empty. The candidate cache is not yet computed. The source leaves the two tables unassigned until `Create` makes them (lines 43-44); the model starts them empty only so that every field has a value. |
| Builder.KeyboardMapBuilder.Create | VimWpf/Implementation/Keyboard/KeyboardMapBuilder.cs:39-51 | The returned tables and the new Oem slots are exactly those of the specification `MapBuild.Create`, started from the builder's slots. The returned forward and reverse tables are consistent with each other. |
| Builder.KeyboardMapBuilder.BuildKeyInputData | VimWpf/Implementation/Keyboard/KeyboardMapBuilder.cs:56-108 | The loop over the input list leaves the tables, the Oem slots and the returned working table equal to the first-pass fold `MapBuild.BuildKeyInputData` over the whole list. This covers skipping Nop, skipping special keys with no WPF key, and the Oem search for characters that need an extended modifier. |
| Builder.KeyboardMapBuilder.BuildRemainingData | VimWpf/Implementation/Keyboard/KeyboardMapBuilder.cs:113-143 | The nested sweep leaves the tables equal to the queries of every (key, shift state) pair, applied in the source's order: keys outer, shift states inner. The shift states are those computed from the current Oem slots. |
| Builder.KeyboardMapBuilder.BuildKeyData | VimWpf/Implementation/Keyboard/KeyboardMapBuilder.cs:118-141 | One key under each shift state in list order. The tables equal the outcomes of those queries applied in turn: a mapping for a one-character text in the working table, a dead key at the key with no modifiers, otherwise nothing. |
| Builder.KeyboardMapBuilder.GetShiftStateModifiers | VimWpf/Implementation/Keyboard/KeyboardMapBuilder.cs:153-197 | The list built step by step equals the shift-state list for the builder's discovered Oem slots. |
| Builder.KeyboardMapBuilder.AddMapping | VimWpf/Implementation/Keyboard/KeyboardMapBuilder.cs:199-212 | The forward entry of the key state is replaced. The key state is appended to the reverse list of the key input, creating that list if absent. Nothing else in either table changes. |
| Builder.KeyboardMapBuilder.LookForOemModifiers | VimWpf/Implementation/Keyboard/KeyboardMapBuilder.cs:281-304 | The new slots are those of `OemDiscovery.LookForOemModifiers`: only the slot named by the extended part is searched, only when exactly one Oem flag is present, and only when that slot was not looked for before. |
| Builder.KeyboardMapBuilder.LookForOemModifiersSingle | VimWpf/Implementation/Keyboard/KeyboardMapBuilder.cs:306-325 | The result is the first candidate, in list order, whose probe yields exactly the character, or none. The candidate cache is filled afterwards. |
| Builder.KeyboardMapBuilder.PossibleModifierVirtualKey | VimWpf/Implementation/Keyboard/KeyboardMapBuilder.cs:310 | The candidate list is computed at most once: a cached value is kept unchanged, and the value answered is always the layout's candidate list. |
| Builder.KeyboardMapBuilder.GetPossibleVirtualKeyModifiers | VimWpf/Implementation/Keyboard/KeyboardMapBuilder.cs:332-346 | A code is in the list exactly when it lies in [0xBA, 0xE5) and, pressed alone, gives neither text nor a dead key. The list is strictly ascending. |
| SpecialKeys.TrySpecialVimKeyToVirtualKey | VimWpf/Implementation/Keyboard/KeyboardMapBuilder.cs:223-279 | A key is found exactly when it is in the Windows virtual-key reference table, and then with that table's code. Any other key is not found and gets code 0. |
| SpecialKeys.ListedKeysAreSpecial | VimWpf/Implementation/Keyboard/KeyboardMapBuilder.cs:228-271 | Every key of the 44-key list (editing, function and keypad keys) is found. |
| SpecialKeys.SpecialKeysAreListed | VimWpf/Implementation/Keyboard/KeyboardMapBuilder.cs:228-275 | Every found key is on the 44-key list; all other keys fall through to the default case. |
| SpecialKeys.SpecialKeyCount | VimWpf/Implementation/Keyboard/KeyboardMapBuilder.cs:228-271 | The list of special keys has 44 entries, no two of them the same key. |
| SpecialKeys.SpecialKeyExamples | VimWpf/Implementation/Keyboard/KeyboardMapBuilder.cs:228-275 | Enter is 0xD, F12 is 0x7B and Keypad9 is 0x69. LineFeed is found although its code is 0. Nop is not found. |
| ShiftStates.ShiftStateNames | VimWpf/Implementation/Keyboard/KeyboardMapBuilder.cs:156-193 | Each entry of the three blocks is the named combination of Shift, Control, Alt, CapsLock, Oem1 and Oem2 that the source adds. |
| ShiftStates.ShiftStateLayout | VimWpf/Implementation/Keyboard/KeyboardMapBuilder.cs:153-197 | The list has 7 entries, 15 with one Oem modifier discovered and 27 with both. In order, it holds the base block, the Oem1 block, the Oem2 block and the combined block. |
| ShiftStates.ShiftStatesUseDiscoveredSlots | VimWpf/Implementation/Keyboard/KeyboardMapBuilder.cs:153-197 | An Oem flag appears only when that Oem modifier was discovered. No entry holds a bit outside the six modifiers, and bare Alt is never tried. |
| ShiftStates.ShiftStatesDistinct | VimWpf/Implementation/Keyboard/KeyboardMapBuilder.cs:153-197 | No shift state is tried twice on the same key. |
| KeyTables.WithMapping | VimWpf/Implementation/Keyboard/KeyboardMapBuilder.cs:199-212 | The forward entry is replaced and the key state is appended to the input's reverse list. Every other entry of both tables is unchanged, and an earlier owner of the key state keeps it in its reverse list. |
| KeyTables.WithDeadKey | VimWpf/Implementation/Keyboard/KeyboardMapBuilder.cs:136-140 | Marking a dead key writes only the forward entry and leaves the reverse table as it was. |
| KeyTables.EmptyConsistent | VimWpf/Implementation/Keyboard/KeyboardMapBuilder.cs:43-44 | The two fresh tables are consistent. |
| KeyTables.WithMappingConsistent | VimWpf/Implementation/Keyboard/KeyboardMapBuilder.cs:199-212 | Recording a mapping keeps every non-dead forward entry listed under its input in the reverse table. It also keeps every reverse-listed key state in the forward table. |
| KeyTables.WithDeadKeyConsistent | VimWpf/Implementation/Keyboard/KeyboardMapBuilder.cs:136-140 | Marking a dead key keeps the tables consistent. |
| OemDiscovery.CandidatesBelow | VimWpf/Implementation/Keyboard/KeyboardMapBuilder.cs:332-346 | A code is a candidate below n exactly when it is at least 0xBA, below n, and behaves as a modifier. |
| OemDiscovery.CandidatesBelowIncreasing | VimWpf/Implementation/Keyboard/KeyboardMapBuilder.cs:335-342 | Candidates are listed in strictly ascending order of code. |
| OemDiscovery.FindModifierKey | VimWpf/Implementation/Keyboard/KeyboardMapBuilder.cs:306-325 | An answer is a candidate whose probe yields exactly the character. No answer means no candidate's probe yields it. |
| OemDiscovery.FindModifierKeyAt | VimWpf/Implementation/Keyboard/KeyboardMapBuilder.cs:310-321 | The search answers the first matching candidate by position. |
| OemDiscovery.FindModifierKeyAbsent | VimWpf/Implementation/Keyboard/KeyboardMapBuilder.cs:324 | With no matching candidate, the search answers nothing. |
| OemDiscovery.FindModifierKeyOrdered | VimWpf/Implementation/Keyboard/KeyboardMapBuilder.cs:310-321 | Over an ascending list, no candidate smaller than the answer matches. |
| OemDiscovery.FindModifierKeyIsFirst | VimWpf/Implementation/Keyboard/KeyboardMapBuilder.cs:306-346 | Searching the candidate list finds the smallest code of the probed range that behaves as a modifier and whose probe yields the character, or nothing when no code does. |
| OemDiscovery.LookForOemModifiers | VimWpf/Implementation/Keyboard/KeyboardMapBuilder.cs:281-304 | A looked-for flag becomes set exactly when it was set or the extended part is exactly that Oem flag. A slot that was already looked for, or is not named, keeps its value. |
| OemDiscovery.LookForOemModifiersFindsFirst | VimWpf/Implementation/Keyboard/KeyboardMapBuilder.cs:289-301 | A searched slot receives the smallest code that can be its modifier key for the character under the regular modifiers, or nothing. |
| OemDiscovery.LookForOemModifiersOnce | VimWpf/Implementation/Keyboard/KeyboardMapBuilder.cs:289-301 | A second request for the same slot, with any character and key, changes nothing. |
| OemDiscovery.AmbiguousExtendedIgnored | VimWpf/Implementation/Keyboard/KeyboardMapBuilder.cs:283-303 | When the extended part names both Oem flags, or neither, the slots are unchanged. |
| MapBuild.KeyInputStep | VimWpf/Implementation/Keyboard/KeyboardMapBuilder.cs:59-104 | One input of the first pass. A Nop or special input leaves the Oem slots and the working table as they were. A character input leaves the tables as they were and maps its character to the input itself in the working table. A slot already looked for keeps its value. |
| MapBuild.CheckExtendedModifier | VimWpf/Implementation/Keyboard/KeyboardMapBuilder.cs:95-101 | When the layout has no key for the character, or its key needs no Oem modifier, the slots are unchanged. A slot already looked for keeps its value. When the key needs exactly Oem1 (or Oem2), that slot becomes looked for, and if it was not before it holds what the search for that character, key and regular modifiers finds. |
| MapBuild.BuildKeyInputData | VimWpf/Implementation/Keyboard/KeyboardMapBuilder.cs:56-108 | The first pass never searches a slot that was already looked for: its flag stays set and its value is kept. |
| MapBuild.SweepOutcome | VimWpf/Implementation/Keyboard/KeyboardMapBuilder.cs:120-140 | A mapping is recorded at the queried key under the queried shift state. A dead key is recorded at the key with no modifiers, whichever shift state reported it. |
| MapBuild.KeyCells | VimWpf/Implementation/Keyboard/KeyboardMapBuilder.cs:118-141 | The queries for one key are that key paired with each shift state of the list, in list order. |
| MapBuild.BuildRemainingData | VimWpf/Implementation/Keyboard/KeyboardMapBuilder.cs:113-143 | The sweep only adds or replaces forward entries; it never removes one. With no platform keys the tables are unchanged. |
| MapBuild.SweepCellsKeepsKeys | VimWpf/Implementation/Keyboard/KeyboardMapBuilder.cs:113-143 | Every forward entry present before any sequence of queries is still present after it. |
| MapBuild.InitialSlots | VimWpf/Implementation/Keyboard/KeyboardMapBuilder.cs:29-37 | The looked-for flags are those of the Oem keys the keyboard already knows. No slot holds a key yet, so a sweep from this state tries only the seven base shift states. |
| MapBuild.Create | VimWpf/Implementation/Keyboard/KeyboardMapBuilder.cs:39-51 | A slot that was already looked for when the build starts is not searched again and keeps its value. |
| ShiftStates.GetShiftStateModifiers | VimWpf/Implementation/Keyboard/KeyboardMapBuilder.cs:153-197 | The list has 7 entries, plus 8 for each discovered Oem modifier, plus 4 when both are discovered. |
| OemDiscovery.PossibleModifierVirtualKeys | VimWpf/Implementation/Keyboard/KeyboardMapBuilder.cs:332-346 | A code is a candidate exactly when it lies in [0xBA, 0xE5) and, pressed alone, gives neither text nor a dead key. |
| MapBuildProperties.ApplyOutcomeConsistent | VimWpf/Implementation/Keyboard/KeyboardMapBuilder.cs:130-140 | One sweep query keeps the tables consistent. |
| MapBuildProperties.BuildKeyInputDataConsistent | VimWpf/Implementation/Keyboard/KeyboardMapBuilder.cs:56-108 | The first pass keeps the tables consistent. |
| MapBuildProperties.SweepCellsConsistent | VimWpf/Implementation/Keyboard/KeyboardMapBuilder.cs:113-143 | The sweep keeps the tables consistent. |
| MapBuildProperties.CreateConsistent | VimWpf/Implementation/Keyboard/KeyboardMapBuilder.cs:39-51 | After a whole build, every non-dead forward entry is listed under its input in the reverse table, and every reverse-listed key state has a forward entry. |
| MapBuildProperties.CellsAppend | VimWpf/Implementation/Keyboard/KeyboardMapBuilder.cs:116-118 | Sweeping keys `a + b` queries every pair of `a` before every pair of `b`. |
| MapBuildProperties.CellsOrder | VimWpf/Implementation/Keyboard/KeyboardMapBuilder.cs:116-118 | The pairs of key i come after those of every earlier key and before those of every later key, each key under the whole shift-state list. |
| MapBuildProperties.CellsMembers | VimWpf/Implementation/Keyboard/KeyboardMapBuilder.cs:116-118 | Every swept pair is an enumerated key with a listed shift state. |
| MapBuildProperties.SweepUnwrittenUnchanged | VimWpf/Implementation/Keyboard/KeyboardMapBuilder.cs:113-143 | A key state that no query writes keeps its forward entry, or its absence. |
| MapBuildProperties.SweepLastWriteWins | VimWpf/Implementation/Keyboard/KeyboardMapBuilder.cs:130-140 | A key state's forward entry is the one written by the last query that writes it. |
| MapBuildProperties.SweepOutcomeCases | VimWpf/Implementation/Keyboard/KeyboardMapBuilder.cs:120-140 | A query records a mapping exactly when the text is one character in the working table. It records a dead key exactly when the layout reports one, always at the key with no modifiers. |
| MapBuildProperties.BuildKeyInputDataProvenance | VimWpf/Implementation/Keyboard/KeyboardMapBuilder.cs:56-108 | The first pass writes only special-key entries: the key of the fixed virtual key, no modifiers, and the text of that virtual key or "". The working table holds each character input under its own character. |
| MapBuildProperties.SweepCellsProvenance | VimWpf/Implementation/Keyboard/KeyboardMapBuilder.cs:113-143 | The sweep writes only entries justified by a query: a one-character text produced under a swept shift state, or a dead key reported under one. |
| MapBuildProperties.ApplyOutcomeProvenance | VimWpf/Implementation/Keyboard/KeyboardMapBuilder.cs:124-140 | One query writes only an entry justified by that query. |
| MapBuildProperties.CreateProvenance | VimWpf/Implementation/Keyboard/KeyboardMapBuilder.cs:39-51 | Every forward entry of a build comes from the first pass for a special input or from a sweep query. |
| MapBuildProperties.CreateRoundTrip | VimWpf/Implementation/Keyboard/KeyboardMapBuilder.cs:130-133 | A character input is recorded only with a one-character text that is its own character. When converting the WPF key of each special key's virtual key back gives that virtual key, every non-empty recorded text is what the layout produces for that key state. |
| MapBuildProperties.CharMapLastWriteWins | VimWpf/Implementation/Keyboard/KeyboardMapBuilder.cs:103 | The working table maps a character to the last character input of the list that carries it. |
| MapBuildProperties.CharMapUnwritten | VimWpf/Implementation/Keyboard/KeyboardMapBuilder.cs:103 | A character that no input carries keeps its working-table entry, or its absence. |
| MapBuildProperties.SpecialKeysRecorded | VimWpf/Implementation/Keyboard/KeyboardMapBuilder.cs:67-86 | Every special input whose virtual key has a WPF key gets a forward entry at that key with no modifiers. |
| MapBuildProperties.BuildKeyInputDataSlots | VimWpf/Implementation/Keyboard/KeyboardMapBuilder.cs:95-101 | Over the first pass, a slot already looked for keeps its value. A slot that changes was not looked for before, and it holds a candidate modifier key. |
| MapBuildProperties.KeyInputStepSlots | VimWpf/Implementation/Keyboard/KeyboardMapBuilder.cs:95-101 | The same as BuildKeyInputDataSlots, for one input. |
| MapBuildProperties.KeyInputStepOem | VimWpf/Implementation/Keyboard/KeyboardMapBuilder.cs:95-101 | For either Oem modifier: a character input whose layout key needs exactly that modifier marks its slot as looked for and, if it was not, fills it with the search result for that character; every other input leaves that slot's flag and key as they were. |
| MapBuildProperties.Pass1LooksForOem | VimWpf/Implementation/Keyboard/KeyboardMapBuilder.cs:59-104 | After the first pass, the slot of an Oem modifier is looked for as soon as one character of the list needs exactly that modifier. |
| MapBuildProperties.Pass1NoOemNeeded | VimWpf/Implementation/Keyboard/KeyboardMapBuilder.cs:59-104 | A list in which no character needs an Oem modifier leaves that slot's flag and key as they were. |
| MapBuildProperties.Pass1FirstOemDecides | VimWpf/Implementation/Keyboard/KeyboardMapBuilder.cs:59-104 | When a slot was not looked for before the pass, its key afterwards is what the search started by the first character needing that modifier finds; later characters do not search again. |
| MapBuildProperties.BuildKeyInputDataAppend | VimWpf/Implementation/Keyboard/KeyboardMapBuilder.cs:59-104 | The first pass over one list and then another gives the same state as the first pass over their concatenation. |
| MapBuildProperties.CreateFindsOemKey | VimWpf/Implementation/Keyboard/KeyboardMapBuilder.cs:31-104 | Over a whole build from the builder's starting slots, once some character needs an Oem modifier, its slot is looked for and holds nothing if the keyboard already knew that modifier key, and otherwise the key found for the first such character. |
| MapBuildProperties.CreateNoOemNeeded | VimWpf/Implementation/Keyboard/KeyboardMapBuilder.cs:31-104 | Over a whole build in which no character needs an Oem modifier, its slot keeps its seeded flag and stays empty. |
| MapBuildProperties.CreateSlots | VimWpf/Implementation/Keyboard/KeyboardMapBuilder.cs:33-36 | A slot whose flag was seeded from the keyboard's own state is never searched and stays empty, so the sweep never tries that Oem modifier. Any slot found holds a candidate modifier key. |

## Left out

- Windows and WPF calls: `TryGetText`, `TryMapChar`, `KeyInterop` and `Enum.GetValues(typeof(Key))` are parameters (`VirtualKeyboard`, `Platform`), not code. Their behaviour belongs to the operating system.
- `KeyboardState.SetKey`/`Clear`: the probe during the Oem search is one oracle, `probeText(code, vk, mods)`, indexed by the candidate being tried. The source clears the builder's keyboard state once (line 309) and then sets each candidate in turn without releasing the earlier ones (line 313). The text query at line 318 goes to the virtual keyboard, and this file does not show how that query relates to the builder's keyboard state, which line 36 replaced with a fresh one. The oracle is left unconstrained, so it covers both readings: a probe that sees the keys set so far, and one that does not.
- The contents of `KeyInputUtil.VimKeyInputList` and of the `VimKey` enumeration: the input list is a parameter, and only the 44 special keys, `Nop` and plain characters are told apart.
- `FrugalList<KeyState>` is modelled as a sequence, and `Dictionary` as a map.
- The thread safety of `Lazy<T>`: the cache is a field the accessor fills on first use.
- `Debug.Assert` on character inputs: modelled as the precondition `WellFormedInputList`, since the source assumes it.
- The `uint` width of virtual keys and the `(int)` casts are not modelled, because every code in play is below 0x100.
- The bit values of `VirtualKeyModifiers` are the model's own (`VirtualKeyModifiers.cs` is not part of this model). The shift-state blocks in `ShiftStates` are written with these values, and `ShiftStates.ShiftStateNames` proves each entry equal to the named combination of flags the source lists; the proofs about masks rely on the concrete values.
- Characters: a C# `char` and `string` hold UTF-16 code units, while a Dafny `char` is a Unicode scalar value. The test `text.Length == 1` (`KeyboardMapBuilder.cs:130`) and the model's `|text| == 1` therefore differ for a character outside the Basic Multilingual Plane: the source sees a text of length 2. The model's text of length 1 is recorded only when the working table holds its character, and no key input of the editor's list carries such a character (a C# `char` is one UTF-16 unit), so the outcome is the same on every input the source can meet.
- Builder.KeyboardMapBuilder.BuildKeyData: the source runs this inner loop inline in `BuildRemainingData`. The model makes it a separate method so each loop carries its own invariant.
- Builder.KeyboardMapBuilder.AddMapping: its contract states the new tables only. The consistency of the two tables is carried by `KeyTables.WithMappingConsistent` and `MapBuildProperties.CreateConsistent`.
- ShiftStates.GetShiftStateModifiers: the blocks are written with combined flag values. `ShiftStates.ShiftStateNames` proves them equal to the named combinations the source adds.
- The class's own field for the keyboard state is reduced to its two Oem slots. The builder also calls `Clear` and `SetKey` on it (lines 309 and 313); their effects are not modelled (see the probe line above), and whether `Clear` resets the Oem slots is not visible in this file, so the model takes it that it does not.
