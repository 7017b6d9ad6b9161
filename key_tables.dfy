/** The two tables the builder produces, the single insertion routine that keeps them
    in step, and the invariant it keeps. */
module KeyTables {
  import opened KeyboardTypes

  /** forward: key state to key data; reverse: key input to the key states that produce it. */
  datatype KeyMaps = KeyMaps(forward: map<KeyState, VimKeyData>, reverse: map<KeyInput, seq<KeyState>>)

  const EmptyKeyMaps := KeyMaps(map[], map[])

  /** The key states recorded for `keyInput` so far (none when it is absent). */
  function ReverseList(t: KeyMaps, keyInput: KeyInput): seq<KeyState>
  {
    if keyInput in t.reverse then t.reverse[keyInput] else []
  }

  /** The tables after recording that `keyState` produces `keyInput` with `text`:
      the forward entry of `keyState` is replaced, `keyState` is appended to the
      reverse list of `keyInput`, and nothing else changes; in particular the reverse
      list of a previous owner of `keyState` still holds it. */
  function WithMapping(t: KeyMaps, keyState: KeyState, keyInput: KeyInput, text: string): (r: KeyMaps)
    ensures r.forward.Keys == t.forward.Keys + {keyState}
    ensures r.forward[keyState] == VimKeyData(keyInput, text)
    ensures forall ks :: ks in t.forward && ks != keyState ==> r.forward[ks] == t.forward[ks]
    ensures r.reverse.Keys == t.reverse.Keys + {keyInput}
    ensures r.reverse[keyInput] == ReverseList(t, keyInput) + [keyState]
    ensures forall ki :: ki in t.reverse && ki != keyInput ==> r.reverse[ki] == t.reverse[ki]
  {
    KeyMaps(t.forward[keyState := VimKeyData(keyInput, text)],
            t.reverse[keyInput := ReverseList(t, keyInput) + [keyState]])
  }

  /** The tables after marking `keyState` as a dead key; the reverse table is untouched. */
  function WithDeadKey(t: KeyMaps, keyState: KeyState): (r: KeyMaps)
    ensures r.forward.Keys == t.forward.Keys + {keyState}
    ensures r.forward[keyState] == DeadKey
    ensures forall ks :: ks in t.forward && ks != keyState ==> r.forward[ks] == t.forward[ks]
    ensures r.reverse == t.reverse
  {
    KeyMaps(t.forward[keyState := DeadKey], t.reverse)
  }

  /** The two tables agree: every forward entry that is not a dead key is listed
      under its key input in the reverse table, and every key state listed in the
      reverse table has a forward entry. */
  ghost predicate Consistent(t: KeyMaps)
  {
    && (forall ks :: ks in t.forward && t.forward[ks].VimKeyData? ==>
          t.forward[ks].keyInput in t.reverse && ks in t.reverse[t.forward[ks].keyInput])
    && (forall ki, ks :: ki in t.reverse && ks in t.reverse[ki] ==> ks in t.forward)
  }

  lemma EmptyConsistent()
    ensures Consistent(EmptyKeyMaps)
  {
  }

  /** Recording a mapping keeps the tables consistent. */
  lemma WithMappingConsistent(t: KeyMaps, keyState: KeyState, keyInput: KeyInput, text: string)
    requires Consistent(t)
    ensures Consistent(WithMapping(t, keyState, keyInput, text))
  {
    var r := WithMapping(t, keyState, keyInput, text);
    forall ks | ks in r.forward && r.forward[ks].VimKeyData?
      ensures r.forward[ks].keyInput in r.reverse && ks in r.reverse[r.forward[ks].keyInput]
    {
      if ks != keyState {
        var ki := t.forward[ks].keyInput;
        if ki == keyInput {
          assert ks in ReverseList(t, keyInput);
        }
      }
    }
  }

  /** Marking a dead key keeps the tables consistent. */
  lemma WithDeadKeyConsistent(t: KeyMaps, keyState: KeyState)
    requires Consistent(t)
    ensures Consistent(WithDeadKey(t, keyState))
  {
  }
}
