/** Discovery of the virtual keys behind the layout-specific Oem1 and Oem2 modifiers. */
module OemDiscovery {
  import opened KeyboardTypes

  /** The probed range of virtual keys is [FirstCandidate, CandidateLimit). */
  const FirstCandidate: VirtualKey := 0xBA
  const CandidateLimit: VirtualKey := 0xE5

  /** Pressed alone, `code` produces neither text nor a dead key, as a modifier key does. */
  predicate BehavesAsModifier(kb: VirtualKeyboard, code: VirtualKey)
  {
    kb.getText(code, NoModifiers) == NoText(false)
  }

  predicate StrictlyIncreasing(s: seq<VirtualKey>)
  {
    forall i, j :: 0 <= i < j < |s| ==> s[i] < s[j]
  }

  /** The candidate modifier keys below `n`: the codes of the probed range under `n`
      that behave as modifiers, in ascending order of code. */
  function CandidatesBelow(kb: VirtualKeyboard, n: VirtualKey): (r: seq<VirtualKey>)
    ensures forall x {:trigger x in r} :: x in r <==> FirstCandidate <= x < n && BehavesAsModifier(kb, x)
    decreases n
  {
    if n <= FirstCandidate then []
    else CandidatesBelow(kb, n - 1) + (if BehavesAsModifier(kb, n - 1) then [n - 1] else [])
  }

  /** The candidates come in strictly ascending order. */
  lemma {:induction false} CandidatesBelowIncreasing(kb: VirtualKeyboard, n: VirtualKey)
    ensures StrictlyIncreasing(CandidatesBelow(kb, n))
    decreases n
  {
    if n > FirstCandidate {
      CandidatesBelowIncreasing(kb, n - 1);
      var below := CandidatesBelow(kb, n - 1);
      assert forall i :: 0 <= i < |below| ==> below[i] in below;
    }
  }

  /** Every candidate modifier key of the layout, in ascending order. */
  function PossibleModifierVirtualKeys(kb: VirtualKeyboard): (r: seq<VirtualKey>)
    ensures forall x {:trigger x in r} :: x in r <==> FirstCandidate <= x < CandidateLimit && BehavesAsModifier(kb, x)
  {
    CandidatesBelow(kb, CandidateLimit)
  }

  /** With `code` held down, `virtualKey` under the `regular` modifiers yields exactly `c`. */
  predicate ProbeMatches(kb: VirtualKeyboard, code: VirtualKey, c: char, virtualKey: VirtualKey, regular: Modifiers)
  {
    kb.probeText(code, virtualKey, regular) == Text([c])
  }

  /** The first of `candidates`, in list order, whose probe yields `c`, if any. */
  function FindModifierKey(kb: VirtualKeyboard, candidates: seq<VirtualKey>, c: char,
                           virtualKey: VirtualKey, regular: Modifiers): (r: Option<VirtualKey>)
    ensures r.Some? ==> r.value in candidates && ProbeMatches(kb, r.value, c, virtualKey, regular)
    ensures r.None? ==> forall x :: x in candidates ==> !ProbeMatches(kb, x, c, virtualKey, regular)
  {
    if candidates == [] then None
    else if ProbeMatches(kb, candidates[0], c, virtualKey, regular) then Some(candidates[0])
    else FindModifierKey(kb, candidates[1..], c, virtualKey, regular)
  }

  /** The search answers the first candidate, by position, whose probe yields `c`. */
  lemma {:induction false} FindModifierKeyAt(kb: VirtualKeyboard, candidates: seq<VirtualKey>, c: char,
                                             virtualKey: VirtualKey, regular: Modifiers, i: nat)
    requires i < |candidates|
    requires ProbeMatches(kb, candidates[i], c, virtualKey, regular)
    requires forall j :: 0 <= j < i ==> !ProbeMatches(kb, candidates[j], c, virtualKey, regular)
    ensures FindModifierKey(kb, candidates, c, virtualKey, regular) == Some(candidates[i])
    decreases i
  {
    if i > 0 {
      var rest := candidates[1..];
      assert forall j :: 0 <= j < i - 1 ==> rest[j] == candidates[j + 1];
      FindModifierKeyAt(kb, rest, c, virtualKey, regular, i - 1);
    }
  }

  /** The search answers nothing when no candidate's probe yields `c`. */
  lemma FindModifierKeyAbsent(kb: VirtualKeyboard, candidates: seq<VirtualKey>, c: char,
                              virtualKey: VirtualKey, regular: Modifiers)
    requires forall j :: 0 <= j < |candidates| ==> !ProbeMatches(kb, candidates[j], c, virtualKey, regular)
    ensures FindModifierKey(kb, candidates, c, virtualKey, regular) == None
  {
  }

  /** Over an ascending list, the first match by position is the smallest matching code. */
  lemma {:induction false} FindModifierKeyOrdered(kb: VirtualKeyboard, candidates: seq<VirtualKey>, c: char,
                                                  virtualKey: VirtualKey, regular: Modifiers)
    requires StrictlyIncreasing(candidates)
    ensures var r := FindModifierKey(kb, candidates, c, virtualKey, regular);
      r.Some? ==> forall x :: x in candidates && x < r.value ==> !ProbeMatches(kb, x, c, virtualKey, regular)
    decreases |candidates|
  {
    if candidates != [] && !ProbeMatches(kb, candidates[0], c, virtualKey, regular) {
      var rest := candidates[1..];
      assert StrictlyIncreasing(rest);
      FindModifierKeyOrdered(kb, rest, c, virtualKey, regular);
      assert forall x :: x in candidates && x != candidates[0] ==> x in rest;
    }
  }

  /** `code` can be the modifier key that turns `virtualKey` under `regular` into `c`. */
  predicate IsModifierKeyFor(kb: VirtualKeyboard, code: VirtualKey, c: char, virtualKey: VirtualKey, regular: Modifiers)
  {
    FirstCandidate <= code < CandidateLimit && BehavesAsModifier(kb, code) && ProbeMatches(kb, code, c, virtualKey, regular)
  }

  /** `r` is the smallest code that can be the modifier key for `c`, or none when no
      code of the probed range can. */
  ghost predicate IsFirstModifierKeyFor(kb: VirtualKeyboard, r: Option<VirtualKey>, c: char, virtualKey: VirtualKey, regular: Modifiers)
  {
    && (r.Some? ==> IsModifierKeyFor(kb, r.value, c, virtualKey, regular))
    && (r.Some? ==> forall y: VirtualKey :: y < r.value ==> !IsModifierKeyFor(kb, y, c, virtualKey, regular))
    && (r.None? ==> forall y: VirtualKey :: !IsModifierKeyFor(kb, y, c, virtualKey, regular))
  }

  /** Searching the candidate list finds the smallest code of the probed range that
      behaves as a modifier and whose probe yields `c`, and nothing when none does. */
  lemma FindModifierKeyIsFirst(kb: VirtualKeyboard, c: char, virtualKey: VirtualKey, regular: Modifiers)
    ensures IsFirstModifierKeyFor(kb, FindModifierKey(kb, PossibleModifierVirtualKeys(kb), c, virtualKey, regular), c, virtualKey, regular)
  {
    var candidates := PossibleModifierVirtualKeys(kb);
    var r := FindModifierKey(kb, candidates, c, virtualKey, regular);
    CandidatesBelowIncreasing(kb, CandidateLimit);
    FindModifierKeyOrdered(kb, candidates, c, virtualKey, regular);
    forall y: VirtualKey | IsModifierKeyFor(kb, y, c, virtualKey, regular)
      ensures r.Some? && r.value <= y
    {
      assert y in candidates;
    }
  }

  /** What one build knows about the two Oem modifier slots: whether each was looked
      for, and the virtual key found for it. */
  datatype OemSlots = OemSlots(lookedForOem1: bool, lookedForOem2: bool, oem1: Option<VirtualKey>, oem2: Option<VirtualKey>)

  /** The slots after `c` was found to need the Oem modifiers in `modifiers` on
      `virtualKey`: the slot named by the extended part is searched, unless it was
      looked for already or the extended part is not exactly one Oem flag. */
  function LookForOemModifiers(s: OemSlots, kb: VirtualKeyboard, c: char, virtualKey: VirtualKey, modifiers: Modifiers): (r: OemSlots)
    ensures r.lookedForOem1 == (s.lookedForOem1 || modifiers & Extended == Oem1)
    ensures r.lookedForOem2 == (s.lookedForOem2 || modifiers & Extended == Oem2)
    ensures s.lookedForOem1 || modifiers & Extended != Oem1 ==> r.oem1 == s.oem1
    ensures s.lookedForOem2 || modifiers & Extended != Oem2 ==> r.oem2 == s.oem2
  {
    var regular := modifiers & Regular;
    var extended := modifiers & Extended;
    if extended == Oem1 then
      if !s.lookedForOem1 then
        s.(lookedForOem1 := true, oem1 := FindModifierKey(kb, PossibleModifierVirtualKeys(kb), c, virtualKey, regular))
      else s
    else if extended == Oem2 then
      if !s.lookedForOem2 then
        s.(lookedForOem2 := true, oem2 := FindModifierKey(kb, PossibleModifierVirtualKeys(kb), c, virtualKey, regular))
      else s
    else s
  }

  /** A slot that is searched ends up holding the smallest code of the probed range
      that can be its modifier key for `c`, or nothing when no code can. */
  lemma LookForOemModifiersFindsFirst(s: OemSlots, kb: VirtualKeyboard, c: char, virtualKey: VirtualKey, modifiers: Modifiers)
    ensures var r := LookForOemModifiers(s, kb, c, virtualKey, modifiers);
      && (!s.lookedForOem1 && modifiers & Extended == Oem1 ==>
            IsFirstModifierKeyFor(kb, r.oem1, c, virtualKey, modifiers & Regular))
      && (!s.lookedForOem2 && modifiers & Extended == Oem2 ==>
            IsFirstModifierKeyFor(kb, r.oem2, c, virtualKey, modifiers & Regular))
  {
    FindModifierKeyIsFirst(kb, c, virtualKey, modifiers & Regular);
  }

  /** A slot is searched at most once: a second request for the same slot, whatever
      its character and key, leaves the slots as the first request left them. */
  lemma LookForOemModifiersOnce(s: OemSlots, kb: VirtualKeyboard, c: char, virtualKey: VirtualKey, modifiers: Modifiers,
                                c': char, virtualKey': VirtualKey, modifiers': Modifiers)
    requires modifiers' & Extended == modifiers & Extended
    ensures var once := LookForOemModifiers(s, kb, c, virtualKey, modifiers);
      LookForOemModifiers(once, kb, c', virtualKey', modifiers') == once
  {
  }

  /** When the extended part names both Oem flags, or neither, nothing changes. */
  lemma AmbiguousExtendedIgnored(s: OemSlots, kb: VirtualKeyboard, c: char, virtualKey: VirtualKey, modifiers: Modifiers)
    requires modifiers & Extended == Extended || modifiers & Extended == 0
    ensures LookForOemModifiers(s, kb, c, virtualKey, modifiers) == s
  {
  }
}
