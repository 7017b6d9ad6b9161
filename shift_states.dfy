/** The modifier combinations the exhaustive sweep tries on every physical key. */
module ShiftStates {
  import opened KeyboardTypes

  // The blocks below are written with their flag values already combined, which
  // keeps them cheap for the solver; ShiftStateNames spells each entry out as the
  // combination of named flags it stands for.

  /** The combinations every layout is swept with. */
  const BaseShiftStates: seq<Modifiers> := [0x00, 0x01, 0x03, 0x07, 0x02, 0x06, 0x08]

  /** The eight combinations added for one discovered Oem modifier. */
  function OemShiftStates(oem: Modifiers): seq<Modifiers>
  {
    [oem, oem | 0x01, oem | 0x03, oem | 0x05, oem | 0x07, oem | 0x02, oem | 0x06, oem | 0x04]
  }

  /** The four combinations added when both Oem modifiers are discovered. */
  const CombinedOemShiftStates: seq<Modifiers> := [0x30, 0x31, 0x32, 0x34]

  /** Each block, entry by entry, as the combination of named flags it tries. */
  lemma ShiftStateNames()
    ensures BaseShiftStates == [NoModifiers, Shift, Shift | Control, Shift | Control | Alt, Control, Control | Alt, CapsLock]
    ensures forall oem :: (OemShiftStates(oem) ==
      [oem, oem | Shift, oem | Shift | Control, oem | Shift | Alt, oem | Shift | Control | Alt,
       oem | Control, oem | Control | Alt, oem | Alt])
    ensures CombinedOemShiftStates == [Oem1 | Oem2, Oem1 | Oem2 | Shift, Oem1 | Oem2 | Control, Oem1 | Oem2 | Alt]
  {
  }

  /** The interesting shift states of a layout whose Oem1 and Oem2 modifier keys
      are `oem1` and `oem2` (absent when not discovered). */
  function GetShiftStateModifiers(oem1: Option<VirtualKey>, oem2: Option<VirtualKey>): (r: seq<Modifiers>)
    ensures |r| == 7 + (if oem1.Some? then 8 else 0) + (if oem2.Some? then 8 else 0) + (if oem1.Some? && oem2.Some? then 4 else 0)
  {
    BaseShiftStates
    + (if oem1.Some? then OemShiftStates(Oem1) else [])
    + (if oem2.Some? then OemShiftStates(Oem2) else [])
    + (if oem1.Some? && oem2.Some? then CombinedOemShiftStates else [])
  }

  /** The list has 7 entries, 15 with one Oem modifier discovered and 27 with both;
      the seven base combinations come first, then the Oem1 block, the Oem2 block
      and the four combined entries, in that order. */
  lemma ShiftStateLayout(oem1: Option<VirtualKey>, oem2: Option<VirtualKey>)
    ensures var r := GetShiftStateModifiers(oem1, oem2);
      && |r| == (if oem1.Some? && oem2.Some? then 27 else if oem1.Some? || oem2.Some? then 15 else 7)
      && r[..7] == [NoModifiers, Shift, Shift | Control, Shift | Control | Alt, Control, Control | Alt, CapsLock]
      && (oem1.Some? ==> r[7..15] == OemShiftStates(Oem1))
      && (oem2.Some? ==> r[(if oem1.Some? then 15 else 7)..][..8] == OemShiftStates(Oem2))
      && (oem1.Some? && oem2.Some? ==> r[23..] == CombinedOemShiftStates)
  {
  }

  /** An entry holds an Oem modifier only when that modifier was discovered, never
      holds a bit outside the six modifiers, and bare Alt is never tried. */
  lemma ShiftStatesUseDiscoveredSlots(oem1: Option<VirtualKey>, oem2: Option<VirtualKey>)
    ensures forall m :: m in GetShiftStateModifiers(oem1, oem2) ==>
      && (m & Oem1 != 0 ==> oem1.Some?)
      && (m & Oem2 != 0 ==> oem2.Some?)
      && m & (Regular | Extended) == m
      && m != Alt
  {
    BaseFacts();
    OemFacts();
    CombinedFacts();
    var b := if oem1.Some? then OemShiftStates(Oem1) else [];
    var c := if oem2.Some? then OemShiftStates(Oem2) else [];
    var d := if oem1.Some? && oem2.Some? then CombinedOemShiftStates else [];
    forall m | m in GetShiftStateModifiers(oem1, oem2)
      ensures m & Oem1 != 0 ==> oem1.Some?
      ensures m & Oem2 != 0 ==> oem2.Some?
      ensures m & (Regular | Extended) == m && m != Alt
    {
      assert m in BaseShiftStates || m in b || m in c || m in d;
    }
  }

  /** No combination is tried twice on the same key. */
  lemma ShiftStatesDistinct(oem1: Option<VirtualKey>, oem2: Option<VirtualKey>)
    ensures Distinct(GetShiftStateModifiers(oem1, oem2))
  {
    BaseFacts();
    OemFacts();
    CombinedFacts();
    var a := BaseShiftStates;
    var b := if oem1.Some? then OemShiftStates(Oem1) else [];
    var c := if oem2.Some? then OemShiftStates(Oem2) else [];
    var d := if oem1.Some? && oem2.Some? then CombinedOemShiftStates else [];
    DistinctConcat(a, b);
    DistinctConcat(a + b, c);
    DistinctConcat(a + b + c, d);
  }

  predicate Distinct(s: seq<Modifiers>)
  {
    forall i, j :: 0 <= i < j < |s| ==> s[i] != s[j]
  }

  lemma DistinctConcat(a: seq<Modifiers>, b: seq<Modifiers>)
    requires Distinct(a) && Distinct(b)
    requires forall x :: x in a ==> x !in b
    ensures Distinct(a + b)
  {
    forall i, j | 0 <= i < j < |a + b|
      ensures (a + b)[i] != (a + b)[j]
    {
      if j < |a| {
      } else if i >= |a| {
        assert (a + b)[i] == b[i - |a|] && (a + b)[j] == b[j - |a|];
      } else {
        assert (a + b)[i] in a && (a + b)[j] in b;
      }
    }
  }

  // Each block is free of repeats and is told apart from the others by its Oem bits.

  lemma BaseFacts()
    ensures Distinct(BaseShiftStates)
    ensures forall m :: m in BaseShiftStates ==> m & Extended == 0 && m & Regular == m && m != Alt
  {
  }

  lemma OemFacts()
    ensures Distinct(OemShiftStates(Oem1)) && Distinct(OemShiftStates(Oem2))
    ensures forall m :: m in OemShiftStates(Oem1) ==> m & Extended == Oem1 && m & (Regular | Oem1) == m
    ensures forall m :: m in OemShiftStates(Oem2) ==> m & Extended == Oem2 && m & (Regular | Oem2) == m
  {
  }

  lemma CombinedFacts()
    ensures Distinct(CombinedOemShiftStates)
    ensures forall m :: m in CombinedOemShiftStates ==> m & Extended == Extended && m & (Regular | Extended) == m
  {
  }
}
