/** Bit masks (challenge strings) and the positions they select. */
module Masks {

  /** The indices `i` with `mask[i] == want`, in ascending order. */
  function Positions(mask: seq<bool>, want: bool): (r: seq<nat>)
    ensures forall k :: 0 <= k < |r| ==> r[k] < |mask|
    decreases |mask|
  {
    if |mask| == 0 then []
    else
      var p := Positions(mask[..|mask| - 1], want);
      if mask[|mask| - 1] == want then p + [|mask| - 1] else p
  }

  /** `Positions` lists exactly the indices holding `want`, each once and in
      ascending order. */
  lemma {:induction false} PositionsSpec(mask: seq<bool>, want: bool)
    ensures |Positions(mask, want)| <= |mask|
    ensures forall k :: 0 <= k < |Positions(mask, want)| ==>
              Positions(mask, want)[k] < |mask| && mask[Positions(mask, want)[k]] == want
    ensures forall k, l :: 0 <= k < l < |Positions(mask, want)| ==>
              Positions(mask, want)[k] < Positions(mask, want)[l]
    ensures forall i :: 0 <= i < |mask| && mask[i] == want ==> i in Positions(mask, want)
    decreases |mask|
  {
    if |mask| > 0 {
      var init := mask[..|mask| - 1];
      PositionsSpec(init, want);
      forall i | 0 <= i < |init| && init[i] == want
        ensures mask[i] == want
      {
      }
    }
  }

  /** Number of set bits (countSetBits over the whole mask). */
  function CountSet(mask: seq<bool>): nat {
    |Positions(mask, true)|
  }

  /** Extending a mask by one bit extends its position list by at most
      that bit's index. */
  lemma PositionsSnoc(mask: seq<bool>, i: nat, want: bool)
    requires i < |mask|
    ensures Positions(mask[..i + 1], want)
         == Positions(mask[..i], want) + (if mask[i] == want then [i] else [])
  {
    assert mask[..i + 1][..i] == mask[..i];
  }

  /** Every index is either set or clear: the two position lists split the
      mask. */
  lemma {:induction false} PositionsPartition(mask: seq<bool>)
    ensures |Positions(mask, true)| + |Positions(mask, false)| == |mask|
    decreases |mask|
  {
    if |mask| > 0 {
      PositionsPartition(mask[..|mask| - 1]);
    }
  }

  /** A position is never both set and clear. */
  lemma PositionsDisjoint(mask: seq<bool>, k: nat, l: nat)
    requires k < |Positions(mask, true)| && l < |Positions(mask, false)|
    ensures Positions(mask, true)[k] != Positions(mask, false)[l]
  {
    PositionsSpec(mask, true);
    PositionsSpec(mask, false);
  }

  /** The positions of a prefix of the mask are a prefix of the positions
      of the whole mask. */
  lemma {:induction false} PositionsPrefix(mask: seq<bool>, i: nat, want: bool)
    requires i <= |mask|
    ensures Positions(mask[..i], want) <= Positions(mask, want)
    decreases |mask| - i
  {
    if i == |mask| {
      assert mask[..i] == mask;
    } else {
      PositionsPrefix(mask, i + 1, want);
      PositionsSnoc(mask, i, want);
    }
  }
}
