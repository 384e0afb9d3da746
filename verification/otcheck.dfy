/** The OT cut-and-choose check of the last execution
    (src/tiny/tiny-constructor.cpp, Preprocess, lines 101-114 and 156-189).

    The last execution chosen-commits SSEC OT outputs beyond its own input
    range. The evaluator returns, for each, a choice bit and the OT string it
    claims to have received; the garbler recomputes the string and aborts on
    any mismatch, otherwise it opens the SSEC commitments, each shifted by Δ
    when its choice bit is set. */
module OtCheck {
  import opened Keys
  import opened Layout

  /** The slots `otChosenStart + k` commit the OT outputs `baseOuter[inpFrom + k]`
      for `k < count`: the effect of ChosenCommit on this execution's block. */
  predicate ChosenCommitted(block: seq<Share>, lay: SlotLayout, baseOuter: seq<Key>,
                            inpFrom: nat, count: nat)
  {
    && lay.otChosenStart + count <= |block|
    && inpFrom + count <= |baseOuter|
    && forall p :: lay.otChosenStart <= p < lay.otChosenStart + count ==>
         block[p].Value() == baseOuter[inpFrom + (p - lay.otChosenStart)]
  }

  /** The OT string the evaluator should hold for check `i`. */
  function ExpectedOt(baseOuter: seq<Key>, inpTo: nat, choices: seq<bool>, globalDelta: Key, i: nat): Key
    requires inpTo + i < |baseOuter| && i < |choices|
  {
    Adj(baseOuter[inpTo + i], choices[i], globalDelta)
  }

  /** Check the `|received|` OT values and stage their decommitments. The
      commitment for check `i` sits at `otChosenStart + num_OT_commits - SSEC + i`,
      which is `otChosenStart + (inpTo - inpFrom) + i`. */
  method CheckOtCnc(baseOuter: seq<Key>, inpFrom: nat, inpTo: nat,
                    received: seq<Key>, choices: seq<bool>, globalDelta: Key,
                    block: seq<Share>, lay: SlotLayout)
    returns (r: Result<seq<Share>>)
    requires inpFrom <= inpTo && |choices| == |received|
    requires inpTo + |received| <= |baseOuter|
    requires lay.otChosenStart + (inpTo - inpFrom) + |received| <= |block|
    requires lay.deltaPos < |block|
    ensures r.Err? <==> (exists i :: 0 <= i < |received| &&
                           received[i] != ExpectedOt(baseOuter, inpTo, choices, globalDelta, i))
    ensures r.Err? ==> r.error == ReceiverCheating
    ensures r.Ok? ==> (|r.value| == |received| &&
                       forall i :: 0 <= i < |received| ==>
                         r.value[i] == AdjShare(block[lay.otChosenStart + (inpTo - inpFrom) + i], choices[i], block[lay.deltaPos]))
    // With the chosen commitments in place and Δ canonicalised, every
    // staged decommitment opens exactly the OT value the evaluator sent.
    ensures r.Ok? && block[lay.deltaPos].Value() == globalDelta &&
            ChosenCommitted(block, lay, baseOuter, inpFrom, inpTo - inpFrom + |received|) ==>
              forall i :: 0 <= i < |received| ==> r.value[i].Value() == received[i]
  {
    var staged: seq<Share> := [];
    var i := 0;
    while i < |received|
      invariant 0 <= i <= |received| && |staged| == i
      invariant forall j :: 0 <= j < i ==> received[j] == ExpectedOt(baseOuter, inpTo, choices, globalDelta, j)
      invariant forall j :: 0 <= j < i ==>
                  staged[j] == AdjShare(block[lay.otChosenStart + (inpTo - inpFrom) + j], choices[j], block[lay.deltaPos])
    {
      var commitId := lay.otChosenStart + (inpTo - inpFrom) + i;
      var correct := if choices[i] then Xor(baseOuter[inpTo + i], globalDelta) else baseOuter[inpTo + i];
      XorZero(baseOuter[inpTo + i]);
      staged := staged + [AdjShare(block[commitId], choices[i], block[lay.deltaPos])];
      if correct != received[i] {
        return Err(ReceiverCheating);
      }
      i := i + 1;
    }
    r := Ok(staged);
    if block[lay.deltaPos].Value() == globalDelta &&
       ChosenCommitted(block, lay, baseOuter, inpFrom, inpTo - inpFrom + |received|) {
      forall j | 0 <= j < |received|
        ensures r.value[j].Value() == received[j]
      {
        var p := lay.otChosenStart + (inpTo - inpFrom) + j;
        assert block[p].Value() == baseOuter[inpFrom + (p - lay.otChosenStart)];
      }
    }
  }
}
