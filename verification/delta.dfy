/** Canonicalisation of the committed global offset Δ across executions
    (src/tiny/tiny-constructor.cpp, Preprocess, lines 118-154).

    Execution 0 turns the value committed at its Δ slot into the OT's
    global Δ by publishing a correction and rewriting its second share; every
    other execution then copies execution 0's Δ-slot shares. The wait/notify
    rendezvous is modelled only by its effect: execution 0 finishes its update
    before any other execution copies it. */
module DeltaSync {
  import opened Keys

  /** All executions hold execution 0's Δ slot, and it commits `globalDelta`. */
  predicate DeltaAgreed(blocks: seq<seq<Share>>, deltaPos: nat, globalDelta: Key) {
    && |blocks| > 0
    && (forall e :: 0 <= e < |blocks| ==> deltaPos < |blocks[e]|)
    && blocks[0][deltaPos].Value() == globalDelta
    && (forall e :: 0 <= e < |blocks| ==> blocks[e][deltaPos] == blocks[0][deltaPos])
  }

  /** Execution 0's step: the public correction and the rewritten block. */
  function CorrectDelta(block: seq<Share>, deltaPos: nat, globalDelta: Key): (r: (Key, seq<Share>))
    requires deltaPos < |block|
    ensures |r.1| == |block|
    ensures r.1[deltaPos].Value() == globalDelta
    ensures r.1[deltaPos].s0 == block[deltaPos].s0
    ensures Xor(block[deltaPos].s1, r.0) == r.1[deltaPos].s1
    ensures Xor(r.0, globalDelta) == block[deltaPos].Value()
    ensures forall p :: 0 <= p < |block| && p != deltaPos ==> r.1[p] == block[p]
  {
    var sh := block[deltaPos];
    var correction := Xor(sh.Value(), globalDelta);
    XorCancel(globalDelta, sh.s0);
    XorCancel(sh.Value(), globalDelta);
    XorComm(sh.s0, sh.s1);
    XorAssoc(sh.s1, sh.s0, globalDelta);
    XorCancel(Xor(sh.s0, globalDelta), sh.s1);
    (correction, block[deltaPos := Share(sh.s0, Xor(sh.s0, globalDelta))])
  }

  /** Every execution's Δ step: execution 0 corrects, the others adopt its
      Δ slot. Returns the correction execution 0 sends and the new blocks. */
  method SyncDelta(blocks: seq<seq<Share>>, deltaPos: nat, globalDelta: Key)
    returns (correction: Key, synced: seq<seq<Share>>)
    requires |blocks| > 0
    requires forall e :: 0 <= e < |blocks| ==> deltaPos < |blocks[e]|
    ensures DeltaAgreed(synced, deltaPos, globalDelta)
    ensures |synced| == |blocks|
    ensures Xor(correction, globalDelta) == blocks[0][deltaPos].Value()
    ensures Xor(blocks[0][deltaPos].s1, correction) == synced[0][deltaPos].s1
    ensures synced[0][deltaPos].s0 == blocks[0][deltaPos].s0
    ensures forall e :: 0 <= e < |blocks| ==> |synced[e]| == |blocks[e]|
    ensures forall e, p :: 0 <= e < |blocks| && 0 <= p < |blocks[e]| && p != deltaPos ==>
              synced[e][p] == blocks[e][p]
  {
    var first;
    correction, first := CorrectDelta(blocks[0], deltaPos, globalDelta).0,
                         CorrectDelta(blocks[0], deltaPos, globalDelta).1;
    var holder := first[deltaPos];
    synced := [first];
    var e := 1;
    while e < |blocks|
      invariant 1 <= e <= |blocks|
      invariant |synced| == e
      invariant synced[0] == first
      invariant forall x :: 0 <= x < e ==> |synced[x]| == |blocks[x]| && synced[x][deltaPos] == holder
      invariant forall x, p :: 0 <= x < e && 0 <= p < |blocks[x]| && p != deltaPos ==>
                  synced[x][p] == blocks[x][p]
    {
      synced := synced + [blocks[e][deltaPos := holder]];
      e := e + 1;
    }
  }
}
