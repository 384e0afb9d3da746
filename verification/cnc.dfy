/** The gate and authenticator cut-and-choose of one execution
    (src/tiny/tiny-constructor.cpp, Preprocess, lines 271-385).

    The challenge masks select check gates and check authenticators; the
    challenge inputs give, for the k-th check item, the bit it is evaluated
    on. A checked authenticator or gate input is answered with its 0-key,
    shifted by the global Δ when its bit is set, and its commitment slot is
    staged for opening the same way; a checked gate's output slot is staged
    with bit `left AND right` but its key is not sent. Unchecked items, in
    ascending order and until `num_eval` of them are found, are recorded as
    evaluation items by global id. The masks and challenge bits come from a
    seeded PRNG (WeightedRandomString, GenRnd), which is not part of this
    model: they are parameters. */
module CutAndChoose {
  import opened Keys
  import opened Layout
  import opened Masks

  function Min(x: nat, y: nat): nat {
    if x <= y then x else y
  }

  /** The reply of the authenticator loop (lines 309-331). */
  datatype AuthSplit = AuthSplit(reply: seq<Key>, decommits: seq<Share>, evalIds: seq<nat>)

  /** The reply of the gate loop (lines 334-379). */
  datatype GateSplit = GateSplit(
    leftReply: seq<Key>, rightReply: seq<Key>,
    leftDec: seq<Share>, rightDec: seq<Share>, outDec: seq<Share>,
    evalIds: seq<nat>)

  /** What one execution sends and records: the reply keys laid out
      `[auth | left | right]`, the decommitments laid out
      `[auth | left | right | out]`, and its evaluation gate and authenticator
      ids. */
  datatype CncReply = CncReply(reply: seq<Key>, decommits: seq<Share>,
                               gateIds: seq<nat>, authIds: seq<nat>)

  /** The index bookkeeping of both loops: scanning the mask upward, the
      k-th set bit is the k-th checked item, and clear bits are recorded
      until `numEval` of them are. */
  method ScanMask(check: seq<bool>, numEval: nat) returns (checked: seq<nat>, recorded: seq<nat>)
    ensures checked == Positions(check, true)
    ensures |recorded| == Min(numEval, |Positions(check, false)|)
    ensures recorded == Positions(check, false)[..|recorded|]
  {
    checked, recorded := [], [];
    ghost var clear: seq<nat> := [];
    var i := 0;
    while i < |check|
      invariant 0 <= i <= |check|
      invariant checked == Positions(check[..i], true) && clear == Positions(check[..i], false)
      invariant |recorded| == Min(numEval, |clear|) && recorded == clear[..|recorded|]
    {
      PositionsSnoc(check, i, true);
      PositionsSnoc(check, i, false);
      if check[i] {
        checked := checked + [i];
      } else {
        if |recorded| < numEval {
          recorded := recorded + [i];
        }
        clear := clear + [i];
      }
      i := i + 1;
    }
    assert check[..i] == check;
  }

  /** The reply keys of the checked items at `pos`: the k-th is the 0-key,
      shifted by the global Δ when its challenge bit is set. */
  function ReplyKeys(block: seq<Share>, start: nat, pos: seq<nat>, bits: seq<bool>, globalDelta: Key): (r: seq<Key>)
    requires |bits| == |pos| && forall k :: 0 <= k < |pos| ==> start + pos[k] < |block|
    ensures |r| == |pos|
    ensures forall k {:trigger r[k]} :: 0 <= k < |pos| ==> r[k] == Adj(block[start + pos[k]].Value(), bits[k], globalDelta)
  {
    seq(|pos|, k requires 0 <= k < |pos| => Adj(block[start + pos[k]].Value(), bits[k], globalDelta))
  }

  /** The staged decommitments of the checked items at `pos`: the k-th slot,
      XORed with the Δ slot `d` when its challenge bit is set. */
  function StagedSlots(block: seq<Share>, start: nat, pos: seq<nat>, bits: seq<bool>, d: Share): (r: seq<Share>)
    requires |bits| == |pos| && forall k :: 0 <= k < |pos| ==> start + pos[k] < |block|
    ensures |r| == |pos|
    ensures forall k {:trigger r[k]} :: 0 <= k < |pos| ==> r[k].Value() == Adj(block[start + pos[k]].Value(), bits[k], d.Value())
    ensures forall k {:trigger r[k]} :: 0 <= k < |pos| ==> !bits[k] ==> r[k] == block[start + pos[k]]
  {
    seq(|pos|, k requires 0 <= k < |pos| => AdjShare(block[start + pos[k]], bits[k], d))
  }

  /** The global ids of the items at `pos`. */
  function RecordedIds(execId: nat, q: nat, a: nat, start: nat, pos: seq<nat>): (r: seq<nat>)
    ensures |r| == |pos|
    ensures forall k {:trigger r[k]} :: 0 <= k < |pos| ==> r[k] == ItemId(execId, q, a, start, pos[k])
  {
    seq(|pos|, k requires 0 <= k < |pos| => ItemId(execId, q, a, start, pos[k]))
  }

  /** Each of the first `|keys|` staged slots opens to the matching key. */
  predicate Opens(dec: seq<Share>, keys: seq<Key>) {
    |keys| <= |dec| && forall k {:trigger keys[k]} :: 0 <= k < |keys| ==> dec[k].Value() == keys[k]
  }

  /** The authenticator loop. */
  method SplitAuths(block: seq<Share>, lay: SlotLayout, q: nat, a: nat, execId: nat,
                    check: seq<bool>, authIn: seq<bool>, numEval: nat, globalDelta: Key)
    returns (r: AuthSplit)
    requires |check| == a && |authIn| == CountSet(check)
    requires lay.authStart + a <= |block| && lay.deltaPos < |block|
    ensures |r.reply| == |r.decommits| == CountSet(check)
    // the k-th checked authenticator is the k-th set position of the mask
    ensures forall k {:trigger r.reply[k]} :: 0 <= k < |r.reply| ==>
              r.reply[k] == Adj(block[lay.authStart + Positions(check, true)[k]].Value(), authIn[k], globalDelta)
    ensures forall k {:trigger r.decommits[k]} :: 0 <= k < |r.decommits| ==>
              r.decommits[k].Value()
              == Adj(block[lay.authStart + Positions(check, true)[k]].Value(), authIn[k], block[lay.deltaPos].Value())
    // the first `numEval` unchecked authenticators are recorded, in order
    ensures block[lay.deltaPos].Value() == globalDelta ==> Opens(r.decommits, r.reply)
    ensures |r.evalIds| == Min(numEval, |Positions(check, false)|)
    ensures forall k {:trigger r.evalIds[k]} :: 0 <= k < |r.evalIds| ==>
              r.evalIds[k] == ItemId(execId, q, a, lay.authStart, Positions(check, false)[k])
  {
    var checked, recorded := ScanMask(check, numEval);
    r := AuthSplit(ReplyKeys(block, lay.authStart, checked, authIn, globalDelta),
                   StagedSlots(block, lay.authStart, checked, authIn, block[lay.deltaPos]),
                   RecordedIds(execId, q, a, lay.authStart, recorded));
  }

  /** The gate loop. */
  method SplitGates(block: seq<Share>, lay: SlotLayout, q: nat, a: nat, execId: nat,
                    check: seq<bool>, leftIn: seq<bool>, rightIn: seq<bool>,
                    numEval: nat, globalDelta: Key)
    returns (r: GateSplit)
    requires |check| == q && |leftIn| == |rightIn| == CountSet(check)
    requires lay.leftKeysStart + q <= |block| && lay.rightKeysStart + q <= |block|
    requires lay.outKeysStart + q <= |block| && lay.deltaPos < |block|
    ensures |r.leftReply| == |r.rightReply| == CountSet(check)
    ensures |r.leftDec| == |r.rightDec| == |r.outDec| == CountSet(check)
    ensures forall k {:trigger r.leftReply[k]} :: 0 <= k < |r.leftReply| ==>
              r.leftReply[k] == Adj(block[lay.leftKeysStart + Positions(check, true)[k]].Value(), leftIn[k], globalDelta)
    ensures forall k {:trigger r.rightReply[k]} :: 0 <= k < |r.rightReply| ==>
              r.rightReply[k] == Adj(block[lay.rightKeysStart + Positions(check, true)[k]].Value(), rightIn[k], globalDelta)
    ensures forall k {:trigger r.leftDec[k]} :: 0 <= k < |r.leftDec| ==>
              r.leftDec[k].Value()
              == Adj(block[lay.leftKeysStart + Positions(check, true)[k]].Value(), leftIn[k], block[lay.deltaPos].Value())
    ensures forall k {:trigger r.rightDec[k]} :: 0 <= k < |r.rightDec| ==>
              r.rightDec[k].Value()
              == Adj(block[lay.rightKeysStart + Positions(check, true)[k]].Value(), rightIn[k], block[lay.deltaPos].Value())
    // the output is opened on the AND of the two input bits
    ensures forall k {:trigger r.outDec[k]} :: 0 <= k < |r.outDec| ==>
              r.outDec[k].Value()
              == Adj(block[lay.outKeysStart + Positions(check, true)[k]].Value(), leftIn[k] && rightIn[k], block[lay.deltaPos].Value())
    ensures block[lay.deltaPos].Value() == globalDelta ==>
              Opens(r.leftDec, r.leftReply) && Opens(r.rightDec, r.rightReply)
    ensures |r.evalIds| == Min(numEval, |Positions(check, false)|)
    ensures forall k {:trigger r.evalIds[k]} :: 0 <= k < |r.evalIds| ==>
              r.evalIds[k] == ItemId(execId, q, a, lay.outKeysStart, Positions(check, false)[k])
  {
    var checked, recorded := ScanMask(check, numEval);
    var outIn := seq(|leftIn|, k requires 0 <= k < |leftIn| => leftIn[k] && rightIn[k]);
    var d := block[lay.deltaPos];
    r := GateSplit(ReplyKeys(block, lay.leftKeysStart, checked, leftIn, globalDelta),
                   ReplyKeys(block, lay.rightKeysStart, checked, rightIn, globalDelta),
                   StagedSlots(block, lay.leftKeysStart, checked, leftIn, d),
                   StagedSlots(block, lay.rightKeysStart, checked, rightIn, d),
                   StagedSlots(block, lay.outKeysStart, checked, outIn, d),
                   RecordedIds(execId, q, a, lay.outKeysStart, recorded));
  }

  /** Block requirements of one execution's cut-and-choose. */
  predicate CncBlockOk(block: seq<Share>, lay: SlotLayout, q: nat, a: nat) {
    && lay.leftKeysStart + q <= |block|
    && lay.rightKeysStart + q <= |block|
    && lay.outKeysStart + q <= |block|
    && lay.authStart + a <= |block|
    && lay.deltaPos < |block|
  }

  lemma OpensConcat(d1: seq<Share>, k1: seq<Key>, d2: seq<Share>, k2: seq<Key>)
    requires |d1| == |k1| && Opens(d1, k1) && Opens(d2, k2)
    ensures Opens(d1 + d2, k1 + k2)
  {
    forall k | 0 <= k < |k1 + k2|
      ensures (d1 + d2)[k].Value() == (k1 + k2)[k]
    {
      if k >= |k1| {
        assert (d1 + d2)[k] == d2[k - |k1|];
      }
    }
  }

  /** Appending more staged slots keeps the earlier openings. */
  lemma OpensPrefix(front: seq<Share>, keys: seq<Key>, more: seq<Share>)
    requires Opens(front, keys)
    ensures Opens(front + more, keys)
  {
    forall k | 0 <= k < |keys|
      ensures (front + more)[k].Value() == keys[k]
    {
      assert (front + more)[k] == front[k];
    }
  }

  /** Where the output decommitments sit in the staged buffer. */
  lemma OutTail(au: seq<Share>, left: seq<Share>, right: seq<Share>, out: seq<Share>)
    requires |left| == |right| == |out|
    ensures forall k :: 0 <= k < |out| ==> (au + left + right + out)[|au| + |left| + |right| + k] == out[k]
  {
  }

  /** The layout of the reply and of the staged decommitments: authenticator
      keys, then left keys, then right keys; the decommitments end with the
      output slots. Every part that opens its keys keeps doing so in place. */
  function Assemble(au: AuthSplit, ga: GateSplit): (r: CncReply)
    requires |au.reply| == |au.decommits|
    requires |ga.leftReply| == |ga.leftDec| && |ga.rightReply| == |ga.rightDec|
    requires |ga.leftDec| == |ga.rightDec| == |ga.outDec|
    ensures Opens(au.decommits, au.reply) && Opens(ga.leftDec, ga.leftReply) && Opens(ga.rightDec, ga.rightReply)
            ==> Opens(r.decommits, r.reply)
    ensures |r.reply| == |au.reply| + |ga.leftReply| + |ga.rightReply|
    ensures |r.decommits| == |au.decommits| + |ga.leftDec| + |ga.rightDec| + |ga.outDec|
    ensures forall k :: 0 <= k < |ga.outDec| ==>
              r.decommits[|au.decommits| + |ga.leftDec| + |ga.rightDec| + k] == ga.outDec[k]
    ensures forall k :: 0 <= k < |au.reply| ==> r.reply[k] == au.reply[k]
    ensures forall k :: 0 <= k < |ga.leftReply| ==> r.reply[|au.reply| + k] == ga.leftReply[k]
    ensures forall k :: 0 <= k < |ga.rightReply| ==> r.reply[|au.reply| + |ga.leftReply| + k] == ga.rightReply[k]
    ensures r.gateIds == ga.evalIds && r.authIds == au.evalIds
  {
    OpensLayout(au, ga);
    OutTail(au.decommits, ga.leftDec, ga.rightDec, ga.outDec);
    ReplyRuns(au.reply, ga.leftReply, ga.rightReply);
    CncReply(au.reply + ga.leftReply + ga.rightReply, au.decommits + ga.leftDec + ga.rightDec + ga.outDec,
             ga.evalIds, au.evalIds)
  }

  lemma OpensLayout(au: AuthSplit, ga: GateSplit)
    requires |au.reply| == |au.decommits|
    requires |ga.leftReply| == |ga.leftDec| && |ga.rightReply| == |ga.rightDec|
    ensures Opens(au.decommits, au.reply) && Opens(ga.leftDec, ga.leftReply) && Opens(ga.rightDec, ga.rightReply)
            ==> Opens(au.decommits + ga.leftDec + ga.rightDec + ga.outDec, au.reply + ga.leftReply + ga.rightReply)
  {
    if Opens(au.decommits, au.reply) && Opens(ga.leftDec, ga.leftReply) && Opens(ga.rightDec, ga.rightReply) {
      OpensConcat(au.decommits, au.reply, ga.leftDec, ga.leftReply);
      OpensConcat(au.decommits + ga.leftDec, au.reply + ga.leftReply, ga.rightDec, ga.rightReply);
      OpensPrefix(au.decommits + ga.leftDec + ga.rightDec, au.reply + ga.leftReply + ga.rightReply, ga.outDec);
    }
  }

  /** Where the three runs of the reply sit. */
  lemma ReplyRuns(au: seq<Key>, left: seq<Key>, right: seq<Key>)
    ensures forall k :: 0 <= k < |au| ==> (au + left + right)[k] == au[k]
    ensures forall k :: 0 <= k < |left| ==> (au + left + right)[|au| + k] == left[k]
    ensures forall k :: 0 <= k < |right| ==> (au + left + right)[|au| + |left| + k] == right[k]
  {
  }

  /** A run of checked items' keys, placed at `off` of the reply, keeps its
      values there. */
  lemma ReplyAt(reply: seq<Key>, off: nat, part: seq<Key>, block: seq<Share>, start: nat,
                check: seq<bool>, bits: seq<bool>, delta: Key)
    requires start + |check| <= |block|
    requires |bits| == |part| == CountSet(check) && off + |part| <= |reply|
    requires forall k :: 0 <= k < |part| ==> reply[off + k] == part[k]
    requires forall k {:trigger part[k]} :: 0 <= k < |part| ==>
               part[k] == Adj(block[start + Positions(check, true)[k]].Value(), bits[k], delta)
    ensures forall k :: 0 <= k < |part| ==>
              reply[off + k] == Adj(block[start + Positions(check, true)[k]].Value(), bits[k], delta)
  {
    forall k | 0 <= k < |part|
      ensures reply[off + k] == Adj(block[start + Positions(check, true)[k]].Value(), bits[k], delta)
    {
      assert reply[off + k] == part[k];
    }
  }

  /** The assembled reply carries each split's keys at its run's offset. */
  lemma AssembledReply(au: AuthSplit, ga: GateSplit, block: seq<Share>, lay: SlotLayout,
                       checkGates: seq<bool>, checkAuths: seq<bool>,
                       leftIn: seq<bool>, rightIn: seq<bool>, authIn: seq<bool>, globalDelta: Key)
    requires lay.authStart + |checkAuths| <= |block|
    requires lay.leftKeysStart + |checkGates| <= |block| && lay.rightKeysStart + |checkGates| <= |block|
    requires |authIn| == CountSet(checkAuths) && |leftIn| == |rightIn| == CountSet(checkGates)
    requires |au.reply| == |au.decommits| == CountSet(checkAuths)
    requires |ga.leftReply| == |ga.rightReply| == CountSet(checkGates)
    requires |ga.leftDec| == |ga.rightDec| == |ga.outDec| == CountSet(checkGates)
    requires forall k {:trigger au.reply[k]} :: 0 <= k < |au.reply| ==>
               au.reply[k] == Adj(block[lay.authStart + Positions(checkAuths, true)[k]].Value(), authIn[k], globalDelta)
    requires forall k {:trigger ga.leftReply[k]} :: 0 <= k < |ga.leftReply| ==>
               ga.leftReply[k] == Adj(block[lay.leftKeysStart + Positions(checkGates, true)[k]].Value(), leftIn[k], globalDelta)
    requires forall k {:trigger ga.rightReply[k]} :: 0 <= k < |ga.rightReply| ==>
               ga.rightReply[k] == Adj(block[lay.rightKeysStart + Positions(checkGates, true)[k]].Value(), rightIn[k], globalDelta)
    ensures var r := Assemble(au, ga);
            && (forall k :: 0 <= k < CountSet(checkAuths) ==>
                  r.reply[k] == Adj(block[lay.authStart + Positions(checkAuths, true)[k]].Value(), authIn[k], globalDelta))
            && (forall k :: 0 <= k < CountSet(checkGates) ==>
                  r.reply[CountSet(checkAuths) + k]
                  == Adj(block[lay.leftKeysStart + Positions(checkGates, true)[k]].Value(), leftIn[k], globalDelta))
            && (forall k :: 0 <= k < CountSet(checkGates) ==>
                  r.reply[CountSet(checkAuths) + CountSet(checkGates) + k]
                  == Adj(block[lay.rightKeysStart + Positions(checkGates, true)[k]].Value(), rightIn[k], globalDelta))
  {
    // the key algebra plays no part in where the runs sit
    hide Adj, Xor;
    var r := Assemble(au, ga);
    var na, ng := CountSet(checkAuths), CountSet(checkGates);
    forall k | 0 <= k < ng
      ensures r.reply[na + k] == ga.leftReply[k] && r.reply[na + ng + k] == ga.rightReply[k]
    {
      assert r.reply[|au.reply| + k] == ga.leftReply[k];
      assert r.reply[|au.reply| + |ga.leftReply| + k] == ga.rightReply[k];
    }
    ReplyAt(r.reply, na, ga.leftReply, block, lay.leftKeysStart, checkGates, leftIn, globalDelta);
    ReplyAt(r.reply, na + ng, ga.rightReply, block, lay.rightKeysStart, checkGates, rightIn, globalDelta);
  }

  /** One execution's cut-and-choose: both loops and the buffer layout. */
  method CutAndChooseExec(block: seq<Share>, lay: SlotLayout, q: nat, a: nat, execId: nat,
                          checkGates: seq<bool>, checkAuths: seq<bool>,
                          leftIn: seq<bool>, rightIn: seq<bool>, authIn: seq<bool>,
                          numEvalGates: nat, numEvalAuths: nat, globalDelta: Key)
    returns (r: CncReply)
    requires CncBlockOk(block, lay, q, a)
    requires |checkGates| == q && |checkAuths| == a
    requires |leftIn| == |rightIn| == CountSet(checkGates) && |authIn| == CountSet(checkAuths)
    // num_check_keys_sent and num_checks
    ensures |r.reply| == 2 * CountSet(checkGates) + CountSet(checkAuths)
    ensures |r.decommits| == 3 * CountSet(checkGates) + CountSet(checkAuths)
    // with Δ canonicalised, every sent key is exactly what its staged decommitment opens
    ensures block[lay.deltaPos].Value() == globalDelta ==> Opens(r.decommits, r.reply)
    // the reply: authenticator keys, then left keys, then right keys, each
    // the checked item's committed key adjusted by the global Δ for its bit
    ensures forall k :: 0 <= k < CountSet(checkAuths) ==>
              r.reply[k] == Adj(block[lay.authStart + Positions(checkAuths, true)[k]].Value(), authIn[k], globalDelta)
    ensures forall k :: 0 <= k < CountSet(checkGates) ==>
              r.reply[CountSet(checkAuths) + k]
              == Adj(block[lay.leftKeysStart + Positions(checkGates, true)[k]].Value(), leftIn[k], globalDelta)
    ensures forall k :: 0 <= k < CountSet(checkGates) ==>
              r.reply[CountSet(checkAuths) + CountSet(checkGates) + k]
              == Adj(block[lay.rightKeysStart + Positions(checkGates, true)[k]].Value(), rightIn[k], globalDelta)
    // a checked gate's output opens to its 0-key shifted by Δ iff both inputs are 1
    ensures forall k :: 0 <= k < CountSet(checkGates) ==>
              r.decommits[CountSet(checkAuths) + 2 * CountSet(checkGates) + k].Value()
              == Adj(block[lay.outKeysStart + Positions(checkGates, true)[k]].Value(),
                     leftIn[k] && rightIn[k], block[lay.deltaPos].Value())
    ensures |r.gateIds| == Min(numEvalGates, |Positions(checkGates, false)|)
    ensures forall k :: 0 <= k < |r.gateIds| ==>
              r.gateIds[k] == ItemId(execId, q, a, lay.outKeysStart, Positions(checkGates, false)[k])
    ensures |r.authIds| == Min(numEvalAuths, |Positions(checkAuths, false)|)
    ensures forall k :: 0 <= k < |r.authIds| ==>
              r.authIds[k] == ItemId(execId, q, a, lay.authStart, Positions(checkAuths, false)[k])
  {
    assert lay.authStart + |checkAuths| <= |block| && lay.leftKeysStart + |checkGates| <= |block|;
    assert lay.rightKeysStart + |checkGates| <= |block| && lay.outKeysStart + |checkGates| <= |block|;
    assert lay.deltaPos < |block|;
    // the layout needs only the contracts of the two splits and of Assemble
    hide *;
    var au := SplitAuths(block, lay, q, a, execId, checkAuths, authIn, numEvalAuths, globalDelta);
    var ga := SplitGates(block, lay, q, a, execId, checkGates, leftIn, rightIn, numEvalGates, globalDelta);
    r := Assemble(au, ga);
    AssembledReply(au, ga, block, lay, checkGates, checkAuths, leftIn, rightIn, authIn, globalDelta);
    OutDecommitsAt(r.decommits, |au.decommits| + |ga.leftDec| + |ga.rightDec|, ga.outDec, block, lay, checkGates, leftIn, rightIn);
  }

  /** The output decommitments of the checked gates, found at `off` in the
      assembled buffer. */
  lemma OutDecommitsAt(dec: seq<Share>, off: nat, out: seq<Share>, block: seq<Share>, lay: SlotLayout,
                       check: seq<bool>, leftIn: seq<bool>, rightIn: seq<bool>)
    requires lay.outKeysStart + |check| <= |block| && lay.deltaPos < |block|
    requires |leftIn| == |rightIn| == |out| == CountSet(check) && off + |out| <= |dec|
    requires forall k :: 0 <= k < |out| ==> dec[off + k] == out[k]
    requires forall k {:trigger out[k]} :: 0 <= k < |out| ==>
               out[k].Value()
               == Adj(block[lay.outKeysStart + Positions(check, true)[k]].Value(), leftIn[k] && rightIn[k], block[lay.deltaPos].Value())
    ensures forall k :: 0 <= k < |out| ==>
              dec[off + k].Value()
              == Adj(block[lay.outKeysStart + Positions(check, true)[k]].Value(), leftIn[k] && rightIn[k], block[lay.deltaPos].Value())
  {
    forall k | 0 <= k < |out|
      ensures dec[off + k].Value()
              == Adj(block[lay.outKeysStart + Positions(check, true)[k]].Value(), leftIn[k] && rightIn[k], block[lay.deltaPos].Value())
    {
      assert dec[off + k] == out[k];
    }
  }

  /** The ids one execution records name unchecked items only, in strictly
      increasing order; in particular no id is recorded twice. */
  lemma {:induction false} RecordedIdsSound(check: seq<bool>, execId: nat, q: nat, a: nat, start: nat, ids: seq<nat>)
    requires |ids| <= |Positions(check, false)|
    requires forall k :: 0 <= k < |ids| ==> ids[k] == ItemId(execId, q, a, start, Positions(check, false)[k])
    ensures forall k, l :: 0 <= k < l < |ids| ==> ids[k] < ids[l]
    ensures forall k, l :: 0 <= k < |ids| && 0 <= l < CountSet(check) ==>
              ids[k] != ItemId(execId, q, a, start, Positions(check, true)[l])
  {
    PositionsSpec(check, false);
    PositionsSpec(check, true);
  }
}
