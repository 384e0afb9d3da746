/** The key bookkeeping around garbling one execution's gates and
    authenticators (src/tiny/tiny-constructor.cpp, Preprocess, lines
    220-270).

    The 0-keys of gate `i` are the values committed at its left, right and
    output slots; its id is `exec_id * (Q + A) + out_keys_start + i`, and an
    authenticator's id uses `auth_start` instead. The garbling itself
    (GarblingHandler::GarbleGates and GarbleAuths) is not part of this model:
    its output keys arrive as a parameter, and the garbler solders each onto
    the committed output key before sending it. */
module Garbling {
  import opened Keys
  import opened Layout

  /** Everything the garbling primitive is fed: per-gate 0-keys and ids,
      per-authenticator 0-keys and ids. */
  datatype GarbleInputs = GarbleInputs(
    left: seq<Key>, right: seq<Key>, out: seq<Key>, gateIds: seq<nat>,
    authKeys: seq<Key>, authIds: seq<nat>)

  predicate BlockHolds(block: seq<Share>, lay: SlotLayout, q: nat, a: nat) {
    && lay.leftKeysStart + q <= |block|
    && lay.rightKeysStart + q <= |block|
    && lay.outKeysStart + q <= |block|
    && lay.authStart + a <= |block|
  }

  /** The values committed at `n` consecutive slots from `start`. */
  function CommittedKeys(block: seq<Share>, start: nat, n: nat): (r: seq<Key>)
    requires start + n <= |block|
    ensures |r| == n
    ensures forall i :: 0 <= i < n ==> r[i] == block[start + i].Value()
  {
    seq<Key>(n, i requires 0 <= i < n => block[start + i].Value())
  }

  /** The global ids of items `0 .. n-1` whose slots start at `start`: each
      names its own execution and item, so the lookup finds them again. */
  function ItemIds(execId: nat, q: nat, a: nat, start: nat, n: nat): (r: seq<nat>)
    requires n <= q + a
    ensures |r| == n
    ensures forall i :: 0 <= i < n ==> start <= r[i] && Locate(r[i], q, a, start) == (execId, i)
  {
    var r := seq<nat>(n, i requires 0 <= i < n => ItemId(execId, q, a, start, i));
    assert forall i :: 0 <= i < n ==> start <= r[i] && Locate(r[i], q, a, start) == (execId, i) by {
      forall i | 0 <= i < n
        ensures start <= r[i] && Locate(r[i], q, a, start) == (execId, i)
      {
        LocateItemId(execId, q, a, start, i);
      }
    }
    r
  }

  /** Lines 239-244 and 256-260: the 0-keys fed to the garbling are the
      committed values and the ids number the items of this execution. */
  function GarblingKeys(block: seq<Share>, lay: SlotLayout, q: nat, a: nat, execId: nat): (r: GarbleInputs)
    requires BlockHolds(block, lay, q, a)
    ensures |r.left| == |r.right| == |r.out| == |r.gateIds| == q
    ensures |r.authKeys| == |r.authIds| == a
    ensures forall i :: 0 <= i < q ==>
              && r.left[i] == block[lay.leftKeysStart + i].Value()
              && r.right[i] == block[lay.rightKeysStart + i].Value()
              && r.out[i] == block[lay.outKeysStart + i].Value()
    ensures forall i :: 0 <= i < a ==> r.authKeys[i] == block[lay.authStart + i].Value()
    ensures forall i :: 0 <= i < q ==>
              lay.outKeysStart <= r.gateIds[i] && Locate(r.gateIds[i], q, a, lay.outKeysStart) == (execId, i)
    ensures forall i :: 0 <= i < a ==>
              lay.authStart <= r.authIds[i] && Locate(r.authIds[i], q, a, lay.authStart) == (execId, i)
  {
    GarbleInputs(
      CommittedKeys(block, lay.leftKeysStart, q),
      CommittedKeys(block, lay.rightKeysStart, q),
      CommittedKeys(block, lay.outKeysStart, q),
      ItemIds(execId, q, a, lay.outKeysStart, q),
      CommittedKeys(block, lay.authStart, a),
      ItemIds(execId, q, a, lay.authStart, a))
  }

  /** Lines 250-253: the output key the garbling produced for gate `i` is
      sent XORed with the committed output 0-key. The evaluator, holding the
      sent value, recovers the committed key from the garbled one and back. */
  function SolderOutputs(garbledOut: seq<Key>, outKeys: seq<Key>): (r: seq<Key>)
    requires |garbledOut| == |outKeys|
    ensures |r| == |outKeys|
    ensures forall i :: 0 <= i < |r| ==> Xor(r[i], garbledOut[i]) == outKeys[i]
    ensures forall i :: 0 <= i < |r| ==> Xor(r[i], outKeys[i]) == garbledOut[i]
  {
    var r := seq<Key>(|outKeys|, i requires 0 <= i < |outKeys| => Xor(garbledOut[i], outKeys[i]));
    assert forall i :: 0 <= i < |r| ==> Xor(r[i], garbledOut[i]) == outKeys[i] && Xor(r[i], outKeys[i]) == garbledOut[i] by {
      forall i | 0 <= i < |r|
        ensures Xor(r[i], garbledOut[i]) == outKeys[i] && Xor(r[i], outKeys[i]) == garbledOut[i]
      {
        XorCancel(garbledOut[i], outKeys[i]);
        XorComm(garbledOut[i], outKeys[i]);
        XorCancel(outKeys[i], garbledOut[i]);
      }
    }
    r
  }
}
