/** The verification-leakage bits (src/tiny/tiny-constructor.cpp, Preprocess,
    lines 191-214): for every output/input blinding slot and every extra
    random blinding slot, the garbler publishes the XOR of the two shares'
    least significant bits and stages the slot itself for the batched LSB
    proof. The proof (BatchDecommitLSB) is not part of this model. */
module VerLeak {
  import opened Keys
  import opened Layout

  /** The bits sent and the decommitment shares staged, for `numVerleaks`
      slots from `outLsbBlindStart` followed by `extra` (AES_BITS) slots
      from `lsbBlindStart`. */
  datatype Leak = Leak(bits: seq<bool>, shares: seq<Share>)

  function VerleakBits(block: seq<Share>, lay: SlotLayout, numVerleaks: nat, extra: nat): (r: Leak)
    requires lay.outLsbBlindStart + numVerleaks <= |block|
    requires lay.lsbBlindStart + extra <= |block|
    ensures |r.bits| == |r.shares| == numVerleaks + extra
    ensures forall i :: 0 <= i < numVerleaks ==> r.shares[i] == block[lay.outLsbBlindStart + i]
    ensures forall p :: numVerleaks <= p < |r.shares| ==>
              r.shares[p] == block[lay.lsbBlindStart + (p - numVerleaks)]
    // each published bit is the LSB of the value the staged slot commits to
    ensures forall i :: 0 <= i < |r.bits| ==> r.bits[i] == Lsb(r.shares[i].Value())
  {
    var slots := block[lay.outLsbBlindStart..lay.outLsbBlindStart + numVerleaks]
                + block[lay.lsbBlindStart..lay.lsbBlindStart + extra];
    Leak(seq(|slots|, i requires 0 <= i < |slots| => Lsb(slots[i].s0) != Lsb(slots[i].s1)), slots)
  }
}
