/** The online key release of one circuit (src/tiny/tiny-constructor.cpp,
    Online, lines 929-1004).

    The constructor sends the keys of its own inputs, staged decommitments
    that turn the evaluator's OT keys into the keys of the evaluator's
    inputs, and staged decommitments that pair every output head with an
    output blinding slot. The mask `e` arrives on the channel and is an
    input here; the channel itself is not part of this model. */
module Online {
  import opened Keys
  import opened Layout
  import opened Rows
  import opened Lookup
  import opened Soldering
  import opened Circuits
  import opened Capacity
  import opened Topo
  import opened DeltaSync

  /** Per-execution pool sizes the slot lookups divide by:
      thread_params->num_pre_inputs and num_pre_outputs. */
  datatype OtShape = OtShape(numPreInputs: nat, numPreOutputs: nat)

  /** Every block holds its Δ slot, its chosen-OT slots and its output
      blinding slots. */
  predicate SlotsHeld(p: Pool, ot: OtShape) {
    && ot.numPreInputs > 0 && ot.numPreOutputs > 0
    && forall e :: 0 <= e < |p.blocks| ==>
         && p.lay.deltaPos < |p.blocks[e]|
         && p.lay.otChosenStart + ot.numPreInputs <= |p.blocks[e]|
         && p.lay.outLsbBlindStart + ot.numPreOutputs <= |p.blocks[e]|
  }

  /** What the online phase relies on beyond the offline walk: the slots
      above, the circuit's inputs and outputs inside them, and the outputs
      being the last AND gates. */
  predicate OnlineReady(p: Pool, sh: Shape, c: Circuit, off: Demand, ot: OtShape) {
    && Reserved(p, sh, c, off)
    && SlotsHeld(p, ot)
    && off.inputs + c.numEvalInp <= |p.blocks| * ot.numPreInputs
    && off.outputs + c.numOut <= |p.blocks| * ot.numPreOutputs
    && c.numOut <= c.numAndGates
  }

  /** Lines 962-964 and 990-992: the `x`-th slot of a kind that every block
      holds `n` of, from `start`: block `x / n`, slot `start + x % n`. */
  function SlotOf(n: nat, start: nat, x: nat): (nat, nat)
    requires n > 0
  {
    (x / n, start + x % n)
  }

  /** The lookup walks the blocks `n` slots at a time: it finds an existing
      block and a slot of the kind, it is the quotient and remainder, and
      distinct positions get distinct slots. */
  lemma SlotOfSpec(n: nat, start: nat, x: nat, y: nat, blocks: nat)
    requires n > 0 && x < blocks * n && y < blocks * n
    ensures var (b, s) := SlotOf(n, start, x);
            b < blocks && start <= s < start + n && b * n + (s - start) == x
    ensures x != y ==> SlotOf(n, start, x) != SlotOf(n, start, y)
  {
    var (b, s) := SlotOf(n, start, x);
    if b >= blocks {
      MulMono(n, blocks, b);
      assert false;
    }
    assert y == (y / n) * n + y % n;
  }

  /** XORing a slot's two shares into a key one after the other adds the
      slot's committed value. */
  lemma AddShares(k: Key, d: Share)
    ensures Xor(Xor(k, d.s0), d.s1) == Adj(k, true, d.Value())
  {
    XorAssoc(k, d.s0, d.s1);
  }

  /** The OT key of `choice` XORed with the opened `(ot ^ head) ^ e·Δ` is
      the head's key of `choice != e`. */
  lemma Unmask(ot: Key, head: Key, choice: bool, e: bool, delta: Key)
    ensures Xor(Adj(ot, choice, delta), Adj(Xor(ot, head), e, delta)) == Adj(head, choice != e, delta)
  {
    var x1, x2 := if choice then delta else Zero, if e then delta else Zero;
    XorSwap(ot, x1, Xor(ot, head), x2);
    XorAssoc(ot, ot, head);
    XorSelf(ot);
    XorZero(head);
    XorZero(x1);
    assert Xor(Xor(ot, Xor(ot, head)), Xor(x1, x2)) == Xor(head, Xor(x1, x2));
    assert Xor(x1, x2) == if choice != e then delta else Zero by {
      XorZero(delta);
      XorSelf(delta);
      XorZero(Zero);
    }
  }

  /** The head's key of `b` XORed with `blind ^ head` is the blind's key of
      `b`. */
  lemma Unblind(head: Key, blind: Key, b: bool, delta: Key)
    ensures Xor(Adj(head, b, delta), Xor(blind, head)) == Adj(blind, b, delta)
  {
    var x := if b then delta else Zero;
    XorComm(blind, head);
    XorSwap(head, x, head, blind);
    XorSelf(head);
    XorZero(Xor(x, blind));
    XorComm(x, blind);
  }

  /** The block holding the authenticator at pool position `pos`. */
  function AuthBlock(p: Pool, pos: nat): nat
    requires PoolOk(p) && pos < |p.authIds|
  {
    Locate(p.authIds[pos], p.q, p.a, p.lay.authStart).0
  }

  /** Lines 963-964: the block of the `x`-th chosen-OT slot. */
  function ChosenBlock(p: Pool, ot: OtShape, x: nat): (r: nat)
    requires SlotsHeld(p, ot) && x < |p.blocks| * ot.numPreInputs
    ensures r < |p.blocks|
  {
    SlotOfSpec(ot.numPreInputs, p.lay.otChosenStart, x, x, |p.blocks|);
    SlotOf(ot.numPreInputs, p.lay.otChosenStart, x).0
  }

  /** Lines 963-968: the `x`-th chosen-OT slot. */
  function ChosenSlot(p: Pool, ot: OtShape, x: nat): Share
    requires SlotsHeld(p, ot) && x < |p.blocks| * ot.numPreInputs
  {
    SlotOfSpec(ot.numPreInputs, p.lay.otChosenStart, x, x, |p.blocks|);
    p.blocks[ChosenBlock(p, ot, x)][SlotOf(ot.numPreInputs, p.lay.otChosenStart, x).1]
  }

  /** Lines 991-996: the `x`-th output blinding slot. */
  function BlindSlot(p: Pool, ot: OtShape, x: nat): Share
    requires SlotsHeld(p, ot) && x < |p.blocks| * ot.numPreOutputs
  {
    SlotOfSpec(ot.numPreOutputs, p.lay.outLsbBlindStart, x, x, |p.blocks|);
    var (blk, id) := SlotOf(ot.numPreOutputs, p.lay.outLsbBlindStart, x);
    p.blocks[blk][id]
  }

  /** Lines 950-956: constant input `i`'s key is its authenticator head's
      committed key, with the head block's Δ shares XORed in when the input
      bit is set. */
  function ConstInputKey(p: Pool, sh: Shape, c: Circuit, off: Demand, ot: OtShape, bits: seq<bool>, i: nat): Key
    requires OnlineReady(p, sh, c, off, ot) && |bits| == c.numConstInp && i < c.numConstInp
  {
    var head := InputAuthHead(sh, off, i);
    var d := p.blocks[AuthBlock(p, head)][p.lay.deltaPos];
    var k := AuthSlot(p, head).Value();
    if bits[i] then Xor(Xor(k, d.s0), d.s1) else k
  }

  /** Lines 949-957. */
  function ConstInputKeys(p: Pool, sh: Shape, c: Circuit, off: Demand, ot: OtShape, bits: seq<bool>): (r: seq<Key>)
    requires OnlineReady(p, sh, c, off, ot) && |bits| == c.numConstInp
    ensures |r| == c.numConstInp
  {
    seq(c.numConstInp, i requires 0 <= i < c.numConstInp => ConstInputKey(p, sh, c, off, ot, bits, i))
  }

  /** Once every block holds the same Δ, constant input `i`'s key is the
      key of its bit on input wire `i` of the walk. */
  lemma ConstKeysOnWires(p: Pool, sh: Shape, c: Circuit, off: Demand, ot: OtShape, bits: seq<bool>, delta: Key)
    requires OnlineReady(p, sh, c, off, ot) && |bits| == c.numConstInp
    requires DeltaAgreed(p.blocks, p.lay.deltaPos, delta)
    ensures forall i :: 0 <= i < c.numConstInp ==>
              ConstInputKeys(p, sh, c, off, ot, bits)[i] == Adj(InputState(p, sh, c, off).values[i], bits[i], delta)
  {
    forall i | 0 <= i < c.numConstInp
      ensures ConstInputKeys(p, sh, c, off, ot, bits)[i] == Adj(InputState(p, sh, c, off).values[i], bits[i], delta)
    {
      ConstKeyIsAdj(p, sh, c, off, ot, bits, delta, i);
    }
  }

  /** The released constant keys move through the input-gate solderings:
      the first half of the constant inputs, through the left solderings, to
      the key of the same bit on the input-gate head's left key, and the
      second half through the right solderings to the right key. */
  lemma ConstKeysThroughSolderings(p: Pool, sh: Shape, c: Circuit, off: Demand, ot: OtShape, bits: seq<bool>,
                                   delta: Key, w: Wire)
    requires OnlineReady(p, sh, c, off, ot) && |bits| == c.numConstInp && w != Out
    requires DeltaAgreed(p.blocks, p.lay.deltaPos, delta)
    ensures forall i :: 0 <= i < c.numConstInp / 2 ==>
              && InputWireOf(c, w, i) < c.numConstInp
              && InputGateHead(sh, off, i) < |p.gateIds|
              && Xor(ConstInputKeys(p, sh, c, off, ot, bits)[InputWireOf(c, w, i)],
                     InputGateSolderings(p, sh, c, off, InputState(p, sh, c, off), w)[i].key)
                 == Adj(GateSlot(p, InputGateHead(sh, off, i), w).Value(), bits[InputWireOf(c, w, i)], delta)
  {
    var keys, init := ConstInputKeys(p, sh, c, off, ot, bits), InputState(p, sh, c, off);
    var sol := InputGateSolderings(p, sh, c, off, init, w);
    InputGatesSoldered(p, sh, c, off, init, w);
    forall i | 0 <= i < c.numConstInp / 2
      ensures InputWireOf(c, w, i) < c.numConstInp
      ensures Xor(keys[InputWireOf(c, w, i)], sol[i].key)
              == Adj(GateSlot(p, InputGateHead(sh, off, i), w).Value(), bits[InputWireOf(c, w, i)], delta)
    {
      var wire := InputWireOf(c, w, i);
      ConstKeyIsAdj(p, sh, c, off, ot, bits, delta, wire);
      SolderTranslates(sol[i], init.tmp[wire], GateSlot(p, InputGateHead(sh, off, i), w), bits[wire], delta);
    }
  }

  lemma ConstKeyIsAdj(p: Pool, sh: Shape, c: Circuit, off: Demand, ot: OtShape, bits: seq<bool>, delta: Key, i: nat)
    requires OnlineReady(p, sh, c, off, ot) && |bits| == c.numConstInp && i < c.numConstInp
    requires DeltaAgreed(p.blocks, p.lay.deltaPos, delta)
    ensures ConstInputKey(p, sh, c, off, ot, bits, i) == Adj(AuthSlot(p, InputAuthHead(sh, off, i)).Value(), bits[i], delta)
  {
    var head := InputAuthHead(sh, off, i);
    var d := p.blocks[AuthBlock(p, head)][p.lay.deltaPos];
    assert d == p.blocks[0][p.lay.deltaPos];
    AddShares(AuthSlot(p, head).Value(), d);
    XorZero(AuthSlot(p, head).Value());
  }

  /** Lines 962-982: evaluator input `i` pairs chosen-OT slot
      `inp_offset + i` with the authenticator head of input
      `num_const_inp + i`, and adds the OT block's Δ slot when mask bit `i`
      is set. */
  function EvalInputDecommit(p: Pool, sh: Shape, c: Circuit, off: Demand, ot: OtShape, e: seq<bool>, i: nat): (r: Share)
    requires OnlineReady(p, sh, c, off, ot) && |e| == c.numEvalInp && i < c.numEvalInp
    ensures r.Value() == Adj(Xor(ChosenSlot(p, ot, off.inputs + i).Value(),
                                 AuthSlot(p, InputAuthHead(sh, off, c.numConstInp + i)).Value()),
                             e[i], p.blocks[ChosenBlock(p, ot, off.inputs + i)][p.lay.deltaPos].Value())
  {
    var paired := ShareXor(ChosenSlot(p, ot, off.inputs + i), AuthSlot(p, InputAuthHead(sh, off, c.numConstInp + i)));
    XorZero(paired.Value());
    if e[i] then ShareXor(paired, p.blocks[ChosenBlock(p, ot, off.inputs + i)][p.lay.deltaPos]) else paired
  }

  /** Lines 961-983. */
  function EvalInputDecommits(p: Pool, sh: Shape, c: Circuit, off: Demand, ot: OtShape, e: seq<bool>): (r: seq<Share>)
    requires OnlineReady(p, sh, c, off, ot) && |e| == c.numEvalInp
    ensures |r| == c.numEvalInp
  {
    seq(c.numEvalInp, i requires 0 <= i < c.numEvalInp => EvalInputDecommit(p, sh, c, off, ot, e, i))
  }

  /** What the evaluator gets: holding the OT key for choice bit `choice`
      on chosen-OT slot `inp_offset + i`, and XORing in the opened value, it
      holds the key of bit `choice != e[i]` on input wire `num_const_inp + i`
      of the walk. With `e[i]` the choice bit XOR the input bit, that is the
      key of the input bit. */
  lemma EvalInputUnmasks(p: Pool, sh: Shape, c: Circuit, off: Demand, ot: OtShape, e: seq<bool>,
                         delta: Key, i: nat, choice: bool)
    requires OnlineReady(p, sh, c, off, ot) && |e| == c.numEvalInp && i < c.numEvalInp
    requires DeltaAgreed(p.blocks, p.lay.deltaPos, delta)
    ensures Xor(Adj(ChosenSlot(p, ot, off.inputs + i).Value(), choice, delta), EvalInputDecommits(p, sh, c, off, ot, e)[i].Value())
            == Adj(InputState(p, sh, c, off).values[c.numConstInp + i], choice != e[i], delta)
  {
    var blk := ChosenBlock(p, ot, off.inputs + i);
    assert p.blocks[blk][p.lay.deltaPos] == p.blocks[0][p.lay.deltaPos];
    assert EvalInputDecommits(p, sh, c, off, ot, e)[i] == EvalInputDecommit(p, sh, c, off, ot, e, i);
    Unmask(ChosenSlot(p, ot, off.inputs + i).Value(), InputState(p, sh, c, off).values[c.numConstInp + i], choice, e[i], delta);
  }

  /** Lines 990-1003: output `i` pairs output blinding slot
      `out_offset + i` with the head of the bucket of AND gate
      `num_and - num_out + i`. */
  function OutputDecommit(p: Pool, sh: Shape, c: Circuit, off: Demand, ot: OtShape, i: nat): (r: Share)
    requires OnlineReady(p, sh, c, off, ot) && i < c.numOut
    ensures AndHead(sh, off, c.numAndGates - c.numOut + i) < |p.gateIds|
    ensures r.Value() == Xor(BlindSlot(p, ot, off.outputs + i).Value(),
                             GateSlot(p, AndHead(sh, off, c.numAndGates - c.numOut + i), Out).Value())
  {
    ShareXor(BlindSlot(p, ot, off.outputs + i), GateSlot(p, AndHead(sh, off, c.numAndGates - c.numOut + i), Out))
  }

  /** Lines 989-1004. */
  function OutputDecommits(p: Pool, sh: Shape, c: Circuit, off: Demand, ot: OtShape): (r: seq<Share>)
    requires OnlineReady(p, sh, c, off, ot)
    ensures |r| == c.numOut
  {
    seq(c.numOut, i requires 0 <= i < c.numOut => OutputDecommit(p, sh, c, off, ot, i))
  }

  /** The evaluator holding the key of bit `b` on the output head recovers
      the key of bit `b` on the blinding slot: the opened value is the XOR
      of the two committed keys. The head is the one whose output key the
      walk gave to the AND gate's output wire (AndSoldered). */
  lemma OutputUnblinds(p: Pool, sh: Shape, c: Circuit, off: Demand, ot: OtShape, i: nat, b: bool, delta: Key)
    requires OnlineReady(p, sh, c, off, ot) && i < c.numOut
    ensures var head := AndHead(sh, off, c.numAndGates - c.numOut + i);
            && head < |p.gateIds|
            && Xor(Adj(GateSlot(p, head, Out).Value(), b, delta), OutputDecommits(p, sh, c, off, ot)[i].Value())
               == Adj(BlindSlot(p, ot, off.outputs + i).Value(), b, delta)
  {
    var d := OutputDecommit(p, sh, c, off, ot, i);
    assert OutputDecommits(p, sh, c, off, ot)[i] == d;
    Unblind(GateSlot(p, AndHead(sh, off, c.numAndGates - c.numOut + i), Out).Value(),
            BlindSlot(p, ot, off.outputs + i).Value(), b, delta);
  }
}
