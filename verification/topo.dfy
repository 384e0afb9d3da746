/** The topological soldering of one circuit in the offline phase
    (src/tiny/tiny-constructor.cpp, Offline, lines 761-882).

    The garbler walks the circuit keeping, for every wire, its 0-key
    (`values`) and a slot that commits to it (`decommit_shares_tmp`). Input
    wires start at their input-authenticator bucket heads; a NOT gate adds
    Δ, an XOR gate adds its two inputs, and the k-th AND gate takes the
    output key of the k-th reserved gate bucket's head and solders the
    head's left and right keys onto the keys of its input wires. Pairs of
    constant inputs are soldered onto the heads of input-gate buckets. The
    soldering keys go on the channel and the staged slots to the batched
    decommitment, neither of which is part of this model. */
module Topo {
  import opened Keys
  import opened Layout
  import opened Lookup
  import opened CutAndChoose
  import opened Soldering
  import opened Circuits
  import opened Capacity

  /** Line 849: the head of the k-th AND gate's bucket. */
  function AndHead(sh: Shape, off: Demand, k: nat): nat {
    (off.gates + k) * sh.numBucket
  }

  /** Line 794: the head of the i-th input-gate bucket. */
  function InputGateHead(sh: Shape, off: Demand, i: nat): nat {
    sh.numPreGates * sh.numBucket + (off.inpGates + i) * sh.numInpBucket
  }

  /** Lines 780 and 950: the head of input `i`'s authenticator bucket. */
  function InputAuthHead(sh: Shape, off: Demand, i: nat): nat {
    sh.numPreGates * sh.numAuth + (off.inputs + i) * sh.numInpAuth
  }

  /** What the walk relies on: a well-formed pool and circuit, the Δ slot of
      block 0, and every bucket head the circuit's reserved slices name
      inside the pool. */
  predicate Reserved(p: Pool, sh: Shape, c: Circuit, off: Demand) {
    && PoolOk(p)
    && |p.blocks| > 0 && p.lay.deltaPos < |p.blocks[0]|
    && WellFormed(c)
    && (forall i :: 0 <= i < c.NumInp() ==> InputAuthHead(sh, off, i) < |p.authIds|)
    && (forall i :: 0 <= i < c.numConstInp / 2 ==> InputGateHead(sh, off, i) < |p.gateIds|)
    && (forall k :: 0 <= k < c.numAndGates ==> AndHead(sh, off, k) < |p.gateIds|)
  }

  /** Lines 827-828: the Δ slot, read from execution 0's block. */
  function DeltaSlot(p: Pool): Share
    requires |p.blocks| > 0 && p.lay.deltaPos < |p.blocks[0]|
  {
    p.blocks[0][p.lay.deltaPos]
  }

  /** The walk's state: per-wire keys and slots, and the AND gates' left
      and right solderings so far. */
  datatype WalkState = WalkState(values: seq<Key>, tmp: seq<Share>, andLeft: seq<Soldering>, andRight: seq<Soldering>)

  /** Every wire's staged slot commits to the wire's key. */
  predicate Consistent(st: WalkState) {
    |st.values| == |st.tmp| && forall w :: 0 <= w < |st.tmp| ==> st.tmp[w].Value() == st.values[w]
  }

  /** Lines 798-806 and 853-874: a head key XORed with a wire key, staged as
      the head's slot XORed with the wire's. */
  function TopSolder(head: Share, key: Key, share: Share): Soldering {
    Soldering(Xor(head.Value(), key), ShareXor(head, share))
  }

  /** A soldering made from a wire whose slot commits to its key solders
      the wire onto the head. */
  lemma TopSolderOnto(head: Share, key: Key, share: Share)
    requires share.Value() == key
    ensures SolderedOnto(TopSolder(head, key, share), share, head)
  {
    XorComm(head.Value(), key);
    XorCancel(head.Value(), key);
    XorComm(key, Xor(head.Value(), key));
    XorAssoc(key, head.Value(), key);
    XorComm(key, head.Value());
    XorAssoc(head.Value(), key, key);
    XorSelf(key);
    XorZero(head.Value());
  }

  /** Lines 779-789: input wire `w` starts at its input-authenticator head;
      every other wire starts zeroed. */
  function InputWire(p: Pool, sh: Shape, c: Circuit, off: Demand, w: nat): Share
    requires Reserved(p, sh, c, off)
  {
    if w < c.NumInp() then AuthSlot(p, InputAuthHead(sh, off, w)) else ZeroShare
  }

  function InputState(p: Pool, sh: Shape, c: Circuit, off: Demand): (r: WalkState)
    requires Reserved(p, sh, c, off)
    ensures |r.values| == |r.tmp| == c.numWires && r.andLeft == [] && r.andRight == []
    ensures Consistent(r)
    ensures forall w :: 0 <= w < c.NumInp() ==> r.tmp[w] == AuthSlot(p, InputAuthHead(sh, off, w))
  {
    var tmp := seq(c.numWires, w requires 0 <= w < c.numWires => InputWire(p, sh, c, off, w));
    WalkState(seq(c.numWires, w requires 0 <= w < c.numWires => tmp[w].Value()), tmp, [], [])
  }

  /** Lines 793-818: constant inputs `i` and `half + i` are soldered onto the
      left and right keys of input-gate bucket `i`'s head. InputGatesSoldered
      says what each soldering joins. */
  function InputGateSolderings(p: Pool, sh: Shape, c: Circuit, off: Demand, st: WalkState, w: Wire): (r: seq<Soldering>)
    requires Reserved(p, sh, c, off) && |st.values| == |st.tmp| == c.numWires && w != Out
    ensures |r| == c.numConstInp / 2
  {
    var half := c.numConstInp / 2;
    seq(half, i requires 0 <= i < half =>
          TopSolder(GateSlot(p, InputGateHead(sh, off, i), w), st.values[InputWireOf(c, w, i)], st.tmp[InputWireOf(c, w, i)]))
  }

  /** The constant input soldered onto input-gate bucket `i`'s `w` key: the
      first half of the constant inputs go left, the second half right. */
  function InputWireOf(c: Circuit, w: Wire, i: nat): nat {
    if w == Left then i else c.numConstInp / 2 + i
  }

  /** With consistent wires, each input-gate soldering solders its constant
      input's slot onto the head's key. */
  lemma InputGatesSoldered(p: Pool, sh: Shape, c: Circuit, off: Demand, st: WalkState, w: Wire)
    requires Reserved(p, sh, c, off) && |st.values| == |st.tmp| == c.numWires && w != Out
    requires Consistent(st)
    ensures forall i :: 0 <= i < c.numConstInp / 2 ==>
              && InputWireOf(c, w, i) < c.NumInp()
              && InputGateHead(sh, off, i) < |p.gateIds|
              && SolderedOnto(InputGateSolderings(p, sh, c, off, st, w)[i], st.tmp[InputWireOf(c, w, i)],
                              GateSlot(p, InputGateHead(sh, off, i), w))
  {
    var r := InputGateSolderings(p, sh, c, off, st, w);
    forall i | 0 <= i < c.numConstInp / 2
      ensures SolderedOnto(r[i], st.tmp[InputWireOf(c, w, i)], GateSlot(p, InputGateHead(sh, off, i), w))
    {
      var wire := InputWireOf(c, w, i);
      TopSolderOnto(GateSlot(p, InputGateHead(sh, off, i), w), st.values[wire], st.tmp[wire]);
    }
  }

  /** Lines 823-877: one gate of the walk. */
  function StepGate(p: Pool, sh: Shape, c: Circuit, off: Demand, st: WalkState, g: Gate): (r: WalkState)
    requires Reserved(p, sh, c, off)
    requires |st.values| == |st.tmp| == c.numWires && |st.andLeft| == |st.andRight|
    requires g.left < c.numWires && g.right < c.numWires && g.out < c.numWires
    requires g.kind == And ==> |st.andLeft| < c.numAndGates
    ensures |r.values| == |r.tmp| == c.numWires
    ensures |r.andLeft| == |r.andRight| == |st.andLeft| + (if g.kind == And then 1 else 0)
    ensures forall k :: 0 <= k < |st.andLeft| ==> r.andLeft[k] == st.andLeft[k]
    ensures forall k :: 0 <= k < |st.andRight| ==> r.andRight[k] == st.andRight[k]
    // the per-wire slots keep committing to the per-wire keys
    ensures Consistent(st) ==> Consistent(r)
  {
    match g.kind
    case Not =>
      st.(values := st.values[g.out := Xor(st.values[g.left], DeltaSlot(p).Value())],
          tmp := st.tmp[g.out := ShareXor(st.tmp[g.left], DeltaSlot(p))])
    case XorGate =>
      // the left input is copied to the output first, and the right input
      // read afterwards: an output wire that is also the right input ends zeroed
      var values := st.values[g.out := st.values[g.left]];
      var tmp := st.tmp[g.out := st.tmp[g.left]];
      st.(values := values[g.out := Xor(values[g.out], values[g.right])],
          tmp := tmp[g.out := ShareXor(tmp[g.out], tmp[g.right])])
    case And =>
      var h := AndHead(sh, off, |st.andLeft|);
      var values := st.values[g.out := GateSlot(p, h, Out).Value()];
      var tmp := st.tmp[g.out := GateSlot(p, h, Out)];
      WalkState(values, tmp,
                st.andLeft + [TopSolder(GateSlot(p, h, Left), values[g.left], tmp[g.left])],
                st.andRight + [TopSolder(GateSlot(p, h, Right), values[g.right], tmp[g.right])])
  }

  /** The state after the first `n` gates. */
  function Walk(p: Pool, sh: Shape, c: Circuit, off: Demand, n: nat): (r: WalkState)
    requires Reserved(p, sh, c, off) && n <= |c.gates|
    ensures |r.values| == |r.tmp| == c.numWires
    ensures |r.andLeft| == |r.andRight| == AndsBefore(c.gates, n)
    ensures Consistent(r)
    decreases n
  {
    if n == 0 then InputState(p, sh, c, off)
    else
      var st := Walk(p, sh, c, off, n - 1);
      AndsBeforeMono(c.gates, n - 1, |c.gates|);
      StepGate(p, sh, c, off, st, c.gates[n - 1])
  }

  /** Free-XOR meaning of the NOT and XOR steps: an evaluator holding the
      keys for bits `b1` (and `b2`) on the input wires holds the key for
      `!b1` (`b1 != b2`) on the output wire. An XOR gate writing over its own
      right input (and not also reading it on the left) instead leaves the
      zero key on its output. */
  lemma StepFreeXor(p: Pool, sh: Shape, c: Circuit, off: Demand, st: WalkState, g: Gate, b1: bool, b2: bool)
    requires Reserved(p, sh, c, off)
    requires |st.values| == |st.tmp| == c.numWires && |st.andLeft| == |st.andRight|
    requires g.left < c.numWires && g.right < c.numWires && g.out < c.numWires
    requires g.kind != And
    ensures var r, d := StepGate(p, sh, c, off, st, g), DeltaSlot(p).Value();
            g.kind == Not ==> Adj(r.values[g.out], b1, d) == Adj(st.values[g.left], !b1, d)
    ensures var r, d := StepGate(p, sh, c, off, st, g), DeltaSlot(p).Value();
            g.kind == XorGate && (g.out != g.right || g.left == g.right) ==>
              Xor(Adj(st.values[g.left], b1, d), Adj(st.values[g.right], b2, d)) == Adj(r.values[g.out], b1 != b2, d)
  ensures var r := StepGate(p, sh, c, off, st, g);
          g.kind == XorGate && g.out == g.right && g.left != g.right ==>
            r.values[g.out] == Zero && r.tmp[g.out].Value() == Zero
  {
    var d := DeltaSlot(p).Value();
    var l, rt := st.values[g.left], st.values[g.right];
    if g.kind == Not {
      AdjTwice(l, true, b1, d);
      assert Adj(l, true, d) == Xor(l, d);
    } else if g.out == g.right && g.left != g.right {
      XorSelf(l);
      XorSelf(st.tmp[g.left].Value());
    } else {
      var x1, x2 := if b1 then d else Zero, if b2 then d else Zero;
      XorSwap(l, x1, rt, x2);
      assert Xor(x1, x2) == if b1 != b2 then d else Zero by {
        XorZero(d);
        XorSelf(d);
        XorZero(Zero);
      }
    }
  }

  /** Lines 848-876, one AND step: the output wire takes the head's output
      key, and one left and one right soldering are appended, soldering the
      head's keys onto the input wires' slots. NOT and XOR steps append
      nothing. */
  lemma StepAppends(p: Pool, sh: Shape, c: Circuit, off: Demand, st: WalkState, g: Gate)
    requires Reserved(p, sh, c, off)
    requires |st.values| == |st.tmp| == c.numWires && |st.andLeft| == |st.andRight|
    requires g.left < c.numWires && g.right < c.numWires && g.out < c.numWires
    requires g.kind == And ==> |st.andLeft| < c.numAndGates
    requires Consistent(st)
    ensures var r, k := StepGate(p, sh, c, off, st, g), |st.andLeft|;
            g.kind == And ==>
              && AndHead(sh, off, k) < |p.gateIds|
              && r.values[g.out] == GateSlot(p, AndHead(sh, off, k), Out).Value()
              && r.andLeft == st.andLeft + [r.andLeft[k]] && r.andRight == st.andRight + [r.andRight[k]]
              && SolderedOnto(r.andLeft[k], r.tmp[g.left], GateSlot(p, AndHead(sh, off, k), Left))
              && SolderedOnto(r.andRight[k], r.tmp[g.right], GateSlot(p, AndHead(sh, off, k), Right))
    ensures var r := StepGate(p, sh, c, off, st, g);
            g.kind != And ==> r.andLeft == st.andLeft && r.andRight == st.andRight
  {
    var r := StepGate(p, sh, c, off, st, g);
    if g.kind == And {
      var h := AndHead(sh, off, |st.andLeft|);
      TopSolderOnto(GateSlot(p, h, Left), r.values[g.left], r.tmp[g.left]);
      TopSolderOnto(GateSlot(p, h, Right), r.values[g.right], r.tmp[g.right]);
    }
  }

  /** `b` extends `a`: it keeps every AND soldering of `a` in place. */
  predicate Extends(b: WalkState, a: WalkState) {
    && |a.andLeft| <= |b.andLeft| && |a.andRight| <= |b.andRight|
    && (forall k :: 0 <= k < |a.andLeft| ==> b.andLeft[k] == a.andLeft[k])
    && (forall k :: 0 <= k < |a.andRight| ==> b.andRight[k] == a.andRight[k])
  }

  lemma ExtendsTrans(a: WalkState, b: WalkState, c: WalkState)
    requires Extends(b, a) && Extends(c, b)
    ensures Extends(c, a)
  {
  }

  /** One gate extends the walk. */
  lemma WalkGrows(p: Pool, sh: Shape, c: Circuit, off: Demand, i: nat)
    requires Reserved(p, sh, c, off) && i < |c.gates|
    ensures Extends(Walk(p, sh, c, off, i + 1), Walk(p, sh, c, off, i))
  {
    AndsBeforeMono(c.gates, i, |c.gates|);
  }

  /** Later gates only append to the AND solderings. */
  lemma WalkPrefix(p: Pool, sh: Shape, c: Circuit, off: Demand, n: nat, m: nat)
    requires Reserved(p, sh, c, off) && n <= m <= |c.gates|
    ensures Extends(Walk(p, sh, c, off, m), Walk(p, sh, c, off, n))
  {
    // the chain needs only WalkGrows's contract, not the walk's definition
    hide Walk;
    var f := (i: nat) => Walk(p, sh, c, off, if i <= |c.gates| then i else |c.gates|);
    forall i | n <= i < m
      ensures Extends(f(i + 1), f(i))
    {
      WalkGrows(p, sh, c, off, i);
    }
    ChainExtends(f, n, m);
  }

  /** In a chain of states each extending the one before, a later state
      extends every earlier one. */
  lemma {:induction false} ChainExtends(f: nat -> WalkState, n: nat, m: nat)
    requires n <= m
    requires forall i :: n <= i < m ==> Extends(f(i + 1), f(i))
    ensures Extends(f(m), f(n))
    decreases m - n
  {
    if n < m {
      ChainExtends(f, n, m - 1);
      ExtendsTrans(f(n), f(m - 1), f(m));
    }
  }

  /** One more gate of the walk is one StepAppends step. */
  lemma WalkStep(p: Pool, sh: Shape, c: Circuit, off: Demand, i: nat)
    requires Reserved(p, sh, c, off) && i < |c.gates|
    ensures var st, r, g, k := Walk(p, sh, c, off, i), Walk(p, sh, c, off, i + 1), c.gates[i], AndsBefore(c.gates, i);
            && |st.andLeft| == k
            && (g.kind == And ==>
                  && k < c.numAndGates && AndHead(sh, off, k) < |p.gateIds|
                  && r.values[g.out] == GateSlot(p, AndHead(sh, off, k), Out).Value()
                  && r.andLeft == st.andLeft + [r.andLeft[k]] && r.andRight == st.andRight + [r.andRight[k]]
                  && SolderedOnto(r.andLeft[k], r.tmp[g.left], GateSlot(p, AndHead(sh, off, k), Left))
                  && SolderedOnto(r.andRight[k], r.tmp[g.right], GateSlot(p, AndHead(sh, off, k), Right)))
            && (g.kind != And ==> r.andLeft == st.andLeft && r.andRight == st.andRight)
  {
    var st := Walk(p, sh, c, off, i);
    AndsBeforeMono(c.gates, i, |c.gates|);
    assert Walk(p, sh, c, off, i + 1) == StepGate(p, sh, c, off, st, c.gates[i]);
    StepAppends(p, sh, c, off, st, c.gates[i]);
  }

  /** Lines 848-876: the k-th AND gate (gate `i`) gives its output wire the
      output key of the k-th reserved bucket head and solders that head's
      left and right keys onto the slots of its input wires; the final
      solderings at `k` are those. */
  lemma AndSoldered(p: Pool, sh: Shape, c: Circuit, off: Demand, i: nat)
    requires Reserved(p, sh, c, off) && i < |c.gates| && c.gates[i].kind == And
    ensures var k, g := AndsBefore(c.gates, i), c.gates[i];
            var after, fin := Walk(p, sh, c, off, i + 1), Walk(p, sh, c, off, |c.gates|);
            && k < c.numAndGates && k < |fin.andLeft| && AndHead(sh, off, k) < |p.gateIds|
            && after.values[g.out] == GateSlot(p, AndHead(sh, off, k), Out).Value()
            && SolderedOnto(fin.andLeft[k], after.tmp[g.left], GateSlot(p, AndHead(sh, off, k), Left))
            && SolderedOnto(fin.andRight[k], after.tmp[g.right], GateSlot(p, AndHead(sh, off, k), Right))
  {
    hide Walk, StepGate;
    var k := AndsBefore(c.gates, i);
    var after, fin := Walk(p, sh, c, off, i + 1), Walk(p, sh, c, off, |c.gates|);
    WalkStep(p, sh, c, off, i);
    assert |after.andLeft| == |after.andRight| == k + 1;
    WalkPrefix(p, sh, c, off, i + 1, |c.gates|);
  }

  /** Lines 767 and 880: the soldering buffer of num_top_solderings =
      2 * num_and_gates + num_const_inp_wires entries: AND left, input-gate
      left, AND right, input-gate right, and a last entry left zeroed when
      the number of constant inputs is odd. */
  function TopBuffer(c: Circuit, fin: WalkState, inpLeft: seq<Soldering>, inpRight: seq<Soldering>): seq<Soldering> {
    fin.andLeft + inpLeft + fin.andRight + inpRight
      + (if c.numConstInp % 2 == 1 then [Soldering(Zero, ZeroShare)] else [])
  }

  /** The whole soldering of one circuit: the walk's final state and the
      buffer sent and decommitted. */
  function Topological(p: Pool, sh: Shape, c: Circuit, off: Demand): (r: (WalkState, seq<Soldering>))
    requires Reserved(p, sh, c, off)
  {
    var init := InputState(p, sh, c, off);
    var fin := Walk(p, sh, c, off, |c.gates|);
    (fin, TopBuffer(c, fin, InputGateSolderings(p, sh, c, off, init, Left), InputGateSolderings(p, sh, c, off, init, Right)))
  }

  /** Lines 791-792, 821-822: the buffer has num_top_solderings entries, the
      k-th AND gate's solderings sit at `k` and `num_and + half + k`, input
      gate `i`'s at `num_and + i` and `2 * num_and + half + i`; every staged
      slot opens the key sent beside it, and every wire's slot commits to
      the wire's key. */
  lemma TopologicalLayout(p: Pool, sh: Shape, c: Circuit, off: Demand)
    requires Reserved(p, sh, c, off)
    ensures var (fin, buf) := Topological(p, sh, c, off);
            var n, half := c.numAndGates, c.numConstInp / 2;
            && |buf| == 2 * n + c.numConstInp
            && (forall k :: 0 <= k < n ==> buf[k] == fin.andLeft[k] && buf[n + half + k] == fin.andRight[k])
            && Opens(StagedDecommits(buf), SentKeys(buf))
            && Consistent(fin)
    ensures var (_, buf) := Topological(p, sh, c, off);
            var n, half, init := c.numAndGates, c.numConstInp / 2, InputState(p, sh, c, off);
            forall i :: 0 <= i < half ==>
              && buf[n + i] == InputGateSolderings(p, sh, c, off, init, Left)[i]
              && buf[2 * n + half + i] == InputGateSolderings(p, sh, c, off, init, Right)[i]
  {
    TopologicalPositions(p, sh, c, off);
    TopologicalOpens(p, sh, c, off);
  }

  /** The positional half of TopologicalLayout. */
  lemma TopologicalPositions(p: Pool, sh: Shape, c: Circuit, off: Demand)
    requires Reserved(p, sh, c, off)
    ensures var (fin, buf) := Topological(p, sh, c, off);
            var n, half, init := c.numAndGates, c.numConstInp / 2, InputState(p, sh, c, off);
            && |buf| == 2 * n + c.numConstInp
            && (forall k :: 0 <= k < n ==> buf[k] == fin.andLeft[k] && buf[n + half + k] == fin.andRight[k])
            && (forall i :: 0 <= i < half ==>
                  && buf[n + i] == InputGateSolderings(p, sh, c, off, init, Left)[i]
                  && buf[2 * n + half + i] == InputGateSolderings(p, sh, c, off, init, Right)[i])
  {
    var init := InputState(p, sh, c, off);
    var (fin, buf) := Topological(p, sh, c, off);
    BufferPositions(c, fin, InputGateSolderings(p, sh, c, off, init, Left), InputGateSolderings(p, sh, c, off, init, Right));
  }

  /** The opening half of TopologicalLayout: every soldering in the buffer
      opens, and the final wires stay consistent. */
  lemma TopologicalOpens(p: Pool, sh: Shape, c: Circuit, off: Demand)
    requires Reserved(p, sh, c, off)
    ensures var (fin, buf) := Topological(p, sh, c, off);
            Opens(StagedDecommits(buf), SentKeys(buf)) && Consistent(fin)
  {
    var init := InputState(p, sh, c, off);
    var (fin, buf) := Topological(p, sh, c, off);
    var il, ir := InputGateSolderings(p, sh, c, off, init, Left), InputGateSolderings(p, sh, c, off, init, Right);
    InputGatesSoldered(p, sh, c, off, init, Left);
    InputGatesSoldered(p, sh, c, off, init, Right);
    AndsOpen(p, sh, c, off, |c.gates|);
    assert AllOpen(il) && AllOpen(ir);
    ConcatOpen(fin.andLeft, il);
    ConcatOpen(fin.andLeft + il, fin.andRight);
    ConcatOpen(fin.andLeft + il + fin.andRight, ir);
    var tail: seq<Soldering> := if c.numConstInp % 2 == 1 then [Soldering(Zero, ZeroShare)] else [];
    assert AllOpen(tail) by {
      XorSelf(Zero);
    }
    ConcatOpen(fin.andLeft + il + fin.andRight + ir, tail);
  }

  /** The four runs of the soldering buffer, laid end to end. */
  lemma BufferPositions(c: Circuit, fin: WalkState, il: seq<Soldering>, ir: seq<Soldering>)
    requires |fin.andLeft| == |fin.andRight| && |il| == |ir|
    ensures var buf, n, half := TopBuffer(c, fin, il, ir), |fin.andLeft|, |il|;
            && (forall k :: 0 <= k < n ==> buf[k] == fin.andLeft[k] && buf[n + half + k] == fin.andRight[k])
            && (forall i :: 0 <= i < half ==> buf[n + i] == il[i] && buf[2 * n + half + i] == ir[i])
  {
    var tail: seq<Soldering> := if c.numConstInp % 2 == 1 then [Soldering(Zero, ZeroShare)] else [];
    RunPositions(fin.andLeft, il, fin.andRight, ir, tail);
  }

  /** Runs `a`, `b`, `c`, `d` and `e` concatenated: each run's entries sit
      after the lengths of the runs before it. */
  lemma RunPositions<T>(a: seq<T>, b: seq<T>, c: seq<T>, d: seq<T>, e: seq<T>)
    ensures var s := a + b + c + d + e;
            && |s| == |a| + |b| + |c| + |d| + |e|
            && (forall k :: 0 <= k < |a| ==> s[k] == a[k])
            && (forall k :: 0 <= k < |b| ==> s[|a| + k] == b[k])
            && (forall k :: 0 <= k < |c| ==> s[|a| + |b| + k] == c[k])
            && (forall k :: 0 <= k < |d| ==> s[|a| + |b| + |c| + k] == d[k])
  {
  }

  /** Every AND soldering of the walk is opened by its staged slot. */
  lemma {:induction false} AndsOpen(p: Pool, sh: Shape, c: Circuit, off: Demand, n: nat)
    requires Reserved(p, sh, c, off) && n <= |c.gates|
    ensures AllOpen(Walk(p, sh, c, off, n).andLeft) && AllOpen(Walk(p, sh, c, off, n).andRight)
    decreases n
  {
    hide Walk, StepGate;
    if n > 0 {
      AndsOpen(p, sh, c, off, n - 1);
      WalkNext(p, sh, c, off, n - 1);
      StepOpens(p, sh, c, off, Walk(p, sh, c, off, n - 1), c.gates[n - 1]);
    }
  }

  /** One gate keeps every AND soldering opened by its staged slot. */
  lemma StepOpens(p: Pool, sh: Shape, c: Circuit, off: Demand, st: WalkState, g: Gate)
    requires Reserved(p, sh, c, off)
    requires |st.values| == |st.tmp| == c.numWires && |st.andLeft| == |st.andRight|
    requires g.left < c.numWires && g.right < c.numWires && g.out < c.numWires
    requires g.kind == And ==> |st.andLeft| < c.numAndGates
    requires Consistent(st) && AllOpen(st.andLeft) && AllOpen(st.andRight)
    ensures AllOpen(StepGate(p, sh, c, off, st, g).andLeft) && AllOpen(StepGate(p, sh, c, off, st, g).andRight)
  {
    var r := StepGate(p, sh, c, off, st, g);
    StepAppends(p, sh, c, off, st, g);
    if g.kind == And {
      var k := |st.andLeft|;
      ConcatOpen(st.andLeft, [r.andLeft[k]]);
      ConcatOpen(st.andRight, [r.andRight[k]]);
    }
  }

  /** Lines 820-878: the gates, one after the other in topological order. */
  method WalkGates(p: Pool, sh: Shape, c: Circuit, off: Demand) returns (st: WalkState)
    requires Reserved(p, sh, c, off)
    ensures st == Walk(p, sh, c, off, |c.gates|)
    ensures Consistent(st) && |st.andLeft| == |st.andRight| == c.numAndGates
  {
    // the loop needs only the contracts of Start and Advance: keeping the
    // walk's definition out of it keeps the proof small
    hide Walk;
    st := Start(p, sh, c, off);
    var i := 0;
    while i < |c.gates|
      invariant 0 <= i <= |c.gates|
      invariant st == Walk(p, sh, c, off, i)
    {
      st := Advance(p, sh, c, off, st, i);
      i := i + 1;
    }
  }

  /** Lines 767-790: the state before the first gate. */
  method Start(p: Pool, sh: Shape, c: Circuit, off: Demand) returns (r: WalkState)
    requires Reserved(p, sh, c, off)
    ensures r == Walk(p, sh, c, off, 0)
  {
    r := InputState(p, sh, c, off);
  }

  /** One iteration of the walk: gate `i` applied to the state before it. */
  method Advance(p: Pool, sh: Shape, c: Circuit, off: Demand, st: WalkState, i: nat) returns (r: WalkState)
    requires Reserved(p, sh, c, off) && i < |c.gates| && st == Walk(p, sh, c, off, i)
    ensures r == Walk(p, sh, c, off, i + 1)
  {
    WalkNext(p, sh, c, off, i);
    r := StepGate(p, sh, c, off, st, c.gates[i]);
  }

  /** Gate `i` can be stepped from the walk's state before it, and doing so
      is the walk one gate further. */
  lemma WalkNext(p: Pool, sh: Shape, c: Circuit, off: Demand, i: nat)
    requires Reserved(p, sh, c, off) && i < |c.gates|
    ensures var st, g := Walk(p, sh, c, off, i), c.gates[i];
            && g.left < c.numWires && g.right < c.numWires && g.out < c.numWires
            && (g.kind == And ==> |st.andLeft| < c.numAndGates)
            && StepGate(p, sh, c, off, st, g) == Walk(p, sh, c, off, i + 1)
  {
    AndsBeforeMono(c.gates, i, |c.gates|);
  }

  /** Lines 761-882: the inputs, the input-gate solderings, the gates, and
      the buffer handed to the channel and to the batched decommitment. */
  method TopologicalSolderings(p: Pool, sh: Shape, c: Circuit, off: Demand) returns (sent: seq<Key>, staged: seq<Share>)
    requires Reserved(p, sh, c, off)
    ensures |sent| == |staged| == 2 * c.numAndGates + c.numConstInp
    ensures Opens(staged, sent)
    ensures sent == SentKeys(Topological(p, sh, c, off).1)
  {
    var init := InputState(p, sh, c, off);
    var il := InputGateSolderings(p, sh, c, off, init, Left);
    var ir := InputGateSolderings(p, sh, c, off, init, Right);
    var fin := WalkGates(p, sh, c, off);
    var buf := TopBuffer(c, fin, il, ir);
    TopologicalLayout(p, sh, c, off);
    sent, staged := SentKeys(buf), StagedDecommits(buf);
  }
}
