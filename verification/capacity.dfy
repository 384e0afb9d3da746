/** The capacity reservation at the start of the offline phase
    (src/tiny/tiny-constructor.cpp, lines 713-745).

    Three counters remember how many preprocessed gates, input
    authenticators and output slots earlier batches have taken. For every
    circuit of a batch the offsets of its slices are pushed (the used
    counters plus the demand of the circuits before it); then the batch's
    whole demand is checked against what is left, gates first, then inputs,
    then outputs. A failed check aborts without bumping its own counter, but
    the counters bumped before it and the pushed offsets stay. */
module Capacity {
  import opened Layout
  import opened Circuits

  /** What one circuit (or a run of circuits) takes from the pools: AND
      gates, input-gate buckets, input authenticators, output slots. */
  datatype Demand = Demand(gates: nat, inpGates: nat, inputs: nat, outputs: nat)

  /** The preprocessed pool sizes: num_pre_gates, num_pre_inputs,
      num_pre_outputs. */
  datatype Pools = Pools(preGates: nat, preInputs: nat, preOutputs: nat)

  /** The counters and the four offset vectors, pushed in lockstep: entry
      `c` holds circuit `c`'s gates, inp_gates, inputs and outputs offsets. */
  datatype Counters = Counters(gatesUsed: nat, inputsUsed: nat, outputsUsed: nat, offsets: seq<Demand>)

  /** Lines 722-725: circuit `c`'s demand. */
  function CircuitDemand(c: Circuit): Demand {
    Demand(c.numAndGates, c.numConstInp / 2, c.NumInp(), c.numOut)
  }

  function Add(x: Demand, y: Demand): Demand {
    Demand(x.gates + y.gates, x.inpGates + y.inpGates, x.inputs + y.inputs, x.outputs + y.outputs)
  }

  /** The summed demand of a run of circuits. */
  function TotalDemand(cs: seq<Circuit>): Demand
    decreases |cs|
  {
    if |cs| == 0 then Demand(0, 0, 0, 0) else Add(TotalDemand(cs[..|cs| - 1]), CircuitDemand(cs[|cs| - 1]))
  }

  /** Where the slices start when `before` has already been handed out of
      the pools after the used counters. */
  function SliceStart(st: Counters, before: Demand): Demand {
    Demand(st.gatesUsed + before.gates, st.inputsUsed / 2 + before.inpGates,
           st.inputsUsed + before.inputs, st.outputsUsed + before.outputs)
  }

  /** No counter has run past its pool. */
  predicate Within(st: Counters, pools: Pools) {
    st.gatesUsed <= pools.preGates && st.inputsUsed <= pools.preInputs && st.outputsUsed <= pools.preOutputs
  }

  /** Lines 713-726: push every circuit's offsets and sum the batch's
      demand. Circuit `c`'s offsets are the used counters plus the demand of
      the circuits before it. */
  method PushOffsets(st: Counters, cs: seq<Circuit>) returns (r: Counters, needed: Demand)
    ensures r.gatesUsed == st.gatesUsed && r.inputsUsed == st.inputsUsed && r.outputsUsed == st.outputsUsed
    ensures |r.offsets| == |st.offsets| + |cs| && r.offsets[..|st.offsets|] == st.offsets
    ensures forall c :: 0 <= c < |cs| ==> r.offsets[|st.offsets|..][c] == SliceStart(st, TotalDemand(cs[..c]))
    ensures needed == TotalDemand(cs)
  {
    var pushed: seq<Demand> := [];
    needed := Demand(0, 0, 0, 0);
    var c := 0;
    while c < |cs|
      invariant 0 <= c <= |cs| && |pushed| == c
      invariant needed == TotalDemand(cs[..c])
      invariant forall k :: 0 <= k < c ==> pushed[k] == SliceStart(st, TotalDemand(cs[..k]))
    {
      pushed := pushed + [SliceStart(st, needed)];
      assert cs[..c + 1][..c] == cs[..c];
      needed := Add(needed, CircuitDemand(cs[c]));
      c := c + 1;
    }
    assert cs[..|cs|] == cs;
    r := Counters(st.gatesUsed, st.inputsUsed, st.outputsUsed, st.offsets + pushed);
    assert r.offsets[|st.offsets|..] == pushed;
  }

  /** Lines 728-745: check the gates, then the inputs, then the outputs;
      each failure leaves its own counter alone and keeps the bumps before
      it. The differences are taken over the integers, as the source's
      `int` arithmetic does. */
  function CheckCapacity(st: Counters, pools: Pools, needed: Demand): (r: (Counters, Result<()>))
    ensures r.0.offsets == st.offsets
    ensures r.1.Ok? <==> (needed.gates <= pools.preGates - st.gatesUsed
                          && needed.inputs <= pools.preInputs - st.inputsUsed
                          && needed.outputs <= pools.preOutputs - st.outputsUsed)
    ensures r.1.Ok? ==> (&& r.0.gatesUsed == st.gatesUsed + needed.gates
                         && r.0.inputsUsed == st.inputsUsed + needed.inputs
                         && r.0.outputsUsed == st.outputsUsed + needed.outputs)
    ensures r.1 == Err(NotEnoughGates) <==> needed.gates > pools.preGates - st.gatesUsed
    ensures r.1 == Err(NotEnoughGates) ==> r.0 == st
    ensures r.1 == Err(NotEnoughInputs) ==> (&& r.0.gatesUsed == st.gatesUsed + needed.gates
                                             && r.0.inputsUsed == st.inputsUsed
                                             && r.0.outputsUsed == st.outputsUsed)
    ensures r.1 == Err(NotEnoughOutputs) ==> (&& r.0.gatesUsed == st.gatesUsed + needed.gates
                                              && r.0.inputsUsed == st.inputsUsed + needed.inputs
                                              && r.0.outputsUsed == st.outputsUsed)
    ensures r.1.Err? ==> r.1.error in {NotEnoughGates, NotEnoughInputs, NotEnoughOutputs}
    // the counters never run past their pools
    ensures Within(st, pools) ==> Within(r.0, pools)
  {
    if pools.preGates - st.gatesUsed < needed.gates then (st, Err(NotEnoughGates))
    else
      var st1 := st.(gatesUsed := st.gatesUsed + needed.gates);
      if pools.preInputs - st1.inputsUsed < needed.inputs then (st1, Err(NotEnoughInputs))
      else
        var st2 := st1.(inputsUsed := st1.inputsUsed + needed.inputs);
        if pools.preOutputs - st2.outputsUsed < needed.outputs then (st2, Err(NotEnoughOutputs))
        else (st2.(outputsUsed := st2.outputsUsed + needed.outputs), Ok(()))
  }

  /** Lines 713-745: one offline batch's reservation. */
  method Reserve(st: Counters, pools: Pools, cs: seq<Circuit>) returns (r: Counters, status: Result<()>)
    ensures |r.offsets| == |st.offsets| + |cs| && r.offsets[..|st.offsets|] == st.offsets
    ensures forall c :: 0 <= c < |cs| ==> r.offsets[|st.offsets|..][c] == SliceStart(st, TotalDemand(cs[..c]))
    ensures status.Ok? <==> (TotalDemand(cs).gates <= pools.preGates - st.gatesUsed
                             && TotalDemand(cs).inputs <= pools.preInputs - st.inputsUsed
                             && TotalDemand(cs).outputs <= pools.preOutputs - st.outputsUsed)
    ensures status.Ok? ==> (&& r.gatesUsed == st.gatesUsed + TotalDemand(cs).gates
                            && r.inputsUsed == st.inputsUsed + TotalDemand(cs).inputs
                            && r.outputsUsed == st.outputsUsed + TotalDemand(cs).outputs)
    ensures Within(st, pools) ==> Within(r, pools)
  {
    var pushed, needed := PushOffsets(st, cs);
    var checked := CheckCapacity(pushed, pools, needed);
    r, status := checked.0, checked.1;
  }

  /** The demand of a run grows by each circuit's own demand. */
  lemma {:induction false} TotalDemandSplit(cs: seq<Circuit>, i: nat, j: nat)
    requires i <= j <= |cs|
    ensures TotalDemand(cs[..i]).gates <= TotalDemand(cs[..j]).gates
    ensures TotalDemand(cs[..i]).inpGates <= TotalDemand(cs[..j]).inpGates
    ensures TotalDemand(cs[..i]).inputs <= TotalDemand(cs[..j]).inputs
    ensures TotalDemand(cs[..i]).outputs <= TotalDemand(cs[..j]).outputs
    ensures i < j ==>
              && TotalDemand(cs[..i]).gates + CircuitDemand(cs[i]).gates <= TotalDemand(cs[..j]).gates
              && TotalDemand(cs[..i]).inpGates + CircuitDemand(cs[i]).inpGates <= TotalDemand(cs[..j]).inpGates
              && TotalDemand(cs[..i]).inputs + CircuitDemand(cs[i]).inputs <= TotalDemand(cs[..j]).inputs
              && TotalDemand(cs[..i]).outputs + CircuitDemand(cs[i]).outputs <= TotalDemand(cs[..j]).outputs
    decreases j - i
  {
    if i < j {
      TotalDemandSplit(cs, i, j - 1);
      assert cs[..j][..j - 1] == cs[..j - 1];
    }
  }

  /** A successful reservation hands every circuit of the batch its own
      slices: circuit `i`'s gates, input-gate buckets, inputs and outputs
      end at or before circuit `j`'s start for `i < j`, and all of them lie
      between the counters before and after the batch. */
  lemma SlicesDisjoint(st: Counters, cs: seq<Circuit>, i: nat, j: nat)
    requires i < j <= |cs|
    ensures var si, dem := SliceStart(st, TotalDemand(cs[..i])), CircuitDemand(cs[i]);
            var sj := SliceStart(st, TotalDemand(cs[..j]));
            && st.gatesUsed <= si.gates && si.gates + dem.gates <= sj.gates
            && st.inputsUsed / 2 <= si.inpGates && si.inpGates + dem.inpGates <= sj.inpGates
            && st.inputsUsed <= si.inputs && si.inputs + dem.inputs <= sj.inputs
            && st.outputsUsed <= si.outputs && si.outputs + dem.outputs <= sj.outputs
  {
    TotalDemandSplit(cs, i, j);
  }

  /** As written (lines 763-765, 931-933): a later phase looks circuit `c`
      up at offsets entry `c` of the whole history, so after two batches
      circuit 0 of the second batch gets the gate slice of circuit 0 of the
      first, which the first batch's counter bump already consumed. */
  method AsWrittenSecondBatch(st: Counters, pools: Pools, first: seq<Circuit>, second: seq<Circuit>)
    returns (lookedUp: Demand, used: nat)
    requires st.offsets == [] && |first| > 0 && |second| > 0
    requires first[0].numAndGates > 0
    ensures var need := TotalDemand(first);
            (&& need.gates <= pools.preGates - st.gatesUsed
             && need.inputs <= pools.preInputs - st.inputsUsed
             && need.outputs <= pools.preOutputs - st.outputsUsed)
            ==> lookedUp.gates == st.gatesUsed && lookedUp.gates + first[0].numAndGates <= used
  {
    var r1, s1 := Reserve(st, pools, first);
    var r2, s2 := Reserve(r1, pools, second);
    assert r1.offsets[0..][0] == SliceStart(st, TotalDemand(first[..0]));
    assert r2.offsets[..|r1.offsets|][0] == r1.offsets[0];
    lookedUp := r2.offsets[0];
    used := r1.gatesUsed;
    if s1.Ok? {
      TotalDemandSplit(first, 0, |first|);
      assert first[..|first|] == first;
    }
  }

  /** Corrected: circuit `c` of a batch is looked up at entry
      `base + c`, where `base` is the number of offsets before the batch;
      its gate slice lies past everything earlier batches consumed. */
  method CorrectedLookup(st: Counters, pools: Pools, cs: seq<Circuit>, c: nat) returns (lookedUp: Demand)
    requires c < |cs|
    ensures st.gatesUsed <= lookedUp.gates && st.inputsUsed <= lookedUp.inputs && st.outputsUsed <= lookedUp.outputs
    ensures lookedUp == SliceStart(st, TotalDemand(cs[..c]))
  {
    var r, status := Reserve(st, pools, cs);
    lookedUp := r.offsets[|st.offsets| + c];
    assert lookedUp == r.offsets[|st.offsets|..][c];
  }
}
