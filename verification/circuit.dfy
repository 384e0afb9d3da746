/** The circuit description the offline and online phases walk: wire
    counts and gates in topological order. The circuit file format and its
    parser are not part of this model. */
module Circuits {

  datatype GateKind = Not | XorGate | And

  /** A gate reads `left` (and `right`, unless it is a NOT) and writes
      `out`. */
  datatype Gate = Gate(kind: GateKind, left: nat, right: nat, out: nat)

  /** Inputs come first: wires `0 .. numConstInp-1` carry the constructor's
      inputs, the next `numEvalInp` the evaluator's. */
  datatype Circuit = Circuit(
    numWires: nat,
    numAndGates: nat,
    numConstInp: nat,
    numEvalInp: nat,
    numOut: nat,
    gates: seq<Gate>)
  {
    /** num_inp_wires */
    function NumInp(): nat {
      numConstInp + numEvalInp
    }
  }

  /** The number of AND gates among the first `n` gates. */
  function AndsBefore(gates: seq<Gate>, n: nat): (r: nat)
    requires n <= |gates|
    ensures r <= n
  {
    if n == 0 then 0 else AndsBefore(gates, n - 1) + (if gates[n - 1].kind == And then 1 else 0)
  }

  /** Every gate reads and writes existing wires, and `numAndGates` counts
      the AND gates. */
  predicate WellFormed(c: Circuit) {
    && c.NumInp() <= c.numWires
    && (forall i :: 0 <= i < |c.gates| ==>
          c.gates[i].left < c.numWires && c.gates[i].right < c.numWires && c.gates[i].out < c.numWires)
    && AndsBefore(c.gates, |c.gates|) == c.numAndGates
  }

  /** The running AND count only grows, and passes an AND gate by one. */
  lemma {:induction false} AndsBeforeMono(gates: seq<Gate>, i: nat, j: nat)
    requires i <= j <= |gates|
    ensures AndsBefore(gates, i) <= AndsBefore(gates, j)
    ensures i < j && gates[i].kind == And ==> AndsBefore(gates, i) < AndsBefore(gates, j)
    decreases j - i
  {
    if i < j {
      AndsBeforeMono(gates, i, j - 1);
    }
  }
}
