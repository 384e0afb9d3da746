/** The evaluation pool: after preprocessing, the permuted arrays of eval
    gate and eval authenticator ids, read through IDMap into the commitment
    blocks of all executions (src/tiny/tiny-constructor.cpp, lines 426-428,
    479, 490, 531, 604 and 610). A pool position is a place in a permuted
    array; buckets are consecutive runs of positions. */
module Lookup {
  import opened Keys
  import opened Layout
  import opened Masks
  import opened Rows
  import opened Garbling
  import opened Bucketing

  /** The three key slots of a garbled gate. */
  datatype Wire = Left | Right | Out

  datatype Pool = Pool(
    blocks: seq<seq<Share>>,  // commit_snds[e]: the commitment block of execution e
    lay: SlotLayout,
    q: nat,
    a: nat,
    gateIds: seq<nat>,        // eval_gates_ids after the permutation
    authIds: seq<nat>)        // eval_auths_ids after the permutation

  predicate GateIdOk(p: Pool, id: nat)
    requires p.q + p.a > 0
  {
    && p.lay.outKeysStart <= id
    && Locate(id, p.q, p.a, p.lay.outKeysStart).0 < |p.blocks|
    && Locate(id, p.q, p.a, p.lay.outKeysStart).1 < p.q
  }

  predicate AuthIdOk(p: Pool, id: nat)
    requires p.q + p.a > 0
  {
    && p.lay.authStart <= id
    && Locate(id, p.q, p.a, p.lay.authStart).0 < |p.blocks|
    && Locate(id, p.q, p.a, p.lay.authStart).1 < p.a
  }

  /** Every id in the pool names an existing block and a gate (an
      authenticator) of it, and every block has room for its items. */
  predicate PoolOk(p: Pool) {
    && p.q + p.a > 0
    && (forall e :: 0 <= e < |p.blocks| ==> BlockHolds(p.blocks[e], p.lay, p.q, p.a))
    && (forall pos :: 0 <= pos < |p.gateIds| ==> GateIdOk(p, p.gateIds[pos]))
    && (forall pos :: 0 <= pos < |p.authIds| ==> AuthIdOk(p, p.authIds[pos]))
  }

  function WireStart(lay: SlotLayout, w: Wire): nat {
    match w
    case Left => lay.leftKeysStart
    case Right => lay.rightKeysStart
    case Out => lay.outKeysStart
  }

  /** The slot committing to wire `w`'s 0-key of the gate at pool position
      `pos`. */
  function GateSlot(p: Pool, pos: nat, w: Wire): Share
    requires PoolOk(p) && pos < |p.gateIds|
  {
    var (e, idx) := Locate(p.gateIds[pos], p.q, p.a, p.lay.outKeysStart);
    p.blocks[e][WireStart(p.lay, w) + idx]
  }

  /** The slot committing to the 0-key of the authenticator at pool position
      `pos`. */
  function AuthSlot(p: Pool, pos: nat): Share
    requires PoolOk(p) && pos < |p.authIds|
  {
    var (e, idx) := Locate(p.authIds[pos], p.q, p.a, p.lay.authStart);
    p.blocks[e][p.lay.authStart + idx]
  }

  /** Every execution's recorded ids, as its cut-and-choose step leaves
      them in its `width`-wide stride of the shared array (lines 328 and
      376): the ids of its first `width` unchecked items, for a mask over
      `n` items that leaves at least `width` of them unchecked. */
  predicate RowsRecorded(rows: seq<seq<nat>>, checks: seq<seq<bool>>, q: nat, a: nat, start: nat, n: nat, width: nat) {
    && |rows| == |checks|
    && Uniform(rows, width)
    && (forall e :: 0 <= e < |checks| ==> |checks[e]| == n && width <= |Positions(checks[e], false)|)
    && (forall e, k :: 0 <= e < |rows| && 0 <= k < |rows[e]| ==>
          rows[e][k] == ItemId(e, q, a, start, Positions(checks[e], false)[k]))
  }

  /** The preprocessing yields a well-formed pool without repeated ids: the
      rows recorded by the cut-and-choose, `numEvalGates` (`numEvalAuths`)
      per execution, laid end to end and scattered by a permutation, only
      name unchecked items of existing blocks, each once. PoolStride says
      where each execution's ids land. */
  lemma PoolFromPreprocess(blocks: seq<seq<Share>>, lay: SlotLayout, q: nat, a: nat, numEvalGates: nat, numEvalAuths: nat,
                           gateRows: seq<seq<nat>>, gateChecks: seq<seq<bool>>, gatePerm: seq<nat>, gateIds: seq<nat>,
                           authRows: seq<seq<nat>>, authChecks: seq<seq<bool>>, authPerm: seq<nat>, authIds: seq<nat>)
    requires q + a > 0
    requires forall e :: 0 <= e < |blocks| ==> BlockHolds(blocks[e], lay, q, a)
    requires |gateRows| == |authRows| == |blocks|
    requires RowsRecorded(gateRows, gateChecks, q, a, lay.outKeysStart, q, numEvalGates)
    requires RowsRecorded(authRows, authChecks, q, a, lay.authStart, a, numEvalAuths)
    requires IsPermutation(gatePerm, |Flatten(gateRows)|) && |gateIds| == |Flatten(gateRows)|
    requires forall i :: 0 <= i < |gatePerm| ==> gateIds[gatePerm[i]] == Flatten(gateRows)[i]
    requires IsPermutation(authPerm, |Flatten(authRows)|) && |authIds| == |Flatten(authRows)|
    requires forall i :: 0 <= i < |authPerm| ==> authIds[authPerm[i]] == Flatten(authRows)[i]
    ensures PoolOk(Pool(blocks, lay, q, a, gateIds, authIds))
    ensures Distinct(gateIds) && Distinct(authIds)
    ensures |gateIds| == numEvalGates * |blocks| && |authIds| == numEvalAuths * |blocks|
    // no pool id is a checked, already opened item
    ensures forall pos :: 0 <= pos < |gateIds| ==>
              UncheckedItem(gateChecks, q, a, lay.outKeysStart, |blocks|, numEvalGates, gateIds[pos])
    ensures forall pos :: 0 <= pos < |authIds| ==>
              UncheckedItem(authChecks, q, a, lay.authStart, |blocks|, numEvalAuths, authIds[pos])
  {
    PoolUnchecked(gateRows, gateChecks, q, a, lay.outKeysStart, q, numEvalGates, gatePerm, gateIds);
    PoolUnchecked(authRows, authChecks, q, a, lay.authStart, a, numEvalAuths, authPerm, authIds);
    var p := Pool(blocks, lay, q, a, gateIds, authIds);
    FlattenLength(gateRows, numEvalGates);
    FlattenLength(authRows, numEvalAuths);
    RowsIdsOk(gateRows, gateChecks, q, a, lay.outKeysStart, q, numEvalGates);
    FlattenIdsOk(gateRows, q, a, lay.outKeysStart, |blocks|, q);
    PlacedDistinct(gateRows, q, a, lay.outKeysStart);
    ScatterFacts(Flatten(gateRows), gatePerm, gateIds);
    RowsIdsOk(authRows, authChecks, q, a, lay.authStart, a, numEvalAuths);
    FlattenIdsOk(authRows, q, a, lay.authStart, |blocks|, a);
    PlacedDistinct(authRows, q, a, lay.authStart);
    ScatterFacts(Flatten(authRows), authPerm, authIds);
    forall pos | 0 <= pos < |gateIds|
      ensures GateIdOk(p, gateIds[pos])
    {
      assert gateIds[pos] in Flatten(gateRows);
    }
    forall pos | 0 <= pos < |authIds|
      ensures AuthIdOk(p, authIds[pos])
    {
      assert authIds[pos] in Flatten(authRows);
    }
  }

  /** `x` is the id of one of the first `width` unchecked items (by the
      masks `checks`) of one of the first `execs` executions. */
  predicate UncheckedItem(checks: seq<seq<bool>>, q: nat, a: nat, start: nat, execs: nat, width: nat, x: nat) {
    exists e, k :: 0 <= e < execs && e < |checks| && 0 <= k < width && k < |Positions(checks[e], false)|
                   && x == ItemId(e, q, a, start, Positions(checks[e], false)[k])
  }

  /** Lines 326-328 and 374-376 with 418-424: every scattered id is the id
      of one of its execution's first `width` unchecked items. */
  lemma PoolUnchecked(rows: seq<seq<nat>>, checks: seq<seq<bool>>, q: nat, a: nat, start: nat, n: nat, width: nat,
                      perm: seq<nat>, ids: seq<nat>)
    requires RowsRecorded(rows, checks, q, a, start, n, width)
    requires IsPermutation(perm, |Flatten(rows)|) && |ids| == |Flatten(rows)|
    requires forall i :: 0 <= i < |perm| ==> ids[perm[i]] == Flatten(rows)[i]
    ensures forall pos :: 0 <= pos < |ids| ==> UncheckedItem(checks, q, a, start, |rows|, width, ids[pos])
  {
    ScatterFacts(Flatten(rows), perm, ids);
    forall pos | 0 <= pos < |ids|
      ensures UncheckedItem(checks, q, a, start, |rows|, width, ids[pos])
    {
      FlattenMember(rows, ids[pos]);
      var e, k :| 0 <= e < |rows| && 0 <= k < |rows[e]| && rows[e][k] == ids[pos];
      RecordedEntry(rows, checks, q, a, start, n, width, e, k);
    }
  }

  /** One entry of a recorded row. */
  lemma RecordedEntry(rows: seq<seq<nat>>, checks: seq<seq<bool>>, q: nat, a: nat, start: nat, n: nat, width: nat,
                      e: nat, k: nat)
    requires RowsRecorded(rows, checks, q, a, start, n, width)
    requires e < |rows| && k < |rows[e]|
    ensures k < width && k < |Positions(checks[e], false)|
    ensures rows[e][k] == ItemId(e, q, a, start, Positions(checks[e], false)[k])
  {
  }

  /** Lines 376 and 418-419 (328 and 422-423): the `k`-th recorded id of
      execution `e`, its `k`-th unchecked item, sits at `width * e + k` of
      the shared array, and the scatter moves it to that position's image
      under the permutation. */
  lemma PoolStride(rows: seq<seq<nat>>, checks: seq<seq<bool>>, q: nat, a: nat, start: nat, n: nat, width: nat,
                   perm: seq<nat>, ids: seq<nat>)
    requires RowsRecorded(rows, checks, q, a, start, n, width)
    requires IsPermutation(perm, |Flatten(rows)|) && |ids| == |Flatten(rows)|
    requires forall i :: 0 <= i < |perm| ==> ids[perm[i]] == Flatten(rows)[i]
    ensures forall e, k :: 0 <= e < |rows| && 0 <= k < width ==>
              && StridePos(width, e, k) < |perm| && perm[StridePos(width, e, k)] < |ids|
              && ids[perm[StridePos(width, e, k)]] == ItemId(e, q, a, start, Positions(checks[e], false)[k])
  {
    forall e, k | 0 <= e < |rows| && 0 <= k < width
      ensures && StridePos(width, e, k) < |perm| && perm[StridePos(width, e, k)] < |ids|
              && ids[perm[StridePos(width, e, k)]] == ItemId(e, q, a, start, Positions(checks[e], false)[k])
    {
      StrideAt(rows, width, perm, ids, e, k);
    }
  }

  /** One entry of PoolStride: entry `k` of row `e` reaches the permuted
      position of `width * e + k`. */
  lemma StrideAt(rows: seq<seq<nat>>, width: nat, perm: seq<nat>, ids: seq<nat>, e: nat, k: nat)
    requires Uniform(rows, width) && e < |rows| && k < width
    requires IsPermutation(perm, |Flatten(rows)|) && |ids| == |Flatten(rows)|
    requires forall i :: 0 <= i < |perm| ==> ids[perm[i]] == Flatten(rows)[i]
    ensures StridePos(width, e, k) < |perm| && perm[StridePos(width, e, k)] < |ids| && ids[perm[StridePos(width, e, k)]] == rows[e][k]
  {
    FlattenIndex(rows, width);
  }

  /** Recorded rows name their own execution, an item below `bound`, and
      ascend. */
  lemma RowsIdsOk(rows: seq<seq<nat>>, checks: seq<seq<bool>>, q: nat, a: nat, start: nat, bound: nat, width: nat)
    requires bound <= q + a
    requires RowsRecorded(rows, checks, q, a, start, bound, width)
    ensures forall e, k :: 0 <= e < |rows| && 0 <= k < |rows[e]| ==>
              && start <= rows[e][k]
              && Locate(rows[e][k], q, a, start).0 == e
              && Locate(rows[e][k], q, a, start).1 < bound
    ensures forall e, k, l :: 0 <= e < |rows| && 0 <= k < l < |rows[e]| ==> rows[e][k] < rows[e][l]
  {
    forall e | 0 <= e < |rows|
      ensures forall k :: 0 <= k < |rows[e]| ==>
                && start <= rows[e][k]
                && Locate(rows[e][k], q, a, start).0 == e
                && Locate(rows[e][k], q, a, start).1 < bound
      ensures forall k, l :: 0 <= k < l < |rows[e]| ==> rows[e][k] < rows[e][l]
    {
      RecordedLocate(checks[e], e, q, a, start, rows[e]);
    }
  }
}
