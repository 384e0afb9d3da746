/** Bucketing (src/tiny/tiny-constructor.cpp, Preprocess, lines 55-59,
    326-328, 374-376 and 403-424).

    Every execution writes the ids of its first `num_eval` unchecked gates
    (authenticators) into its own row of a shared array, at
    `num_eval * exec_id + k`. After all executions finish, the rows are
    scattered by a random permutation: `eval_ids[perm[i]] = tmp[i]`.
    Consecutive runs of the permuted array form the buckets. PermuteArray
    and the PRNG seeding it are not part of this model: the permutation is
    an input. */
module Bucketing {
  import opened Layout
  import opened Masks
  import opened Rows

  /** `perm` rearranges `0 .. n-1`. */
  predicate IsPermutation(perm: seq<nat>, n: nat) {
    && |perm| == n
    && (forall i :: 0 <= i < n ==> perm[i] < n)
    && (forall i, j :: 0 <= i < j < n ==> perm[i] != perm[j])
  }

  predicate Distinct(s: seq<nat>) {
    forall i, j :: 0 <= i < j < |s| ==> s[i] != s[j]
  }

  /** The values of the first `m` entries of an injective sequence. */
  lemma {:induction false} ImageCard(perm: seq<nat>, m: nat)
    requires m <= |perm|
    requires forall i, j :: 0 <= i < j < m ==> perm[i] != perm[j]
    ensures |set i | 0 <= i < m :: perm[i]| == m
  {
    if m > 0 {
      ImageCard(perm, m - 1);
      var before := set i | 0 <= i < m - 1 :: perm[i];
      assert (set i | 0 <= i < m :: perm[i]) == before + {perm[m - 1]};
      assert perm[m - 1] !in before;
    }
  }

  /** The positions `0 .. n-1`. */
  function Upto(n: nat): (r: set<nat>)
    ensures |r| == n
    ensures forall p: nat :: p in r <==> p < n
  {
    if n == 0 then {} else Upto(n - 1) + {n - 1}
  }

  lemma {:induction false} SubsetCard(a: set<nat>, b: set<nat>)
    requires a <= b
    ensures |a| <= |b|
    decreases |b|
  {
    if a != {} {
      var x :| x in a;
      SubsetCard(a - {x}, b - {x});
    }
  }

  /** A permutation reaches every position. */
  lemma PermutationOnto(perm: seq<nat>, n: nat)
    requires IsPermutation(perm, n)
    ensures forall p :: 0 <= p < n ==> p in perm
  {
    var image := set i | 0 <= i < n :: perm[i];
    ImageCard(perm, n);
    forall p | 0 <= p < n
      ensures p in perm
    {
      if p !in image {
        assert image <= Upto(n) - {p};
        SubsetCard(image, Upto(n) - {p});
        assert false;
      }
    }
  }

  /** Lines 418-424: `eval_ids[perm[i]] = tmp[i]` for every `i`. The target
      array starts zeroed. */
  method Scatter(tmp: seq<nat>, perm: seq<nat>) returns (r: seq<nat>)
    requires IsPermutation(perm, |tmp|)
    ensures |r| == |tmp|
    ensures forall i :: 0 <= i < |tmp| ==> r[perm[i]] == tmp[i]
    // ids that were distinct stay distinct
    ensures Distinct(tmp) ==> Distinct(r)
  {
    r := seq(|tmp|, _ => 0);
    var n := 0;
    while n < |tmp|
      invariant 0 <= n <= |tmp| && |r| == |tmp|
      invariant forall j :: 0 <= j < n ==> r[perm[j]] == tmp[j]
    {
      r := r[perm[n] := tmp[n]];
      n := n + 1;
    }
    ScatterFacts(tmp, perm, r);
  }

  /** What any array satisfying the scatter equations holds: only entries of
      `tmp`, and no entry twice when `tmp` has none twice. */
  lemma ScatterFacts(tmp: seq<nat>, perm: seq<nat>, r: seq<nat>)
    requires IsPermutation(perm, |tmp|) && |r| == |tmp|
    requires forall i :: 0 <= i < |tmp| ==> r[perm[i]] == tmp[i]
    ensures forall p :: 0 <= p < |r| ==> r[p] in tmp
    ensures Distinct(tmp) ==> Distinct(r)
  {
    PermutationOnto(perm, |tmp|);
    forall p | 0 <= p < |r|
      ensures r[p] in tmp
    {
      assert p in perm;
      var i :| 0 <= i < |tmp| && perm[i] == p;
      assert r[p] == tmp[i];
    }
    if Distinct(tmp) {
      forall p1, p2 | 0 <= p1 < p2 < |r|
        ensures r[p1] != r[p2]
      {
        assert p1 in perm && p2 in perm;
        var i1 :| 0 <= i1 < |tmp| && perm[i1] == p1;
        var i2 :| 0 <= i2 < |tmp| && perm[i2] == p2;
        if i1 < i2 {
          assert tmp[i1] != tmp[i2];
        } else {
          assert tmp[i2] != tmp[i1];
        }
      }
    }
  }

  /** The ids recorded by one execution's cut-and-choose name that
      execution and an unchecked item of it, in ascending order. */
  lemma RecordedLocate(check: seq<bool>, execId: nat, q: nat, a: nat, start: nat, ids: seq<nat>)
    requires |check| <= q + a
    requires |ids| <= |Positions(check, false)|
    requires forall k :: 0 <= k < |ids| ==> ids[k] == ItemId(execId, q, a, start, Positions(check, false)[k])
    ensures forall k :: 0 <= k < |ids| ==>
              && start <= ids[k]
              && Locate(ids[k], q, a, start) == (execId, Positions(check, false)[k])
              && Positions(check, false)[k] < |check|
              && !check[Positions(check, false)[k]]
    ensures forall k, l :: 0 <= k < l < |ids| ==> ids[k] < ids[l]
  {
    PositionsSpec(check, false);
    forall k | 0 <= k < |ids|
      ensures start <= ids[k] && Locate(ids[k], q, a, start) == (execId, Positions(check, false)[k])
    {
      LocateItemId(execId, q, a, start, Positions(check, false)[k]);
    }
  }

  /** The shared id array holds no id twice when every execution's row names
      that execution and is ascending. */
  lemma {:induction false} PlacedDistinct(rows: seq<seq<nat>>, q: nat, a: nat, start: nat)
    requires q + a > 0
    requires forall e, k :: 0 <= e < |rows| && 0 <= k < |rows[e]| ==>
               start <= rows[e][k] && Locate(rows[e][k], q, a, start).0 == e
    requires forall e, k, l :: 0 <= e < |rows| && 0 <= k < l < |rows[e]| ==> rows[e][k] < rows[e][l]
    ensures forall x :: x in Flatten(rows) ==> start <= x && Locate(x, q, a, start).0 < |rows|
    ensures Distinct(Flatten(rows))
    decreases |rows|
  {
    if |rows| > 0 {
      var init, last := rows[..|rows| - 1], rows[|rows| - 1];
      PlacedDistinct(init, q, a, start);
      var f := Flatten(init);
      assert Flatten(rows) == f + last;
      forall i, j | 0 <= i < j < |f + last|
        ensures (f + last)[i] != (f + last)[j]
      {
        if j < |f| {
          assert (f + last)[i] == f[i] && (f + last)[j] == f[j];
        } else if i < |f| {
          assert f[i] in f;
          assert Locate(last[j - |f|], q, a, start).0 == |rows| - 1;
        } else {
          assert last[i - |f|] < last[j - |f|];
        }
      }
    }
  }

  /** Every id in the shared array names an existing execution and an item
      index below `bound` when every recorded row does. */
  lemma {:induction false} FlattenIdsOk(rows: seq<seq<nat>>, q: nat, a: nat, start: nat, numExecs: nat, bound: nat)
    requires q + a > 0
    requires forall e, k :: 0 <= e < |rows| && 0 <= k < |rows[e]| ==>
               && start <= rows[e][k]
               && Locate(rows[e][k], q, a, start).0 < numExecs
               && Locate(rows[e][k], q, a, start).1 < bound
    ensures forall x :: x in Flatten(rows) ==>
              start <= x && Locate(x, q, a, start).0 < numExecs && Locate(x, q, a, start).1 < bound
    decreases |rows|
  {
    if |rows| > 0 {
      var init, last := rows[..|rows| - 1], rows[|rows| - 1];
      FlattenIdsOk(init, q, a, start, numExecs, bound);
      assert Flatten(rows) == Flatten(init) + last;
      forall x | x in Flatten(rows)
        ensures start <= x && Locate(x, q, a, start).0 < numExecs && Locate(x, q, a, start).1 < bound
      {
        if x !in Flatten(init) {
          var k :| 0 <= k < |last| && last[k] == x;
          assert rows[|rows| - 1][k] == x;
        }
      }
    }
  }
}
