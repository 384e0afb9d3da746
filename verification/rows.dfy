/** Rows of equal width laid end to end in one flat buffer: the layout of
    the per-execution eval-id arrays and of the per-bucket solderings. */
module Rows {

  /** The rows concatenated in order. */
  function Flatten<T>(rows: seq<seq<T>>): (r: seq<T>)
    decreases |rows|
  {
    if |rows| == 0 then [] else Flatten(rows[..|rows| - 1]) + rows[|rows| - 1]
  }

  predicate Uniform<T>(rows: seq<seq<T>>, width: nat) {
    forall e :: 0 <= e < |rows| ==> |rows[e]| == width
  }

  /** Entry `k` of row `e`'s stride in the flat buffer. */
  function StridePos(width: nat, e: nat, k: nat): nat {
    width * e + k
  }

  /** Entry `k` of row `e` sits at `width * e + k`. */
  lemma FlattenIndex<T>(rows: seq<seq<T>>, width: nat)
    requires Uniform(rows, width)
    ensures |Flatten(rows)| == width * |rows|
    ensures forall e, k :: 0 <= e < |rows| && 0 <= k < width ==>
              StridePos(width, e, k) < |Flatten(rows)| && Flatten(rows)[StridePos(width, e, k)] == rows[e][k]
  {
    FlattenLength(rows, width);
    forall e, k | 0 <= e < |rows| && 0 <= k < width
      ensures StridePos(width, e, k) < |Flatten(rows)| && Flatten(rows)[StridePos(width, e, k)] == rows[e][k]
    {
      FlattenAt(rows, width, e, k);
    }
  }

  /** The flat buffer is `width` entries per row. */
  lemma {:induction false} FlattenLength<T>(rows: seq<seq<T>>, width: nat)
    requires Uniform(rows, width)
    ensures |Flatten(rows)| == width * |rows|
    decreases |rows|
  {
    if |rows| > 0 {
      var init := rows[..|rows| - 1];
      FlattenLength(init, width);
      assert width * |rows| == width * |init| + width;
    }
  }

  /** One entry of FlattenIndex. */
  lemma {:induction false} FlattenAt<T>(rows: seq<seq<T>>, width: nat, e: nat, k: nat)
    requires Uniform(rows, width) && e < |rows| && k < width
    ensures StridePos(width, e, k) < |Flatten(rows)| && Flatten(rows)[StridePos(width, e, k)] == rows[e][k]
    decreases |rows|
  {
    var init := rows[..|rows| - 1];
    FlattenLength(init, width);
    FlattenLength(rows, width);
    if e < |init| {
      FlattenAt(init, width, e, k);
      assert rows[e] == init[e];
    } else {
      assert width * e == width * |init|;
    }
  }

  /** Every entry of the flat buffer is an entry of some row. */
  lemma {:induction false} FlattenMember<T>(rows: seq<seq<T>>, x: T)
    requires x in Flatten(rows)
    ensures exists e, k :: 0 <= e < |rows| && 0 <= k < |rows[e]| && rows[e][k] == x
    decreases |rows|
  {
    var init, last := rows[..|rows| - 1], rows[|rows| - 1];
    if x in Flatten(init) {
      FlattenMember(init, x);
      var e, k :| 0 <= e < |init| && 0 <= k < |init[e]| && init[e][k] == x;
      assert rows[e] == init[e];
    } else {
      var k :| 0 <= k < |last| && last[k] == x;
      assert rows[|rows| - 1][k] == x;
    }
  }

  lemma RowBound(e: nat, k: nat, n: nat, width: nat)
    requires e < n && k < width
    ensures width * e + k < width * n
  {
    MulMono(width, e + 1, n);
    assert width * (e + 1) == width * e + width;
  }

  /** Multiplication by a natural number is monotone. */
  lemma {:induction false} MulMono(w: nat, x: nat, y: nat)
    requires x <= y
    ensures w * x <= w * y
    decreases y - x
  {
    if x < y {
      MulMono(w, x, y - 1);
      assert w * y == w * (y - 1) + w;
    }
  }
}
