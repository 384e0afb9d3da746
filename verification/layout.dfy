/** Fixed positions inside a commitment block, global gate/authenticator ids,
    and the errors that abort a run. */
module Layout {

  /** Slot offsets of one execution's commitment block. All executions use
      the same offsets: the garbler indexes other executions' blocks with its
      own offsets. */
  datatype SlotLayout = SlotLayout(
    leftKeysStart: nat,
    rightKeysStart: nat,
    outKeysStart: nat,
    authStart: nat,
    deltaPos: nat,
    otChosenStart: nat,
    outLsbBlindStart: nat,
    lsbBlindStart: nat)

  /** The fatal errors of the core; none is retryable. */
  datatype Error =
    | ReceiverCheating   // a received OT value is not what the OT produced
    | NotEnoughGates     // the preprocessed gate pool is exhausted
    | NotEnoughInputs    // the preprocessed input-authenticator pool is exhausted
    | NotEnoughOutputs   // the preprocessed output pool is exhausted

  datatype Result<T> = Ok(value: T) | Err(error: Error)

  /** Global id of item `i` of the kind whose slots start at `start` in
      execution `execId`, when every execution owns `q` gates and `a`
      authenticators: `exec_id * (Q + A) + start + i`. */
  function ItemId(execId: nat, q: nat, a: nat, start: nat, i: nat): nat {
    execId * (q + a) + start + i
  }

  /** The lookup of IDMap::GetExecIDAndIndex, which is not part of this
      model: the owning execution and the item index of a global id, for the
      kind whose slots start at `start`, found by stepping back one
      execution's worth of ids at a time. LocateDivMod shows it is the
      quotient and remainder by `q + a`. */
  function Locate(id: nat, q: nat, a: nat, start: nat): (r: (nat, nat))
    requires q + a > 0 && start <= id
    ensures r.1 < q + a
    decreases id - start
  {
    if id - start < q + a then (0, id - start)
    else
      var (e, i) := Locate(id - (q + a), q, a, start);
      (e + 1, i)
  }

  /** Looking up an id finds the execution and item it was built from. */
  lemma {:induction false} LocateItemId(execId: nat, q: nat, a: nat, start: nat, i: nat)
    requires i < q + a
    ensures start <= ItemId(execId, q, a, start, i)
    ensures Locate(ItemId(execId, q, a, start, i), q, a, start) == (execId, i)
  {
    if execId > 0 {
      LocateItemId(execId - 1, q, a, start, i);
      assert ItemId(execId, q, a, start, i) - (q + a) == ItemId(execId - 1, q, a, start, i) by {
        assert execId * (q + a) == (execId - 1) * (q + a) + (q + a);
      }
    }
  }

  /** The lookup is the quotient and remainder of the offset by `q + a`. */
  lemma {:induction false} LocateDivMod(id: nat, q: nat, a: nat, start: nat)
    requires q + a > 0 && start <= id
    ensures Locate(id, q, a, start) == ((id - start) / (q + a), (id - start) % (q + a))
    decreases id - start
  {
    var n := q + a;
    if id - start < n {
      DivModUnique(id - start, n, 0, id - start);
    } else {
      LocateDivMod(id - n, q, a, start);
      var (e, i) := Locate(id - n, q, a, start);
      assert id - start == (e + 1) * n + i by {
        assert id - n - start == e * n + i by {
          DivModUnique(id - n - start, n, (id - n - start) / n, (id - n - start) % n);
        }
      }
      DivModUnique(id - start, n, e + 1, i);
    }
  }

  lemma DivModUnique(x: nat, n: nat, d: nat, m: nat)
    requires n > 0 && m < n && x == d * n + m
    ensures x / n == d && x % n == m
  {
    var d', m' := x / n, x % n;
    if d' < d {
      MulStep(d', d, n);
    } else if d < d' {
      MulStep(d, d', n);
    }
  }

  lemma MulStep(a: nat, b: nat, n: nat)
    requires a < b
    ensures a * n + n <= b * n
  {
    var k := b - a;
    assert b * n == a * n + k * n by {
      assert b == a + k;
    }
    assert k * n >= n by {
      assert k >= 1;
    }
  }

  /** Distinct (execution, item) pairs get distinct global ids. */
  lemma ItemIdInjective(e1: nat, i1: nat, e2: nat, i2: nat, q: nat, a: nat, start: nat)
    requires i1 < q + a && i2 < q + a
    requires ItemId(e1, q, a, start, i1) == ItemId(e2, q, a, start, i2)
    ensures e1 == e2 && i1 == i2
  {
    LocateItemId(e1, q, a, start, i1);
    LocateItemId(e2, q, a, start, i2);
  }
}
