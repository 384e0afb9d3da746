/** Wire keys, the free-XOR offset and two-share commitment slots.

    A key (CSEC_BYTES = 16 bytes, 128 bits) is represented by the natural
    number whose binary digits are its bits; bit 0, the low bit, is the bit
    that GetLSB reads. XOR is defined digit by digit. Nothing in the core
    depends on the width, so keys are not bounded by 2^128.

    Every committed value of the garbler lives in a slot of a commitment
    block as two shares whose XOR is the value. Only the 128-bit key part of
    a share is modelled; the error-correcting check bits that the commitment
    scheme appends are XOR-linear and are dropped. */
module Keys {

  /** A key, share, offset or committed value. */
  type Key = nat

  const Zero: Key := 0

  /** Bitwise XOR (XOR_128): the low bits are XORed, the rest recursively. */
  function Xor(a: Key, b: Key): Key
    decreases a + b
  {
    if a == 0 && b == 0 then 0 else 2 * Xor(a / 2, b / 2) + (a % 2 + b % 2) % 2
  }

  /** A commitment slot: the two shares held by the garbler. */
  datatype Share = Share(s0: Key, s1: Key) {
    /** The committed value. */
    function Value(): Key {
      Xor(s0, s1)
    }
  }

  /** The all-zero slot, which commits to the zero key. */
  const ZeroShare := Share(Zero, Zero)

  /** The key that encodes bit `b` on a wire whose 0-key is `k`. */
  function Adj(k: Key, b: bool, delta: Key): Key {
    Xor(k, if b then delta else Zero)
  }

  /** Least significant bit of a key (the point-and-permute bit). */
  predicate Lsb(k: Key) {
    k % 2 == 1
  }

  /** A key is its low bit plus twice the rest. */
  lemma Halves(x: nat, bit: nat)
    requires bit < 2
    ensures (2 * x + bit) / 2 == x && (2 * x + bit) % 2 == bit
  {
  }

  /** The low bit and the remaining bits of a XOR. */
  lemma XorDigits(a: Key, b: Key)
    ensures Lsb(Xor(a, b)) == (Lsb(a) != Lsb(b))
    ensures Xor(a, b) / 2 == Xor(a / 2, b / 2)
  {
    if a == 0 && b == 0 {
      assert Xor(a / 2, b / 2) == 0;
    } else {
      Halves(Xor(a / 2, b / 2), (a % 2 + b % 2) % 2);
    }
  }

  lemma {:induction false} XorComm(a: Key, b: Key)
    ensures Xor(a, b) == Xor(b, a)
    decreases a + b
  {
    if a != 0 || b != 0 {
      XorComm(a / 2, b / 2);
    }
  }

  lemma {:induction false} XorZero(a: Key)
    ensures Xor(a, Zero) == a && Xor(Zero, a) == a
  {
    if a != 0 {
      XorZero(a / 2);
      XorComm(a, Zero);
    }
  }

  lemma {:induction false} XorSelf(a: Key)
    ensures Xor(a, a) == Zero
  {
    if a != 0 {
      XorSelf(a / 2);
    }
  }

  /** A key is fixed by its low bit and the rest. */
  lemma Digits(x: Key, y: Key)
    requires Lsb(x) == Lsb(y) && x / 2 == y / 2
    ensures x == y
  {
  }

  lemma {:induction false} XorAssoc(a: Key, b: Key, c: Key)
    ensures Xor(Xor(a, b), c) == Xor(a, Xor(b, c))
    decreases a + b + c
  {
    if a != 0 || b != 0 || c != 0 {
      var ab, bc := Xor(a, b), Xor(b, c);
      var x, y := Xor(ab, c), Xor(a, bc);
      XorDigits(a, b);
      XorDigits(ab, c);
      XorDigits(b, c);
      XorDigits(a, bc);
      assert x / 2 == Xor(Xor(a / 2, b / 2), c / 2);
      assert y / 2 == Xor(a / 2, Xor(b / 2, c / 2));
      XorAssoc(a / 2, b / 2, c / 2);
      Digits(x, y);
    }
  }

  lemma XorCancel(a: Key, b: Key)
    ensures Xor(Xor(a, b), b) == a
    ensures Xor(b, Xor(b, a)) == a
  {
    XorAssoc(a, b, b);
    XorSelf(b);
    XorZero(a);
    XorAssoc(b, b, a);
  }

  /** Regrouping four keys: (a ^ b) ^ (c ^ d) == (a ^ c) ^ (b ^ d). */
  lemma XorSwap(a: Key, b: Key, c: Key, d: Key)
    ensures Xor(Xor(a, b), Xor(c, d)) == Xor(Xor(a, c), Xor(b, d))
  {
    XorAssoc(a, b, Xor(c, d));
    XorAssoc(b, c, d);
    XorComm(b, c);
    XorAssoc(c, b, d);
    XorAssoc(a, c, Xor(b, d));
  }

  /** Slot-wise XOR of two slots, as XOR_CodeWords combines decommitment
      shares: the result commits to the XOR of the two committed values. */
  function ShareXor(a: Share, b: Share): (r: Share)
    ensures r.Value() == Xor(a.Value(), b.Value())
  {
    XorSwap(a.s0, b.s0, a.s1, b.s1);
    Share(Xor(a.s0, b.s0), Xor(a.s1, b.s1))
  }

  /** The slot `a`, XORed with the Δ slot `d` exactly when `b` is set. */
  function AdjShare(a: Share, b: bool, d: Share): (r: Share)
    ensures r.Value() == Adj(a.Value(), b, d.Value())
    ensures !b ==> r == a
  {
    XorZero(a.Value());
    if b then ShareXor(a, d) else a
  }

  /** The XOR of the share LSBs is the LSB of the committed value. */
  lemma LsbOfValue(sh: Share)
    ensures Lsb(sh.Value()) == (Lsb(sh.s0) != Lsb(sh.s1))
  {
    XorDigits(sh.s0, sh.s1);
  }

  /** LSB is XOR-linear. */
  lemma LsbXor(a: Key, b: Key)
    ensures Lsb(Xor(a, b)) == (Lsb(a) != Lsb(b))
  {
    XorDigits(a, b);
  }

  /** Adjusting twice by Δ is adjusting by the XOR of the bits. */
  lemma AdjTwice(k: Key, b: bool, c: bool, delta: Key)
    ensures Adj(Adj(k, b, delta), c, delta) == Adj(k, b != c, delta)
  {
    XorZero(k);
    XorZero(Xor(k, delta));
    XorCancel(k, delta);
  }

  /** The two keys of a wire differ exactly when Δ is not zero. */
  lemma AdjDistinct(k: Key, delta: Key)
    ensures Adj(k, false, delta) != Adj(k, true, delta) <==> delta != Zero
  {
    XorZero(k);
    if Xor(k, delta) == k {
      XorCancel(delta, k);
      XorComm(k, delta);
      XorSelf(k);
    }
  }
}
