/** Pre-soldering of buckets (src/tiny/tiny-constructor.cpp, Preprocess,
    lines 431-626).

    A bucket is a run of consecutive pool positions; its first item is the
    head. For every other item (a follower) the garbler sends the XOR of the
    follower's committed 0-key and the head's, and stages a decommitment of
    that XOR: the follower's slot XORed share-wise with the head's. The
    batched decommitment (BatchDecommit) and the channel are not part of this
    model; the staged slots are its input, and the sent keys are the
    channel's payload. */
module Soldering {
  import opened Keys
  import opened Layout
  import opened Rows
  import opened Lookup
  import opened CutAndChoose

  /** One soldering: the sent key and the slot staged to open it. */
  datatype Soldering = Soldering(key: Key, decommit: Share)

  /** `s` solders `follower` onto `head`: its decommitment opens the sent
      key, and the sent key moves the follower's committed key to the
      head's. */
  predicate SolderedOnto(s: Soldering, follower: Share, head: Share) {
    && s.decommit.Value() == s.key
    && Xor(follower.Value(), s.key) == head.Value()
  }

  /** Lines 493-500: the XOR of the two committed keys, staged as the
      share-wise XOR of the two slots. */
  function Solder(follower: Share, head: Share): (r: Soldering)
    ensures SolderedOnto(r, follower, head)
    ensures Xor(head.Value(), r.key) == follower.Value()
  {
    XorCancel(head.Value(), follower.Value());
    XorComm(head.Value(), follower.Value());
    XorCancel(follower.Value(), head.Value());
    Soldering(Xor(follower.Value(), head.Value()), ShareXor(follower, head))
  }

  /** The solderings that satisfy the soldered-onto condition are exactly
      the ones whose key is the XOR of the two committed keys. */
  lemma SolderedKey(s: Soldering, follower: Share, head: Share)
    requires s.decommit.Value() == s.key
    ensures SolderedOnto(s, follower, head) <==> s.key == Solder(follower, head).key
  {
    XorCancel(s.key, follower.Value());
    XorComm(s.key, follower.Value());
    XorCancel(follower.Value(), head.Value());
    XorComm(follower.Value(), head.Value());
    XorCancel(head.Value(), follower.Value());
  }

  /** What soldering buys the evaluator: the key it holds for bit `b` on
      the follower's wire, XORed with the soldering, is the head's key for
      the same bit. */
  lemma SolderTranslates(s: Soldering, follower: Share, head: Share, b: bool, delta: Key)
    requires SolderedOnto(s, follower, head)
    ensures Xor(Adj(follower.Value(), b, delta), s.key) == Adj(head.Value(), b, delta)
  {
    var d := if b then delta else Zero;
    XorAssoc(follower.Value(), d, s.key);
    XorComm(d, s.key);
    XorAssoc(follower.Value(), s.key, d);
  }

  /** Every follower of one bucket soldered onto its head, in order. */
  function SolderAll(head: Share, followers: seq<Share>): (r: seq<Soldering>)
    ensures |r| == |followers|
    ensures forall j {:trigger r[j]} :: 0 <= j < |r| ==> SolderedOnto(r[j], followers[j], head)
  {
    seq(|followers|, j requires 0 <= j < |followers| => Solder(followers[j], head))
  }

  /** Every staged slot opens its own sent key. */
  predicate RowsOpen(rows: seq<seq<Soldering>>) {
    forall k, j :: 0 <= k < |rows| && 0 <= j < |rows[k]| ==> rows[k][j].decommit.Value() == rows[k][j].key
  }

  /** Lines 476-478, 548-550 and 602-604: bucket `i` of `size` items whose
      run starts at `base` has its head at `base + i * size`. */
  function HeadPositions(base: nat, size: nat, from: nat, to: nat): (r: seq<nat>)
    requires from <= to
    ensures |r| == to - from
    ensures forall k :: 0 <= k < |r| ==> r[k] == base + (from + k) * size
  {
    seq(to - from, k requires 0 <= k < to - from => base + (from + k) * size)
  }

  /** Every bucket headed in `heads` lies inside the first `n` positions. */
  predicate HeadsFit(heads: seq<nat>, size: nat, n: nat) {
    forall k :: 0 <= k < |heads| ==> heads[k] + size <= n
  }

  /** Buckets `from .. to-1` of a run of `size`-item buckets fit when the
      whole run of `total` buckets does. */
  lemma {:induction false} HeadsFitRange(base: nat, size: nat, from: nat, to: nat, total: nat, n: nat)
    requires from <= to <= total && base + total * size <= n
    ensures HeadsFit(HeadPositions(base, size, from, to), size, n)
  {
    var h := HeadPositions(base, size, from, to);
    MulMono(size, to, total);
    forall k | 0 <= k < |h|
      ensures h[k] + size <= n
    {
      MulMono(size, from + k + 1, to);
      assert (from + k + 1) * size == (from + k) * size + size;
    }
  }

  /** The slots of wire `w` of the `n` gates from pool position `start`. */
  function GateRun(p: Pool, start: nat, n: nat, w: Wire): (r: seq<Share>)
    requires PoolOk(p) && start + n <= |p.gateIds|
    ensures |r| == n
    ensures forall j :: 0 <= j < n ==> r[j] == GateSlot(p, start + j, w)
  {
    seq(n, j requires 0 <= j < n => GateSlot(p, start + j, w))
  }

  /** The slots of the `n` authenticators from pool position `start`. */
  function AuthRun(p: Pool, start: nat, n: nat): (r: seq<Share>)
    requires PoolOk(p) && start + n <= |p.authIds|
    ensures |r| == n
    ensures forall j :: 0 <= j < n ==> r[j] == AuthSlot(p, start + j)
  {
    seq(n, j requires 0 <= j < n => AuthSlot(p, start + j))
  }

  /** Lines 484-524 and 557-594, one wire: the followers of each gate bucket
      soldered onto its head on wire `w`, bucket by bucket. */
  function GateBuckets(p: Pool, heads: seq<nat>, size: nat, w: Wire): (r: seq<seq<Soldering>>)
    requires PoolOk(p) && size >= 1 && HeadsFit(heads, size, |p.gateIds|)
    ensures |r| == |heads|
    ensures forall k :: 0 <= k < |r| ==> |r[k]| == size - 1
    ensures forall k, j :: 0 <= k < |heads| && 0 <= j < size - 1 ==>
              SolderedOnto(r[k][j], GateSlot(p, heads[k] + 1 + j, w), GateSlot(p, heads[k], w))
    ensures RowsOpen(r)
  {
    seq(|heads|, k requires 0 <= k < |heads| =>
      SolderAll(GateSlot(p, heads[k], w), GateRun(p, heads[k] + 1, size - 1, w)))
  }

  /** Lines 528-543: the `na` authenticators from `authHeads[k]` on soldered
      onto the output key of the gate headed at `gateHeads[k]`. */
  function AuthBuckets(p: Pool, gateHeads: seq<nat>, authHeads: seq<nat>, na: nat): (r: seq<seq<Soldering>>)
    requires PoolOk(p) && |gateHeads| == |authHeads|
    requires HeadsFit(gateHeads, 1, |p.gateIds|) && HeadsFit(authHeads, na, |p.authIds|)
    ensures |r| == |gateHeads|
    ensures forall k :: 0 <= k < |r| ==> |r[k]| == na
    ensures forall k, j :: 0 <= k < |gateHeads| && 0 <= j < na ==>
              SolderedOnto(r[k][j], AuthSlot(p, authHeads[k] + j), GateSlot(p, gateHeads[k], Out))
    ensures RowsOpen(r)
  {
    seq(|gateHeads|, k requires 0 <= k < |gateHeads| =>
      SolderAll(GateSlot(p, gateHeads[k], Out), AuthRun(p, authHeads[k], na)))
  }

  /** Lines 602-623: the other authenticators of each input bucket soldered
      onto its head authenticator. */
  function InputAuthBuckets(p: Pool, heads: seq<nat>, size: nat): (r: seq<seq<Soldering>>)
    requires PoolOk(p) && size >= 1 && HeadsFit(heads, size, |p.authIds|)
    ensures |r| == |heads|
    ensures forall k :: 0 <= k < |r| ==> |r[k]| == size - 1
    ensures forall k, j :: 0 <= k < |heads| && 0 <= j < size - 1 ==>
              SolderedOnto(r[k][j], AuthSlot(p, heads[k] + 1 + j), AuthSlot(p, heads[k]))
    ensures RowsOpen(r)
  {
    seq(|heads|, k requires 0 <= k < |heads| =>
      SolderAll(AuthSlot(p, heads[k]), AuthRun(p, heads[k] + 1, size - 1)))
  }

  /** The bucket parameters: gate and input-gate bucket sizes, the
      authenticators per gate bucket and per input, and the global pool
      counts. */
  datatype Shape = Shape(numBucket: nat, numInpBucket: nat, numAuth: nat, numInpAuth: nat,
                         numPreGates: nat, numPreInputs: nat)

  /** One execution's share of the buckets (lines 434-439): gate buckets,
      input-gate buckets and input-authenticator buckets, each a range. */
  datatype Ranges = Ranges(gaFrom: nat, gaTo: nat, giFrom: nat, giTo: nat, inpFrom: nat, inpTo: nat)

  /** The pool holds every bucket the global counts name. */
  predicate ShapeFits(p: Pool, sh: Shape) {
    && sh.numBucket >= 1 && sh.numInpBucket >= 1 && sh.numInpAuth >= 1
    && sh.numPreGates * sh.numBucket + (sh.numPreInputs / 2) * sh.numInpBucket <= |p.gateIds|
    && sh.numPreGates * sh.numAuth + sh.numPreInputs * sh.numInpAuth <= |p.authIds|
  }

  predicate RangesOk(sh: Shape, rg: Ranges) {
    && rg.gaFrom <= rg.gaTo <= sh.numPreGates
    && rg.giFrom <= rg.giTo <= sh.numPreInputs / 2
    && rg.inpFrom <= rg.inpTo <= sh.numPreInputs
  }

  function GateHeads(sh: Shape, rg: Ranges): seq<nat>
    requires RangesOk(sh, rg)
  {
    HeadPositions(0, sh.numBucket, rg.gaFrom, rg.gaTo)
  }

  function InputGateHeads(sh: Shape, rg: Ranges): seq<nat>
    requires RangesOk(sh, rg)
  {
    HeadPositions(sh.numPreGates * sh.numBucket, sh.numInpBucket, rg.giFrom, rg.giTo)
  }

  function AuthHeads(sh: Shape, rg: Ranges): seq<nat>
    requires RangesOk(sh, rg)
  {
    HeadPositions(0, sh.numAuth, rg.gaFrom, rg.gaTo)
  }

  function InputAuthHeads(sh: Shape, rg: Ranges): seq<nat>
    requires RangesOk(sh, rg)
  {
    HeadPositions(sh.numPreGates * sh.numAuth, sh.numInpAuth, rg.inpFrom, rg.inpTo)
  }

  /** Every bucket one execution solders lies inside the pool. */
  lemma HeadsInPool(p: Pool, sh: Shape, rg: Ranges)
    requires ShapeFits(p, sh) && RangesOk(sh, rg)
    ensures HeadsFit(GateHeads(sh, rg), sh.numBucket, |p.gateIds|)
    ensures HeadsFit(GateHeads(sh, rg), 1, |p.gateIds|)
    ensures HeadsFit(InputGateHeads(sh, rg), sh.numInpBucket, |p.gateIds|)
    ensures HeadsFit(AuthHeads(sh, rg), sh.numAuth, |p.authIds|)
    ensures HeadsFit(InputAuthHeads(sh, rg), sh.numInpAuth, |p.authIds|)
  {
    HeadsFitRange(0, sh.numBucket, rg.gaFrom, rg.gaTo, sh.numPreGates, |p.gateIds|);
    HeadsFitRange(sh.numPreGates * sh.numBucket, sh.numInpBucket, rg.giFrom, rg.giTo, sh.numPreInputs / 2, |p.gateIds|);
    HeadsFitRange(0, sh.numAuth, rg.gaFrom, rg.gaTo, sh.numPreGates, |p.authIds|);
    HeadsFitRange(sh.numPreGates * sh.numAuth, sh.numInpAuth, rg.inpFrom, rg.inpTo, sh.numPreInputs, |p.authIds|);
  }

  /** Everything one execution solders, bucket by bucket, per region. */
  datatype PreSolder = PreSolder(
    gateLeft: seq<seq<Soldering>>, gateRight: seq<seq<Soldering>>, gateOut: seq<seq<Soldering>>,
    inpLeft: seq<seq<Soldering>>, inpRight: seq<seq<Soldering>>, inpOut: seq<seq<Soldering>>,
    auths: seq<seq<Soldering>>, inpAuths: seq<seq<Soldering>>)

  /** Lines 443-623: one execution's pre-solderings, region by region and
      bucket by bucket. PreSolderingsGates and PreSolderingsInputs say what
      each soldering joins. */
  function PreSolderings(p: Pool, sh: Shape, rg: Ranges): (r: PreSolder)
    requires PoolOk(p) && ShapeFits(p, sh) && RangesOk(sh, rg)
    ensures |r.gateLeft| == |r.gateRight| == |r.gateOut| == |r.auths| == rg.gaTo - rg.gaFrom
    ensures |r.inpLeft| == |r.inpRight| == |r.inpOut| == rg.giTo - rg.giFrom
    ensures |r.inpAuths| == rg.inpTo - rg.inpFrom
    ensures Uniform(r.gateLeft, sh.numBucket - 1) && Uniform(r.gateRight, sh.numBucket - 1)
    ensures Uniform(r.gateOut, sh.numBucket - 1) && Uniform(r.auths, sh.numAuth)
    ensures Uniform(r.inpLeft, sh.numInpBucket - 1) && Uniform(r.inpRight, sh.numInpBucket - 1)
    ensures Uniform(r.inpOut, sh.numInpBucket - 1) && Uniform(r.inpAuths, sh.numInpAuth - 1)
    ensures RowsOpen(r.gateLeft) && RowsOpen(r.gateRight) && RowsOpen(r.gateOut)
    ensures RowsOpen(r.inpLeft) && RowsOpen(r.inpRight) && RowsOpen(r.inpOut)
    ensures RowsOpen(r.auths) && RowsOpen(r.inpAuths)
  {
    HeadsInPool(p, sh, rg);
    var gh, ih := GateHeads(sh, rg), InputGateHeads(sh, rg);
    PreSolder(
      GateBuckets(p, gh, sh.numBucket, Left), GateBuckets(p, gh, sh.numBucket, Right), GateBuckets(p, gh, sh.numBucket, Out),
      GateBuckets(p, ih, sh.numInpBucket, Left), GateBuckets(p, ih, sh.numInpBucket, Right), GateBuckets(p, ih, sh.numInpBucket, Out),
      AuthBuckets(p, gh, AuthHeads(sh, rg), sh.numAuth),
      InputAuthBuckets(p, InputAuthHeads(sh, rg), sh.numInpAuth))
  }

  /** Lines 476-543: gate bucket `gaFrom + k` has its head at
      `(gaFrom + k) * numBucket` (GateHeads); each follower is soldered onto
      the head on all three wires, and the `numAuth` authenticators from
      `(gaFrom + k) * numAuth` (AuthHeads) onto the head's output key. */
  lemma PreSolderingsGates(p: Pool, sh: Shape, rg: Ranges)
    requires PoolOk(p) && ShapeFits(p, sh) && RangesOk(sh, rg)
    ensures forall k, j :: 0 <= k < rg.gaTo - rg.gaFrom && 0 <= j < sh.numBucket - 1 ==>
              var r, h := PreSolderings(p, sh, rg), GateHeads(sh, rg)[k];
              && h + sh.numBucket <= |p.gateIds|
              && SolderedOnto(r.gateLeft[k][j], GateSlot(p, h + 1 + j, Left), GateSlot(p, h, Left))
              && SolderedOnto(r.gateRight[k][j], GateSlot(p, h + 1 + j, Right), GateSlot(p, h, Right))
              && SolderedOnto(r.gateOut[k][j], GateSlot(p, h + 1 + j, Out), GateSlot(p, h, Out))
    ensures forall k, j :: 0 <= k < rg.gaTo - rg.gaFrom && 0 <= j < sh.numAuth ==>
              var r, h, ah := PreSolderings(p, sh, rg), GateHeads(sh, rg)[k], AuthHeads(sh, rg)[k];
              && h < |p.gateIds| && ah + sh.numAuth <= |p.authIds|
              && SolderedOnto(r.auths[k][j], AuthSlot(p, ah + j), GateSlot(p, h, Out))
  {
    HeadsInPool(p, sh, rg);
  }

  /** Lines 548-623: input-gate bucket `giFrom + k` heads after all gate
      buckets (InputGateHeads), input-authenticator bucket `inpFrom + k`
      after all bucket authenticators (InputAuthHeads); every follower is
      soldered onto its head. */
  lemma PreSolderingsInputs(p: Pool, sh: Shape, rg: Ranges)
    requires PoolOk(p) && ShapeFits(p, sh) && RangesOk(sh, rg)
    ensures forall k, j :: 0 <= k < rg.giTo - rg.giFrom && 0 <= j < sh.numInpBucket - 1 ==>
              var r, h := PreSolderings(p, sh, rg), InputGateHeads(sh, rg)[k];
              && h + sh.numInpBucket <= |p.gateIds|
              && SolderedOnto(r.inpLeft[k][j], GateSlot(p, h + 1 + j, Left), GateSlot(p, h, Left))
              && SolderedOnto(r.inpRight[k][j], GateSlot(p, h + 1 + j, Right), GateSlot(p, h, Right))
              && SolderedOnto(r.inpOut[k][j], GateSlot(p, h + 1 + j, Out), GateSlot(p, h, Out))
    ensures forall k, j :: 0 <= k < rg.inpTo - rg.inpFrom && 0 <= j < sh.numInpAuth - 1 ==>
              var r, h := PreSolderings(p, sh, rg), InputAuthHeads(sh, rg)[k];
              && h + sh.numInpAuth <= |p.authIds|
              && SolderedOnto(r.inpAuths[k][j], AuthSlot(p, h + 1 + j), AuthSlot(p, h))
  {
    HeadsInPool(p, sh, rg);
  }

  /** Every soldering of a sequence is opened by its own staged slot. */
  predicate AllOpen(s: seq<Soldering>) {
    forall i :: 0 <= i < |s| ==> s[i].decommit.Value() == s[i].key
  }

  lemma {:induction false} FlattenOpen(rows: seq<seq<Soldering>>)
    requires RowsOpen(rows)
    ensures AllOpen(Flatten(rows))
    decreases |rows|
  {
    if |rows| > 0 {
      var init := rows[..|rows| - 1];
      FlattenOpen(init);
      var f: seq<Soldering> := Flatten(init);
      var last := rows[|rows| - 1];
      var all: seq<Soldering> := f + last;
      assert Flatten(rows) == all;
      forall i | 0 <= i < |all|
        ensures all[i].decommit.Value() == all[i].key
      {
        if i >= |f| {
          assert all[i] == rows[|rows| - 1][i - |f|];
        }
      }
    }
  }

  lemma ConcatOpen(a: seq<Soldering>, b: seq<Soldering>)
    requires AllOpen(a) && AllOpen(b)
    ensures AllOpen(a + b)
  {
    forall i | 0 <= i < |a + b|
      ensures (a + b)[i].decommit.Value() == (a + b)[i].key
    {
      if i >= |a| {
        assert (a + b)[i] == b[i - |a|];
      }
    }
  }

  /** The keys on the wire. */
  function SentKeys(s: seq<Soldering>): (r: seq<Key>)
    ensures |r| == |s| && forall i :: 0 <= i < |s| ==> r[i] == s[i].key
  {
    seq(|s|, i requires 0 <= i < |s| => s[i].key)
  }

  /** The slots handed to the batched decommitment. */
  function StagedDecommits(s: seq<Soldering>): (r: seq<Share>)
    ensures |r| == |s| && forall i :: 0 <= i < |s| ==> r[i] == s[i].decommit
  {
    seq(|s|, i requires 0 <= i < |s| => s[i].decommit)
  }

  /** All left (right, output) solderings of one execution: gate buckets,
      then input-gate buckets. */
  function GateRegion(ps: PreSolder, w: Wire): seq<Soldering> {
    match w
    case Left => Flatten(ps.gateLeft) + Flatten(ps.inpLeft)
    case Right => Flatten(ps.gateRight) + Flatten(ps.inpRight)
    case Out => Flatten(ps.gateOut) + Flatten(ps.inpOut)
  }

  /** Lines 455-460 and 625: the payload, region after region: left, right,
      output, bucket authenticators, input authenticators. */
  function Payload(ps: PreSolder): seq<Soldering> {
    GateRegion(ps, Left) + GateRegion(ps, Right) + GateRegion(ps, Out) + Flatten(ps.auths) + Flatten(ps.inpAuths)
  }

  /** Line 448 as written: the per-region count of gate solderings, taking
      half the execution's input count for its input-gate buckets. */
  function AllocatedGateSolderings(sh: Shape, rg: Ranges): nat
    requires sh.numBucket >= 1 && sh.numInpBucket >= 1 && RangesOk(sh, rg)
  {
    var gates: nat, followers: nat := rg.gaTo - rg.gaFrom, sh.numBucket - 1;
    var inpGates: nat, inpFollowers: nat := (rg.inpTo - rg.inpFrom) / 2, sh.numInpBucket - 1;
    gates * followers + inpGates * inpFollowers
  }

  /** The per-region count of gate solderings the loops write: one per
      follower of the execution's gate and input-gate buckets. */
  function GateSolderingCount(sh: Shape, rg: Ranges): nat
    requires sh.numBucket >= 1 && sh.numInpBucket >= 1 && RangesOk(sh, rg)
  {
    var gates: nat, followers: nat := rg.gaTo - rg.gaFrom, sh.numBucket - 1;
    var inpGates: nat, inpFollowers: nat := rg.giTo - rg.giFrom, sh.numInpBucket - 1;
    gates * followers + inpGates * inpFollowers
  }

  /** Each gate region holds exactly the followers of the execution's gate
      and input-gate buckets, so with regions laid end to end the right
      region starts at GateSolderingCount. */
  lemma PayloadRegions(p: Pool, sh: Shape, rg: Ranges)
    requires PoolOk(p) && ShapeFits(p, sh) && RangesOk(sh, rg)
    ensures var ps := PreSolderings(p, sh, rg);
            && |GateRegion(ps, Left)| == GateSolderingCount(sh, rg)
            && |GateRegion(ps, Right)| == GateSolderingCount(sh, rg)
            && |GateRegion(ps, Out)| == GateSolderingCount(sh, rg)
  {
    var ps := PreSolderings(p, sh, rg);
    var gates: nat, followers: nat := rg.gaTo - rg.gaFrom, sh.numBucket - 1;
    var inpGates: nat, inpFollowers: nat := rg.giTo - rg.giFrom, sh.numInpBucket - 1;
    assert GateSolderingCount(sh, rg) == gates * followers + inpGates * inpFollowers;
    RegionLength(ps.gateLeft, ps.inpLeft, gates, followers, inpGates, inpFollowers);
    RegionLength(ps.gateRight, ps.inpRight, gates, followers, inpGates, inpFollowers);
    RegionLength(ps.gateOut, ps.inpOut, gates, followers, inpGates, inpFollowers);
  }

  /** The authenticator regions hold one soldering per bucket authenticator
      and one per input-authenticator follower. */
  lemma AuthRegions(p: Pool, sh: Shape, rg: Ranges)
    requires PoolOk(p) && ShapeFits(p, sh) && RangesOk(sh, rg)
    ensures var ps := PreSolderings(p, sh, rg);
            && |Flatten(ps.auths)| == (rg.gaTo - rg.gaFrom) * sh.numAuth
            && |Flatten(ps.inpAuths)| == (rg.inpTo - rg.inpFrom) * (sh.numInpAuth - 1)
  {
    var ps := PreSolderings(p, sh, rg);
    RowsLength(ps.auths, rg.gaTo - rg.gaFrom, sh.numAuth);
    RowsLength(ps.inpAuths, rg.inpTo - rg.inpFrom, sh.numInpAuth - 1);
  }

  lemma RowsLength(rows: seq<seq<Soldering>>, n: nat, w: nat)
    requires |rows| == n && Uniform(rows, w)
    ensures |Flatten(rows)| == n * w
  {
    FlattenLength(rows, w);
  }

  lemma RegionLength(gateRows: seq<seq<Soldering>>, inpRows: seq<seq<Soldering>>, n: nat, w: nat, ni: nat, wi: nat)
    requires |gateRows| == n && Uniform(gateRows, w)
    requires |inpRows| == ni && Uniform(inpRows, wi)
    ensures |Flatten(gateRows) + Flatten(inpRows)| == n * w + ni * wi
  {
    FlattenLength(gateRows, w);
    FlattenLength(inpRows, wi);
  }

  /** Every staged slot of the payload opens the key sent beside it. */
  lemma PayloadOpens(p: Pool, sh: Shape, rg: Ranges)
    requires PoolOk(p) && ShapeFits(p, sh) && RangesOk(sh, rg)
    ensures var pay := Payload(PreSolderings(p, sh, rg));
            Opens(StagedDecommits(pay), SentKeys(pay))
  {
    var ps := PreSolderings(p, sh, rg);
    FlattenOpen(ps.gateLeft);
    FlattenOpen(ps.gateRight);
    FlattenOpen(ps.gateOut);
    FlattenOpen(ps.inpLeft);
    FlattenOpen(ps.inpRight);
    FlattenOpen(ps.inpOut);
    FlattenOpen(ps.auths);
    FlattenOpen(ps.inpAuths);
    ConcatOpen(Flatten(ps.gateLeft), Flatten(ps.inpLeft));
    ConcatOpen(Flatten(ps.gateRight), Flatten(ps.inpRight));
    ConcatOpen(Flatten(ps.gateOut), Flatten(ps.inpOut));
    var l, rt, o := GateRegion(ps, Left), GateRegion(ps, Right), GateRegion(ps, Out);
    ConcatOpen(l, rt);
    ConcatOpen(l + rt, o);
    ConcatOpen(l + rt + o, Flatten(ps.auths));
    ConcatOpen(l + rt + o + Flatten(ps.auths), Flatten(ps.inpAuths));
    var pay := Payload(ps);
    assert AllOpen(pay);
  }

  /** Where the `t`-th key write of the gate loops lands when each region is
      `stride` solderings long: soldering `t / 3`, region `t % 3` (left,
      right, output). Lines 493-520 write in this order. */
  function KeyWriteAddr(stride: nat, t: nat): nat {
    (t % 3) * stride + t / 3
  }

  /** As written: when an execution is handed more input-gate buckets than
      half its inputs, line 448 reserves fewer gate solderings per region
      than the loops write. */
  lemma AsWrittenShort(sh: Shape, rg: Ranges)
    requires sh.numBucket >= 1 && sh.numInpBucket >= 2 && RangesOk(sh, rg)
    requires rg.giTo - rg.giFrom > (rg.inpTo - rg.inpFrom) / 2
    ensures AllocatedGateSolderings(sh, rg) < GateSolderingCount(sh, rg)
  {
    MulStep((rg.inpTo - rg.inpFrom) / 2, rg.giTo - rg.giFrom, sh.numInpBucket - 1);
  }

  /** As written: with regions `alloc` long and more than `alloc` solderings
      per region written, two key writes land on the same address, so the
      later one overwrites a soldering already staged. */
  lemma AsWrittenWritesCollide(alloc: nat, count: nat)
    requires alloc < count
    ensures exists t1, t2 :: 0 <= t1 < t2 < 3 * count && KeyWriteAddr(alloc, t1) == KeyWriteAddr(alloc, t2)
  {
    if alloc == 0 {
      assert KeyWriteAddr(alloc, 0) == KeyWriteAddr(alloc, 1);
    } else {
      // the right key of soldering 0 and the left key of soldering `alloc`
      DivModUnique(3 * alloc, 3, alloc, 0);
      assert KeyWriteAddr(alloc, 1) == alloc == KeyWriteAddr(alloc, 3 * alloc);
    }
  }

  /** Corrected: with regions `count` long every key write of the gate loops
      has its own address inside the three regions. */
  lemma CorrectedWritesDistinct(count: nat)
    ensures forall t :: 0 <= t < 3 * count ==> KeyWriteAddr(count, t) < 3 * count
    ensures forall t1, t2 :: 0 <= t1 < t2 < 3 * count ==> KeyWriteAddr(count, t1) != KeyWriteAddr(count, t2)
  {
    forall t | 0 <= t < 3 * count
      ensures KeyWriteAddr(count, t) < 3 * count
    {
      MulMono(count, t % 3, 2);
    }
    forall t1, t2 | 0 <= t1 < t2 < 3 * count
      ensures KeyWriteAddr(count, t1) != KeyWriteAddr(count, t2)
    {
      if KeyWriteAddr(count, t1) == KeyWriteAddr(count, t2) {
        var x := KeyWriteAddr(count, t1);
        DivModUnique(x, count, t1 % 3, t1 / 3);
        DivModUnique(x, count, t2 % 3, t2 / 3);
      }
    }
  }

  /** Two executions that each hold an odd number of inputs share
      `(in0 + in1) / 2` input-gate buckets: whichever way they are split, one
      execution gets more than half its own inputs. */
  lemma OddSplitOverruns(in0: nat, in1: nat, g0: nat, g1: nat)
    requires in0 % 2 == 1 && in1 % 2 == 1
    requires g0 + g1 == (in0 + in1) / 2
    ensures g0 > in0 / 2 || g1 > in1 / 2
  {
  }

  /** Two gates and six inputs over two executions: the second holds gate 1,
      inputs 3-5 and input-gate buckets 1-2; with two gates per bucket it
      reserves two gate solderings per region and writes three, and the right
      key of its soldering 0 meets the left key of its soldering 2. */
  lemma OverrunExample()
    ensures var sh, rg := Shape(2, 2, 1, 2, 2, 6), Ranges(1, 2, 1, 3, 3, 6);
            && RangesOk(sh, rg)
            && AllocatedGateSolderings(sh, rg) == 2
            && GateSolderingCount(sh, rg) == 3
            && KeyWriteAddr(2, 1) == KeyWriteAddr(2, 6)
  {
  }
}
