# TinyLEGO garbler core in Dafny

This project models the sequential algebra and index bookkeeping of the
TinyLEGO garbler (`TinyConstructor` in `src/tiny/tiny-constructor.cpp`):
the preprocessing (`Preprocess`), the offline topological soldering
(`Offline`) and the online key release (`Online`).

A commitment block is one execution's sequence of commitment slots. A slot
is a pair of shares, and it commits to the XOR of the two. A wire's key for
bit `b` is its 0-key, XORed with the global offset Δ when `b` is set. Every
step the garbler takes is an XOR of such slots, or an index computation that
places slots and keys into buffers. The model states what each step's
result opens to, and where it lands.

Modules, in dependency order:

- `Keys`: keys as natural numbers whose binary digits are the key bits, with
  digit-wise XOR and its algebra (commutative, associative, self-inverse).
  Also the slot datatype `Share` and the Δ-adjustment `Adj`.
- `Layout`: the slot offsets of a block, the global gate and authenticator
  ids `exec_id * (Q + A) + start + i`, and their lookup. `Layout` also
  defines the errors and the `Result` type.
- `Masks`: the positions a challenge mask selects.
- `DeltaSync`: the Δ canonicalisation across executions.
- `OtCheck`: the OT cut-and-choose check.
- `VerLeak`: the verification-leak bits.
- `Garbling`: the keys and ids fed to the garbling primitive, and the
  soldering of its output keys.
- `CutAndChoose`: the gate and authenticator cut-and-choose split.
- `Rows` and `Bucketing`: the shared eval-id array and its scatter by a
  permutation.
- `Lookup`: the evaluation pool seen through the id lookup.
- `Soldering`: the bucket pre-solderings.
- `Circuits` and `Capacity`: circuits and the offline capacity reservation.
- `Topo`: the topological walk.
- `Online`: the key release.

## Model

| member | source | states |
|---|---|---|
| Keys.ShareXor | src/tiny/tiny-constructor.cpp:176-177 | Combining two slots share by share (XOR_CodeWords on one share, XOR_128 on the other) gives a slot that commits to the XOR of the two committed values. |
| Keys.AdjShare | src/tiny/tiny-constructor.cpp:320-323 | A slot XORed with the Δ slot exactly when the bit is set commits to the Δ-adjusted value; with the bit clear the slot is unchanged. |
| Keys.LsbOfValue | src/tiny/tiny-constructor.cpp:202-203 | The XOR of the two shares' low bits is the low bit of the committed value. |
| Keys.AdjTwice | src/tiny/tiny-constructor.cpp:320-321 | Adjusting a key by Δ for `b` and then for `c` adjusts it for `b != c`: Δ cancels in pairs. |
| Keys.AdjDistinct | src/tiny/tiny-constructor.cpp:5 | A wire's 0-key and 1-key differ exactly when Δ is not zero. |
| Keys.XorCancel | src/tiny/tiny-constructor.cpp:133 | XORing the same key twice gives back the original, from either side. |
| Layout.LocateItemId | src/tiny/tiny-constructor.cpp:244 | Looking up the global id of item `i` of execution `e` (`e * (Q + A) + start + i`) gives back `(e, i)`. |
| Layout.LocateDivMod | src/tiny/tiny-constructor.cpp:479 | The id lookup finds the quotient and remainder of `id - start` by `Q + A`. |
| Layout.ItemIdInjective | src/tiny/tiny-constructor.cpp:260 | Distinct (execution, item) pairs get distinct global ids. |
| Masks.PositionsSpec | src/tiny/tiny-constructor.cpp:313-316 | The positions a mask selects are exactly the indices holding the wanted bit, each once, in ascending order. |
| Masks.PositionsPartition | src/tiny/tiny-constructor.cpp:290-291 | The set and clear positions of a mask together number its length. |
| Masks.PositionsDisjoint | src/tiny/tiny-constructor.cpp:337 | No index is both set and clear, so checked and recorded positions never meet. |
| DeltaSync.CorrectDelta | src/tiny/tiny-constructor.cpp:122-139 | Execution 0's Δ slot then commits the global Δ. Its first share is kept. The old second share XOR the correction is the new second share. The correction XOR Δ is the old committed value. No other slot changes. |
| DeltaSync.SyncDelta | src/tiny/tiny-constructor.cpp:118-153 | After the step every execution holds execution 0's corrected Δ slot, which commits the global Δ. Every other slot of every block is unchanged. |
| OtCheck.CheckOtCnc | src/tiny/tiny-constructor.cpp:156-189 | The check fails, with the cheating error, exactly when some received OT value differs from `base_outer[inp_to + i]` adjusted by Δ for choice `i`. Otherwise slot `ot_chosen_start + num_OT_commits - SSEC + i` is staged, XORed with the Δ slot exactly when choice `i` is set. With Δ canonicalised and the chosen commitments in place, each staged slot opens the received value. |
| VerLeak.VerleakBits | src/tiny/tiny-constructor.cpp:191-214 | The output-blinding slots are staged, then the extra blinding slots. Each published bit is the low bit of the value its staged slot commits to. |
| Garbling.GarblingKeys | src/tiny/tiny-constructor.cpp:237-262 | The keys fed to the garbling are the values committed at the left, right, output and authenticator slots. Each gate id and authenticator id looks up to its own execution and index. |
| Garbling.SolderOutputs | src/tiny/tiny-constructor.cpp:250-254 | Each sent output value XOR the garbled output key is the committed output key, and XOR the committed key is the garbled one. |
| CutAndChoose.ScanMask | src/tiny/tiny-constructor.cpp:307-379 | Scanning upward, the checked positions are all the set bits in order. The recorded positions are the first `min(num_eval, #clear)` clear bits in order. |
| CutAndChoose.SplitAuths | src/tiny/tiny-constructor.cpp:309-331 | The k-th reply key is the k-th checked authenticator's committed key, adjusted by Δ for challenge bit k. The k-th staged slot commits to that key. With Δ canonicalised, the slots open the replies. The recorded ids are the unchecked authenticators' global ids. |
| CutAndChoose.SplitGates | src/tiny/tiny-constructor.cpp:334-379 | The same holds for the left and right keys of the checked gates. The output slot is adjusted for `left AND right`, and output keys are staged but not sent. Recorded gate ids come from the unchecked gates. |
| CutAndChoose.CutAndChooseExec | src/tiny/tiny-constructor.cpp:271-385 | One execution sends `2*ncg + nca` keys and stages `3*ncg + nca` slots. The reply holds the checked authenticators' keys at `[0, nca)`, then the checked gates' left keys at `nca + k` and right keys at `nca + ncg + k`, each the committed key adjusted by the global Δ for its challenge bit. With Δ canonicalised (the block's Δ slot opening to the global Δ), every sent key is opened by its slot. The output decommitment of checked gate k sits after the authenticator, left and right slots and opens the output key adjusted for `left AND right`. The recorded ids are the unchecked items' ids. |
| CutAndChoose.RecordedIdsSound | src/tiny/tiny-constructor.cpp:328 | Recorded ids strictly increase, and none is the id of a checked item. |
| Rows.FlattenIndex | src/tiny/tiny-constructor.cpp:376 | In the shared array, entry k of execution e's row sits at `num_eval * e + k`, and the array is `num_eval` entries per execution. |
| Bucketing.Scatter | src/tiny/tiny-constructor.cpp:418-424 | After the loop, `eval_ids[perm[i]] == tmp[i]` for every `i`, and distinct ids stay distinct. |
| Bucketing.ScatterFacts | src/tiny/tiny-constructor.cpp:418-424 | Any array meeting the scatter equations holds only entries of `tmp`, and none twice when `tmp` has none twice. |
| Bucketing.PermutationOnto | src/tiny/tiny-constructor.cpp:415-416 | A permutation of `0 .. n-1` reaches every position. |
| Bucketing.PlacedDistinct | src/tiny/tiny-constructor.cpp:376 | Rows that name their own execution and ascend, laid end to end, hold no id twice. |
| Lookup.PoolFromPreprocess | src/tiny/tiny-constructor.cpp:403-428 | Each execution fills its `num_eval`-wide row of the shared array with the ids of its first `num_eval` unchecked items. Scattered by permutations, the rows give a pool of `num_eval * num_execs` ids in existing blocks, with no gate id or authenticator id twice, and every pool id is the id of one of some execution's first `num_eval` unchecked items, never a checked, already opened one. |
| Lookup.PoolUnchecked | src/tiny/tiny-constructor.cpp:418-424 | After the scatter, every id in the pool is the id of one of its execution's first `num_eval` unchecked items (lines 326-328 and 374-376). |
| Lookup.PoolStride | src/tiny/tiny-constructor.cpp:418-424 | The id of execution `e`'s `k`-th unchecked item sits at `num_eval * e + k` of the shared array (lines 328 and 376), and the scatter moves it to that position's image under the permutation. |
| Soldering.Solder | src/tiny/tiny-constructor.cpp:493-500 | The sent key of a soldering, XORed onto the head's committed key, gives the follower's. Its staged slot opens that key. |
| Soldering.SolderedKey | src/tiny/tiny-constructor.cpp:493-500 | A soldering binds a follower to a head exactly when its key is the XOR of their committed keys. |
| Soldering.SolderTranslates | src/tiny/tiny-constructor.cpp:493-500 | The follower's key for bit `b`, XORed with the soldering, is the head's key for the same bit `b`. |
| Soldering.HeadsInPool | src/tiny/tiny-constructor.cpp:476-478 | Every gate, input-gate, authenticator and input-authenticator bucket an execution solders lies inside the pool. |
| Soldering.GateBuckets | src/tiny/tiny-constructor.cpp:484-524 | Each follower `j` of bucket k is soldered onto the head at `heads[k]` on the given wire. Every staged slot opens its key. |
| Soldering.AuthBuckets | src/tiny/tiny-constructor.cpp:528-543 | Authenticator `j` of gate bucket k, from position `k * num_auth`, is soldered onto the head gate's output key. |
| Soldering.InputAuthBuckets | src/tiny/tiny-constructor.cpp:599-623 | Each follower of an input-authenticator bucket is soldered onto the bucket's head authenticator. |
| Soldering.PreSolderings | src/tiny/tiny-constructor.cpp:443-623 | One execution gets one row per bucket it holds in each region. Gate rows are `num_bucket - 1` wide, input-gate rows `num_inp_bucket - 1`, authenticator rows `num_auth`, input-authenticator rows `num_inp_auth - 1`. Every staged slot opens its key. |
| Soldering.PreSolderingsGates | src/tiny/tiny-constructor.cpp:476-543 | Gate bucket `ga_from + k` has its head at `(ga_from + k) * num_bucket`. Each follower is soldered onto it on all three wires, and each bucket authenticator onto its output key. |
| Soldering.PreSolderingsInputs | src/tiny/tiny-constructor.cpp:548-623 | Input-gate buckets head at `num_pre_gates * num_bucket + i * num_inp_bucket`. Input-authenticator buckets head at `num_pre_gates * num_auth + i * num_inp_auth`. Each follower is soldered onto its head. |
| Soldering.PayloadRegions | src/tiny/tiny-constructor.cpp:455-460 | Each of the left, right and output regions holds exactly the followers of the execution's gate and input-gate buckets, as counted by GateSolderingCount. |
| Soldering.AuthRegions | src/tiny/tiny-constructor.cpp:450-451 | The authenticator region has `num_gates * num_auth` entries and the input-authenticator region `num_inputs * (num_inp_auth - 1)`. |
| Soldering.PayloadOpens | src/tiny/tiny-constructor.cpp:625-626 | Every slot handed to the batched decommitment opens the key sent at the same position. |
| Soldering.AsWrittenShort | src/tiny/tiny-constructor.cpp:448 | Line 448 sizes each gate region by `num_inputs / 2` input-gate buckets. With more input-gate buckets than that, it reserves fewer entries than the loops write. |
| Soldering.AsWrittenWritesCollide | src/tiny/tiny-constructor.cpp:459-460 | With regions shorter than the number of solderings written, two of the key writes land on the same address. |
| Soldering.CorrectedWritesDistinct | src/tiny/tiny-constructor.cpp:459-460 | With regions as long as the solderings written, every key write lands inside the three regions at its own address. |
| Soldering.OverrunExample | src/tiny/tiny-constructor.cpp:448 | A concrete shape: two regions' worth reserved, three written, and a right key overwritten by a later left key. |
| Circuits.AndsBeforeMono | src/tiny/tiny-constructor.cpp:848-849 | The running AND count never decreases, and passing an AND gate raises it by one. |
| Capacity.PushOffsets | src/tiny/tiny-constructor.cpp:713-726 | Circuit c's offsets are the used counters plus the demand of the circuits before it. Input-gate offsets start at `num_inputs_used / 2`. Earlier entries are kept, and the counters are untouched. |
| Capacity.CheckCapacity | src/tiny/tiny-constructor.cpp:728-745 | The check succeeds exactly when each demand fits what is left, and each counter then grows by exactly its demand. The gates error happens exactly when the gates do not fit, and it changes nothing. A later error keeps the bumps before it and leaves its own counter alone. No counter runs past its pool. |
| Capacity.Reserve | src/tiny/tiny-constructor.cpp:713-745 | A batch's reservation is the offsets push followed by the check. Offsets are pushed even when the check fails. |
| Capacity.SlicesDisjoint | src/tiny/tiny-constructor.cpp:718-725 | Within a batch, each circuit's gate, input-gate, input and output slices end at or before the next circuit's start. |
| Capacity.AsWrittenSecondBatch | src/tiny/tiny-constructor.cpp:763-765 | After two batches, the first circuit of the second batch is looked up at offsets entry 0. That entry is the first batch's slice, which is already below the used counter. |
| Capacity.CorrectedLookup | src/tiny/tiny-constructor.cpp:718-721 | Looked up at entry `base + c`, a circuit's slices start at or after everything consumed before its batch. |
| Topo.InputState | src/tiny/tiny-constructor.cpp:779-789 | Input wire `w` starts at its input-authenticator head `num_pre_gates * num_auth + (inp_offset + w) * num_inp_auth`. Every wire's slot commits to its key. |
| Topo.InputGatesSoldered | src/tiny/tiny-constructor.cpp:793-818 | Constant input `i` is soldered onto the left key, and input `half + i` onto the right key, of input-gate bucket `inp_gate_offset + i`'s head. |
| Topo.StepGate | src/tiny/tiny-constructor.cpp:823-877 | One gate keeps every wire's slot committing to its key, with the XOR step copying the left input to the output before reading the right input. AND gates append exactly one left and one right soldering, and NOT and XOR gates none. |
| Topo.StepFreeXor | src/tiny/tiny-constructor.cpp:824-845 | For NOT and XOR gates, the output key for `!b1` or `b1 != b2` is the input keys for `b1` (and `b2`) combined: Δ is added or the inputs XORed. An XOR gate whose output wire is its right input but not its left one instead ends with the zero key and a slot committing to zero, because the copy at line 838 overwrites the right input before line 839 reads it. |
| Topo.StepAppends | src/tiny/tiny-constructor.cpp:848-876 | An AND gate's output wire takes the head's output key. The new left and right solderings solder the input wires' slots onto the head's left and right keys. |
| Topo.Walk | src/tiny/tiny-constructor.cpp:820-878 | After n gates, every wire's slot still commits to its key, and there is one soldering pair per AND gate passed. |
| Topo.WalkPrefix | src/tiny/tiny-constructor.cpp:858-874 | Later gates only append solderings; earlier ones stay in place. |
| Topo.AndSoldered | src/tiny/tiny-constructor.cpp:848-876 | The k-th AND gate's output wire gets the output key of the head `(gate_offset + k) * num_bucket`. The final soldering at k solders the gate's input wires onto that head's left and right keys. |
| Topo.TopologicalLayout | src/tiny/tiny-constructor.cpp:767-880 | The buffer has `2 * num_and + num_const_inp` entries. AND k's solderings sit at `k` and `num_and + half + k`. Input gate i's left and right solderings sit at `num_and + i` and `2 * num_and + half + i`. Every staged slot opens its sent key, and every wire's slot commits to its key. |
| Topo.TopologicalPositions | src/tiny/tiny-constructor.cpp:791-880 | The positional half of TopologicalLayout: the buffer length, AND k's solderings at `k` and `num_and + half + k`, and input gate i's at `num_and + i` and `2 * num_and + half + i`. |
| Topo.TopologicalOpens | src/tiny/tiny-constructor.cpp:791-880 | The opening half of TopologicalLayout: every staged slot in the buffer opens the key sent beside it, and the final wires stay consistent. |
| Topo.AndsOpen | src/tiny/tiny-constructor.cpp:858-874 | Every AND soldering of the walk is opened by its own staged slot. |
| Topo.WalkGates | src/tiny/tiny-constructor.cpp:820-878 | The loop computes the walk over all gates. Every wire stays consistent, and it ends with one soldering pair per AND gate of the circuit. |
| Topo.TopologicalSolderings | src/tiny/tiny-constructor.cpp:761-882 | The sent keys and staged slots both have `2 * num_and + num_const_inp` entries, and every staged slot opens its sent key. |
| Online.SlotOfSpec | src/tiny/tiny-constructor.cpp:962-964 | Slot lookup `x / n`, `start + x % n` finds an existing block and a slot of the kind. It is the quotient and remainder, and it gives distinct positions distinct slots. |
| Online.ConstKeysOnWires | src/tiny/tiny-constructor.cpp:949-957 | With one Δ across blocks, constant input `i`'s released key is the walk's key of its bit on input wire `i`. |
| Online.ConstKeysThroughSolderings | src/tiny/tiny-constructor.cpp:949-957 | The released constant keys, through the left or right input-gate soldering, become the keys of the same bits on the input-gate head. |
| Online.EvalInputDecommit | src/tiny/tiny-constructor.cpp:961-982 | Evaluator input `i`'s staged slot commits to the chosen-OT value XOR the head authenticator key of input `num_const_inp + i`, adjusted by the OT block's Δ for `e[i]`. |
| Online.EvalInputUnmasks | src/tiny/tiny-constructor.cpp:961-983 | The evaluator's OT key for `choice`, XORed with the opened value, is the walk's key for `choice != e[i]` on input wire `num_const_inp + i`. |
| Online.OutputDecommit | src/tiny/tiny-constructor.cpp:989-1003 | Output `i`'s staged slot commits to the blinding slot's value XOR the output key of head `(gate_offset + num_and - num_out + i) * num_bucket`. |
| Online.OutputUnblinds | src/tiny/tiny-constructor.cpp:989-1004 | The head's output key for bit `b` XOR the opened value is the blinding slot's key for `b`. |

## Left out

- Keys are unbounded natural numbers. The 128-bit width plays no part in the
  XOR algebra. The error-correcting check bits of each share
  (XOR_CheckBits, `code->Encode`) are XOR-linear, so they are dropped.
- Channels (`Send`, `ReceiveBlocking`) are not modelled. Received challenge
  masks, OT values and the mask `e` are inputs, and sent buffers are
  outputs.
- Threads, futures and the Δ rendezvous are not modelled. Only the
  rendezvous's effect is: execution 0 finishes its Δ update before any other
  execution copies it.
- OT extension, the rot-seed hashing, `Commit`, `ChosenCommit`,
  `BatchDecommit` and `BatchDecommitLSB` are foreign primitives.
  `GarbleGates`/`GarbleAuths`, the PRNG and `WeightedRandomString` are
  foreign too. Their results (garbled keys, challenge masks, the
  permutation) are inputs, and the slots staged for the batched
  decommitments are outputs.
- `countSetBits`, `PermuteArray`, `PartitionBufferFixedNum` and
  `IDMap::GetExecIDAndIndex` are library routines outside
  `tiny-constructor.cpp` and are not modelled.
  - Bit counts are the mask's own set positions.
  - The permutation is an input assumed to be a bijection.
  - Per-execution ranges are inputs with their stated bounds.
  - The id lookup is modelled by `Layout.Locate`, the quotient and
    remainder by `Q + A`.
- The DEBUG block that re-sends the bucket head keys (lines 642-675),
  timing and printing are not modelled.
- One slot layout and one bucket shape serve all executions. The source
  reads other executions' blocks with its own thread's offsets and mixes
  `params` and `thread_params` bucket sizes, so it relies on the same
  assumption.
- Online.OnlineReady: a single `num_pre_inputs` and `num_pre_outputs`
  divides every chosen-OT and blinding-slot index. The source divides by
  the current thread's values, which equal the other executions' only when
  the partition is even.
- Online.EvalInputUnmasks: the OT slot uses `inp_offset + i`, while the
  authenticator head uses `inp_offset + num_const_inp + i`. This is modelled
  as written (lines 962 and 971).
- Online.OnlineReady: the outputs are taken to be the last `num_out` AND
  gates (`num_out <= num_and`). The source relies on that circuit
  convention without checking it.
- Capacity.CheckCapacity: the input-gate slices are not checked against a
  pool of their own. The source assumes that enough inputs imply enough
  input-gate buckets (line 734).
- Lookup.PoolFromPreprocess: every execution's mask is taken to leave at
  least `num_eval` unchecked items, so its row of the shared array is full.
  The mask comes from `WeightedRandomString` (line 287), and nothing in
  `tiny-constructor.cpp` ensures that count. With fewer, the source leaves
  the rest of the row as the uninitialised contents of the buffer allocated
  at line 57, and the scatter copies them into the pool. The model says
  nothing about such a pool.
- Lookup.PoolFromPreprocess: one `num_eval_gates` and one `num_eval_auths`
  serve every execution, both as the width each execution writes its row
  with and as the length the scatter runs over. The source writes
  execution `e`'s row with that thread's own `thread_params->num_eval_*`
  (lines 326-328 and 374-376), and scatters over the global
  `params.num_eval_*` (lines 404-424). The two agree only when every
  execution gets the same share.
- Lookup.PoolStride: the stride `num_eval * e + k` uses the same single
  `num_eval` for every execution. In the source it is the writing thread's
  own `thread_params->num_eval_*` (lines 328 and 376). Uneven shares would
  make rows overlap or leave gaps, and the model does not cover that.
- Ids, offsets and capacity counters are unbounded in the model. The source
  stores ids in `uint32_t` arrays (lines 57 and 404) and computes them in
  `int` (lines 328 and 376). The capacity demands are `int` (lines
  713-716), and the offsets are read back into `int` (lines 763-764). The
  `*_used` counters are declared in `tiny-constructor.h`, which is not part
  of this model. None of these wraps for any pool whose blocks the source
  can allocate, so no wrap-around is modelled.
- Lookup.Pool: a single `Q + A` serves every execution. The source mints
  each execution's ids with that execution's own `Q + A` (lines 244, 260,
  328 and 376). It looks every id up with execution 0's (lines 427-428,
  748-749 and 904-905). The two agree only when the partition into
  executions is even.
- Topo.Walk: the zeroed wires beyond the inputs start with the zero key and
  the zero slot. The source allocates them zeroed and writes every gate
  output before it is read; topological order is taken as given.

## Findings

| source | as written | input that shows it | evidently intended | confidence | as-written member | corrected member |
|---|---|---|---|---|---|---|
| src/tiny/tiny-constructor.cpp:448 | Each gate region (left, right, output) is sized for `num_inputs / 2` input-gate buckets. The loop at lines 548-597 writes one soldering per follower of every input-gate bucket in `[ga_inp_from, ga_inp_to)`. | Two gates and six inputs over two executions, with buckets of two gates. The second execution holds gate 1, inputs 3-5 and input-gate buckets 1-2. It reserves two entries per region and writes three, so its third left key lands on the first right key. | Each region sized by the execution's own input-gate range, `(ga_inp_to - ga_inp_from) * (num_inp_bucket - 1)`. | not executed; whether an execution gets more than half its inputs depends on how `PartitionBufferFixedNum` splits the inputs, which this model does not cover. Soldering.OddSplitOverruns shows that two executions holding odd input counts cannot both stay within half their own inputs | Soldering.AsWrittenShort, Soldering.AsWrittenWritesCollide, Soldering.OverrunExample, Soldering.OddSplitOverruns | Soldering.CorrectedWritesDistinct, Soldering.PayloadRegions |
| src/tiny/tiny-constructor.cpp:763-765 | Offline pushes each batch's offsets onto vectors that persist across calls. The topological walk (lines 763-765) and the online phase (lines 931-933) read entry `c`, the circuit's index within the current batch. | Two Offline calls, each with one circuit that has AND gates. The second call's circuit reads entry 0: the first circuit's gate slice, which the first call's counter bump already consumed. | Read entry `base + c`, where `base` is the number of offsets pushed before the batch. | not executed; the shipped main calls Offline once, so it does not trigger this | Capacity.AsWrittenSecondBatch | Capacity.CorrectedLookup |
