# Verified model of the block request layer and three block ciphers of Linux 2.6 (lkl)

This project models two parts of the tree and proves what they promise.

**The ciphers.** `camellia_setup_tail` compiles a key schedule: it pushes the whitening keys kw2 and
kw4 through the rounds and the FL layers, moves every round key from the input of F to its end, and
undoes half of P in advance. The round code only works on the result. The modules `Camellia*` prove,
for every key, block and SP table, that the round code on the compiled table is the cipher of RFC 3713
(sections 2.2 to 2.4), that the chained rotations and shortcuts of the three key setups produce the
subkeys of section 2.2, and that decryption undoes encryption. `CamelliaStandard` writes the standard down
a second time, F byte by byte and the subkeys by name, and proves that this is what a keyed context
computes on SP tables made from any four S-boxes. `Cast6` (section 2 of RFC 2612) and `Blowfish` prove the
round trip for every subkey and S-box.

**The block request layer under the queue lock.**

| modules | subject |
|---|---|
| `BarrierQueue`, `BarrierProtocol`, `BarrierOrder`, `BarrierProgress`, `BarrierStages`, `BarrierTheorems`, `BarrierDevice` | the barrier sequence, over every interleaving of inserts, merges, dispatches, completions and requeues |
| `Segments` | counting the physical segments of a request and mapping them to a scatterlist |
| `Completion` | partial completion, and failing a request up to the next failfast boundary |
| `Merging` | merging bios and requests, with the elevator's merge hash, up to the hand-over to the driver |
| `Deadline`, `DeadlineTheorems`, `DeadlineDevice` | the deadline scheduler |
| `Tags`, `TagTheorems`, `TagStraddle`, `TagQueue` | the tag map, shared by queues with different locks and in place for one queue |
| `Pool` | the request pool, whose lock is dropped midway, and the elevator switch |
| `CfqFairness`, `CfqTree` | CFQ's weighted group selection |
| `DispatchSort` | sorted insertion into the dispatch queue |
| `Lists`, `Options`, `Words`, `Arithmetic` | lists and array copies, optional values, 32-bit words, multiples and rounding |

A protocol is a state machine over its lock-held steps, with an invariant that every step keeps and
theorems about every run. Code that works in place is a class or a method on arrays, proved against the
functions of the state machine; trees are the sequences of their nodes, and a descent through a tree
takes an arbitrary node between its bounds at every step. S-boxes, SP tables, the hash function of the
merge hash and the relations BIOVEC_PHYS_MERGEABLE and BIOVEC_SEG_BOUNDARY are parameters. Clocks are
parameters that never run backwards.

## What turned out false

- Growing a tag map is not always safe: `init_tag_map` clamps the new depth to twice nr_requests, which
  may be less than the old depth, and the copy that follows still has the old depth's length.
  `TagTheorems.GrowKeepsTags` proves that the copy stays inside the new arrays if and only if the clamped
  depth is at least the old one, whatever tags are in use, and that then nothing but the depths changes;
  for the bitmap alone the depths count in whole words. `TagTheorems.GrowCanOverrun` is an instance with
  the smallest nr_requests that sysfs lets one set.
- The two tags kept for sync requests do not always keep a sync request from failing:
  `find_first_zero_bit` reads the map word by word, without a lock if the map is shared.
  `TagTheorems.SyncFindsTag` proves the promise for every depth whose last two tags are bits of one word.
  `TagStraddle.SyncCanMiss` gives, for every other depth and every word size, a run in which a sync
  request finds no tag while fewer than two are in use for sync requests.
- The deadline scheduler does not keep writes from starving reads for every setting:
  `DeadlineTheorems.ReadsNotStarved` proves the bound for writes_starved above zero, and
  `DeadlineTheorems.ReadsCanStarve` gives, for zero and every number, a run that exceeds it.
- CFQ's groups do not stay within a constant of each other in service over weight: `cfq_scale_slice`
  rounds down on every slice. `CfqFairness.FairWithinAConstant` proves the constant for a group whose
  weight divides 4096 * 500. `CfqFairness.NotWithinAConstant` gives, for every other weight, every weight
  of another group and every bound, a run that exceeds it, and `CfqFairness.FairUpToRounding` bounds the
  drift by one unit of vdisktime a slice.

## Where code and comments disagree

- `blk_queue_end_tag` explains its check against real_max_depth with a depth that was reduced. Reducing
  the depth leaves real_max_depth alone, so that branch is never taken then
  (`TagTheorems.EndFindsItsTag`).

## Model

| member | source | states |
|---|---|---|
| `CamelliaCipher.RoundSmIsF` | lkl-2.6/crypto/camellia.c:870-884 | a round adds F without a key, and then its key carried through the last half of P |
| `CamelliaCipher.KeyAtInput` | lkl-2.6/crypto/camellia.c:359-376 | F depends only on the xor of its input and its key |
| `CamelliaCipher.FlsIsBothLayers` | lkl-2.6/crypto/camellia.c:854-868 | the in-place layer macro is FL on the left half and FL inverse on the right |
| `CamelliaCipher.FLMovesDifference` | lkl-2.6/crypto/camellia.c:854-868 | how a difference passes through FL |
| `CamelliaCipher.FLinvMovesDifference` | lkl-2.6/crypto/camellia.c:854-868 | how a difference passes through FL inverse, which is what the setup does to kw2 and kw4 |
| `CamelliaCipher.DiffUndoesDiffInv` | lkl-2.6/crypto/camellia.c:387-468 | pushing a key through a layer and back leaves it as it was |
| `CamelliaCipher.LayersAreInverse` | lkl-2.6/crypto/camellia.c:854-868 | FL and FL inverse undo each other |
| `CamelliaCipher.InverseHalfPInverts` | lkl-2.6/crypto/camellia.c:561-577 | what the setup applies to a round key is the inverse of the last half of P |
| `CamelliaRounds.SixRounds` | lkl-2.6/crypto/camellia.c:896-915 | six rounds on the compiled table differ from six textbook rounds by known keys only |
| `CamelliaRounds.OneLayer` | lkl-2.6/crypto/camellia.c:916-921 | a layer between groups carries those differences on to the next group |
| `CamelliaRounds.EncryptIsTextbook` | lkl-2.6/crypto/camellia.c:887-940 | on a compiled table, encryption and the caller's half swap are textbook Camellia, for both sizes, every block and every SP table |
| `CamelliaRounds.DecryptUndoesEncrypt` | lkl-2.6/crypto/camellia.c:942-995 | decryption undoes encryption for every table and block |
| `CamelliaRounds.EncryptUndoesDecrypt` | lkl-2.6/crypto/camellia.c:942-995 | encryption undoes decryption, so both are bijections |
| `CamelliaRounds.RoundInPlace` | lkl-2.6/crypto/camellia.c:870-884 | the round macro changes one half of the buffer by the round function |
| `CamelliaRounds.FlsInPlace` | lkl-2.6/crypto/camellia.c:854-868 | the layer macro on the whole buffer |
| `CamelliaRounds.SixInPlace` | lkl-2.6/crypto/camellia.c:896-915 | six rounds of encryption on the buffer |
| `CamelliaRounds.SixBackInPlace` | lkl-2.6/crypto/camellia.c:951-970 | six rounds of decryption on the buffer |
| `CamelliaRounds.DoEncrypt` | lkl-2.6/crypto/camellia.c:887-940 | the buffer afterwards holds the textbook ciphertext, halves swapped, of every schedule the table was compiled from |
| `CamelliaRounds.DoDecrypt` | lkl-2.6/crypto/camellia.c:942-995 | the buffer afterwards holds the inverse of encryption |
| `CamelliaStandard.FIsStandard` | lkl-2.6/crypto/camellia.c:359-376 | on SP tables made from any four S-boxes, CAMELLIA_F is the F-function of section 2.4.1: the eight S-box outputs and the eight byte sums of P |
| `CamelliaStandard.LayersAreStandard` | lkl-2.6/crypto/camellia.c:854-868 | FL and its inverse are those of sections 2.4.2 and 2.4.3 |
| `CamelliaStandard.TextbookIsStandard` | lkl-2.6/crypto/camellia.c:887-940 | with the named subkeys in the places where the source keeps them, the textbook form is the encryption of section 2.3 |
| `CamelliaTail.AbsorbKw2` | lkl-2.6/crypto/camellia.c:387-413 | every second round key, and kw3, takes what kw2 has become |
| `CamelliaTail.AbsorbKw4` | lkl-2.6/crypto/camellia.c:416-468 | the other round keys, and kw1, take what kw4 has become |
| `CamelliaTail.MovedIsEndKey` | lkl-2.6/crypto/camellia.c:470-559 | the absorbed keys cancel everywhere but in the first and the last round |
| `CamelliaTail.MoveToEndOfF` | lkl-2.6/crypto/camellia.c:470-559 | every round key is moved to the end of the F before it |
| `CamelliaTail.UndoLastHalfP` | lkl-2.6/crypto/camellia.c:561-577 | every round key, and no other entry, is carried back through the last half of P |
| `CamelliaTail.SetupTail` | lkl-2.6/crypto/camellia.c:381-578 | the table it leaves makes the round code textbook Camellia under the subkeys it was given |
| `CamelliaRotations.Roldq15` | lkl-2.6/crypto/camellia.c:340-347 | rotating four words by 15 rotates the 128-bit value; likewise for the other distances used |
| `CamelliaRotations.Roldq17` | lkl-2.6/crypto/camellia.c:340-347 | the same for 17 |
| `CamelliaRotations.Roldq30` | lkl-2.6/crypto/camellia.c:340-347 | the same for 30 |
| `CamelliaRotations.RoldqO34` | lkl-2.6/crypto/camellia.c:349-357 | rotating by more than a word, here 34, rotates the 128-bit value |
| `CamelliaRotations.RoldqO45` | lkl-2.6/crypto/camellia.c:349-357 | the same for 45 |
| `CamelliaRotations.RoldqO49` | lkl-2.6/crypto/camellia.c:349-357 | the same for 49 |
| `CamelliaRotations.RoldqO51` | lkl-2.6/crypto/camellia.c:349-357 | the same for 51 |
| `CamelliaKeys.MakeKa128` | lkl-2.6/crypto/camellia.c:635-653 | the shortened computation gives the KA of section 2.2 of RFC 3713 with no right key half |
| `CamelliaKeys.MakeKa256` | lkl-2.6/crypto/camellia.c:756-774 | the computation with two xors folded into one gives KA |
| `CamelliaKeys.MakeKb256` | lkl-2.6/crypto/camellia.c:776-787 | and KB |
| `CamelliaKeys.KlSubkeys128` | lkl-2.6/crypto/camellia.c:595-633 | the chain of rotations of KL leaves the standard's rotations of KL, each at its place |
| `CamelliaKeys.KaTurns128` | lkl-2.6/crypto/camellia.c:655-672 | the first four turns of KA leave its rotations by 0 to 60 bits, each at its place |
| `CamelliaKeys.KaSubkeys128` | lkl-2.6/crypto/camellia.c:655-681 | and those of KA, touching no subkey made from KL |
| `CamelliaKeys.Setup128` | lkl-2.6/crypto/camellia.c:580-684 | the table is the one compiled from the schedule of section 2.2 for the key |
| `CamelliaKeys.Setup256` | lkl-2.6/crypto/camellia.c:686-833 | the same for 256-bit keys |
| `CamelliaKeys.Setup192` | lkl-2.6/crypto/camellia.c:835-848 | the same for 192-bit keys, whose right half is completed with its complement |
| `CamelliaStandard.KeysAreStandard` | lkl-2.6/crypto/camellia.c:756-787 | KA and KB are those of section 2.2, with F byte by byte |
| `CamelliaStandard.ScheduleInOrder` | lkl-2.6/crypto/camellia.c:580-848 | for all three key lengths the schedule keeps kw1 to kw4, k1 to k24 and ke1 to ke6 where the round code looks for them |
| `Camellia.Context.SetKey` | lkl-2.6/crypto/camellia.c:1004-1031 | only 16, 24 and 32 bytes are accepted; anything else leaves the context alone |
| `Camellia.Context.EncryptBlock` | lkl-2.6/crypto/camellia.c:1033-1055 | a keyed context computes the standard's cipher of its key |
| `Camellia.Context.DecryptBlock` | lkl-2.6/crypto/camellia.c:1057-1079 | the result is the one block that encrypts to the input |
| `CamelliaStandard.CipherIsStandard` | lkl-2.6/crypto/camellia.c:1033-1055 | for every user key, block and set of S-boxes, what a keyed context computes is the cipher of RFC 3713 written with named subkeys |
| `Cast6.QuadRoundsAreInverse` | lkl-2.6/crypto/cast6.c:430-447 | the forward and the reverse quad-round undo each other, for every key and S-box |
| `Cast6.RoundFunctions` | lkl-2.6/crypto/cast6.c:38-43 | the three round functions on the bytes of I, as section 2.2 of RFC 2612 states them |
| `Cast6.QuadIsFourRounds` | lkl-2.6/crypto/cast6.c:430-447 | the reverse quad-round is the four rounds of the forward one in reverse order |
| `Cast6.RoundTrip` | lkl-2.6/crypto/cast6.c:449-513 | decryption undoes encryption and encryption decryption |
| `Cast6.QuadInPlace` | lkl-2.6/crypto/cast6.c:430-437 | the forward quad-round on a block |
| `Cast6.QuadBackInPlace` | lkl-2.6/crypto/cast6.c:440-447 | the reverse quad-round on a block |
| `Cast6.EncryptInto` | lkl-2.6/crypto/cast6.c:449-480 | six forward and six reverse quad-rounds, even when source and destination are the same |
| `Cast6.DecryptInto` | lkl-2.6/crypto/cast6.c:482-513 | the block it writes encrypts to the block it read |
| `Blowfish.RoundBack` | lkl-2.6/crypto/blowfish.c:314 | one round of the reversed cipher takes a whitened pair one round back |
| `Blowfish.FOnBytes` | lkl-2.6/crypto/blowfish.c:306-312 | which S-box takes which byte |
| `Blowfish.ReversedUndoes` | lkl-2.6/crypto/blowfish.c:320-396 | the cipher with its keys reversed undoes the cipher, for any number of rounds |
| `Blowfish.RoundTrip` | lkl-2.6/crypto/blowfish.c:320-396 | decryption undoes encryption and encryption decryption |
| `Blowfish.EncryptBlock` | lkl-2.6/crypto/blowfish.c:320-349 | the sixteen rounds in place are the cipher with the P-array in order |
| `Blowfish.DecryptBlock` | lkl-2.6/crypto/blowfish.c:364-396 | the block it writes encrypts to the block it read |
| `BarrierQueue.RequeuePosIs` | lkl-2.6/block/elevator.c:681-691 | a requeued request goes in front of the first one of its stage or a later one |
| `BarrierProtocol.CompleteSeqBase` | lkl-2.6/block/blk-barrier.c:92-112 | ending stages keeps the first error and ends the original request only when all stages are through |
| `BarrierTheorems.StepInv` | lkl-2.6/block/blk-barrier.c:92-280 | every insert, dispatch, look at the queue, start, completion and requeue keeps the protocol's invariant |
| `BarrierTheorems.RunInv` | lkl-2.6/block/blk-barrier.c:92-280 | the invariant holds in every state of every run |
| `BarrierTheorems.EachBarrierEndsOnce` | lkl-2.6/block/blk-barrier.c:92-234 | in every mode no stage is ended twice; barriers end in order of insertion, each once, with the first error a stage of its own sequence reported |
| `BarrierTheorems.StagesInProgress` | lkl-2.6/block/blk-barrier.c:92-234 | a stage's request is queued or at the driver exactly until its bit is set |
| `BarrierTheorems.EachStageHappens` | lkl-2.6/block/blk-barrier.c:92-234 | in every mode, when a barrier has ended the driver has completed its own request if it has data, and the flushes its mode asks for, each once and nothing else; ordering by draining, in the order pre-flush, barrier, post-flush |
| `BarrierTheorems.RunRecorded` | lkl-2.6/block/blk-barrier.c:92-234 | in every state of every run each wanted request is held or on record, not both |
| `BarrierStages.SequenceStarts` | lkl-2.6/block/blk-barrier.c:154-234 | a sequence puts exactly the wanted requests in front of the queue, in order: the barrier unless it is empty, the first flush if the mode has one, the second if it has one and the barrier is not empty |
| `BarrierStages.StartHasWanted` | lkl-2.6/block/blk-barrier.c:154-234 | each embedded request is on the list iff it is wanted |
| `BarrierStages.StartHandsOut` | lkl-2.6/block/blk-barrier.c:206-234 | the first of them is handed out at once unless the queue still drains |
| `BarrierStages.OnlyBarriersWait` | lkl-2.6/block/blk-barrier.c:266-271 | ordering by tag, nothing but the next barrier waits |
| `BarrierTheorems.NothingPassesABarrier` | lkl-2.6/block/blk-barrier.c:236-280 | ordering by draining, whatever is handed to the driver, every barrier inserted before it has ended |
| `BarrierTheorems.BarrierWaitsForAll` | lkl-2.6/block/blk-barrier.c:154-280 | a flush or barrier goes out only when, of every fs request inserted before the barrier, the request that took its bios over, through any number of merges, has completed |
| `BarrierTheorems.StagesInOrder` | lkl-2.6/block/blk-barrier.c:154-280 | pre-flush, barrier and post-flush go out in that order, each after the one before completed or was left out |
| `BarrierTheorems.HeadIsNeverLate` | lkl-2.6/block/blk-barrier.c:271-276 | ordering by draining, the head of the queue never belongs to a stage that is over, so the WARN_ON never fires |
| `BarrierTheorems.NeverStuck` | lkl-2.6/block/blk-barrier.c:236-280 | ordering by draining, while a sequence is in progress and the driver has nothing, the next look at the queue hands its head out |
| `BarrierTheorems.RunMoves` | lkl-2.6/block/blk-barrier.c:154-280 | in every state of every run of a draining queue: while it waits for the drain the driver has a request or the head may go, and following the merges from any request leads to one between the same barriers that was not merged away |
| `BarrierDevice.RequestQueue.OrderedCurSeq` | lkl-2.6/block/blk-barrier.c:56-61 | no stage iff no sequence is in progress; else the first stage that is not through: every one before it is |
| `BarrierDevice.RequestQueue.OrderedCompleteSeq` | lkl-2.6/block/blk-barrier.c:92-112 | the new queue and the ended request are those of the protocol |
| `BarrierDevice.RequestQueue.StartOrderedSequence` | lkl-2.6/block/blk-barrier.c:154-234 | stacking the requests in reverse leaves them in order in front of the queue, with the skipped stages ended |
| `BarrierDevice.PushedInOrder` | lkl-2.6/block/blk-barrier.c:188-221 | pushed to the front in reverse, the stages' requests end up in order |
| `BarrierDevice.RequestQueue.DoOrderedHead` | lkl-2.6/block/blk-barrier.c:236-280 | what may be handed out from the head of the queue, and when it warns |
| `BarrierDevice.RequestQueue.NextRequestFromList` | lkl-2.6/block/blk.h:58-62 | the loop ends, and returns what repeated looks at the head return |
| `BarrierDevice.RefusesBarriers` | lkl-2.6/block/blk-barrier.c:241-258 | a queue that supports no order ends the barriers in front with -EOPNOTSUPP, one by one, and answers with the first other request |
| `BarrierDevice.RequestQueue.RequeueRequest` | lkl-2.6/block/elevator.c:553-568 | a requeued request goes back to its place among the stages |
| `BarrierDevice.RequestQueue.FindPlace` | lkl-2.6/block/elevator.c:681-691 | the walk through the queue stops at that place |
| `BarrierDevice.RequestQueue.CompletedOne` | lkl-2.6/block/elevator.c:837-867 | the drain stage ends when nothing is in flight and nothing ahead of the barrier is queued |
| `Segments.NoCutInside` | lkl-2.6/block/blk-merge.c:118-200 | walking a segment that respects the limits, the mapping does not cut it |
| `Segments.MapIsMinimal` | lkl-2.6/block/blk-merge.c:118-200 | no partition of the vectors that respects the limits has fewer segments than the mapping |
| `Segments.CountIsMinimal` | lkl-2.6/block/blk-merge.c:12-70 | the counted segments respect the limits and keep high pages apart, and no such partition has fewer |
| `Segments.ApartIs` | lkl-2.6/block/blk-merge.c:30-41 | what counts as one segment: within the limits, and a page above the bounce limit on its own |
| `Segments.MapFitsCounts` | lkl-2.6/block/blk-merge.c:12-222 | the mapping has no more entries than the recounted segments, nor than the counts of the bios added up |
| `Segments.PerBioPartition` | lkl-2.6/block/blk-merge.c:203-222 | counting bio by bio also respects the limits |
| `Segments.EntriesCover` | lkl-2.6/block/blk-merge.c:118-200 | the entries cover exactly the bytes of the vectors, in order |
| `Segments.RecalcSegments` | lkl-2.6/block/blk-merge.c:12-70 | the least number of segments that respect the limits and keep high pages apart, which the mapping never exceeds |
| `Segments.MapSg` | lkl-2.6/block/blk-merge.c:118-200 | the entries are segments that respect the limits, as few as there can be and at most as many as either count, together the bytes of the request in order |
| `Completion.FinishSuffix` | lkl-2.6/block/blk-core.c:1969-2099 | n bytes of progress leave exactly the bytes behind n and account for every bio once |
| `Completion.FinishTwice` | lkl-2.6/block/blk-core.c:1969-2099 | n bytes and then m, a multiple of the sector size, leave the same work and end the same bios with the same errors as n + m at once |
| `Completion.ProgressTwice` | lkl-2.6/block/blk-core.c:1969-2099 | while data is left, two calls leave the request that one call for both leaves: the same work, length, sector and failfast bits |
| `Completion.FinishErrors` | lkl-2.6/block/blk-core.c:134-171 | a call ends the first bios in order, each with its error; without one, with 0 iff the bio is up to date and else with -EIO |
| `Completion.SeriesErrors` | lkl-2.6/block/blk-core.c:134-171 | over any series of calls a bio that was up to date ends with 0 iff no call that reported an error covered a byte of it |
| `Merging.ProgressStaysOk` | lkl-2.6/block/blk-core.c:1969-2099 | whole sectors of progress leave a contiguous request that starts at the new sector, with the failfast bits of its first bio |
| `Completion.Request.CompleteBytes` | lkl-2.6/block/blk-core.c:1998-2048 | where the loop stands when it leaves off |
| `Completion.Request.UpdateRequest` | lkl-2.6/block/blk-core.c:1969-2099 | false iff n covers everything; the whole request it leaves, the bios ended with which error, the new sector and failfast bits; its repair of a botched request never happens |
| `Completion.Request.ErrBytes` | lkl-2.6/block/blk-core.c:1704-1729 | the bios up to the first that lacks one of the failfast bits; positive on a request with data, so its BUG_ON never fires |
| `Completion.Request.FailPiecewise` | lkl-2.6/block/blk-core.c:2276-2280 | failing a request up to the next boundary again and again ends, with every bio ended once and with that error |
| `Merging.SetMixedOk` | lkl-2.6/block/blk-merge.c:319-338 | marking a request mixed changes neither its extent nor the failfast bits that apply to any of its bios |
| `Merging.BackMergedOk` | lkl-2.6/block/blk-core.c:1208-1229 | a bio merged at the end keeps the request a contiguous chain that now ends where the bio ends |
| `Merging.BackMergedAdds` | lkl-2.6/block/blk-core.c:1208-1229 | every bio keeps its place and its failfast bits, and the new one has those it came with |
| `Merging.FrontMergedOk` | lkl-2.6/block/blk-core.c:1231-1263 | the same at the front; the end stays |
| `Merging.FrontMergedAdds` | lkl-2.6/block/blk-core.c:1231-1263 | every bio moves by one place and keeps its failfast bits |
| `Merging.JoinedOk` | lkl-2.6/block/blk-merge.c:359-430 | two requests joined are one contiguous chain |
| `Merging.JoinedIds` | lkl-2.6/block/blk-merge.c:359-430 | joined, every bio keeps the failfast bits that apply to it |
| `Merging.JoinKeepsBios` | lkl-2.6/block/blk-merge.c:359-430 | joining loses no bio and duplicates none |
| `Merging.AddKeepsBios` | lkl-2.6/block/blk-core.c:1206-1263 | merging a bio adds that one and no other |
| `Merging.MergeQueue.FindEnding` | lkl-2.6/block/elevator.c:330-350 | a mergeable request that ends at the sector, and if it finds none there is none |
| `Merging.MergeQueue.Reposition` | lkl-2.6/block/elevator.c:324-328 | puts a request whose end moved back into the right bucket |
| `Merging.MergeQueue.AttemptMerge` | lkl-2.6/block/blk-merge.c:359-430 | joins exactly when both are mergeable, adjacent, of one direction and within the limits; every hashed request is then in its bucket |
| `Merging.MergeQueue.BackMerge` | lkl-2.6/block/blk-core.c:1208-1229 | merges exactly when the limits allow, and what it leaves: the bio at the end, the next request joined if they now touch, or the request marked; every request stays contiguous, within max_sectors and in its bucket |
| `Merging.MergeQueue.FrontMerge` | lkl-2.6/block/blk-core.c:1231-1263 | the same at the front |
| `Merging.MergeQueue.Refuse` | lkl-2.6/block/blk-merge.c:203-271 | a request that would grow too large or get too many segments is marked unmergeable and leaves the one-hit cache; nothing else changes |
| `Merging.MergeQueue.AddRequest` | lkl-2.6/block/elevator.c:625-661 | a new request for just this bio, sorted and hashed if it is mergeable, or behind everything on the dispatch list, with the elevator emptied first |
| `Merging.MergeQueue.FindMerge` | lkl-2.6/block/elevator.c:472-514 | what it finds can take the bio at that side; a request it could have found at the back is hidden only by another with the same end |
| `Merging.MergeQueue.MergeBio` | lkl-2.6/block/blk-core.c:1203-1268 | the part before the lock is dropped: the bio is in the queue exactly once or not at all, and a request it could join at the back is passed by only if one next to the bio does not admit it |
| `Merging.MergeQueue.MakeRequest` | lkl-2.6/block/blk-core.c:1178-1306 | wherever a bio goes, the queue then holds the bios it held and this one, each in exactly one place; a barrier is never merged and empties the elevator |
| `Merging.MergeQueue.Dispatch` | lkl-2.6/block/elevator.c:413-469 | a request that goes to the dispatch list is no longer sorted, hashed or cached |
| `Merging.MergeQueue.Drain` | lkl-2.6/block/elevator.c:570-582 | a forced dispatch leaves nothing sorted |
| `Merging.RqIsServable` | lkl-2.6/block/blk-core.c:1704-1729 | a request built by merges has sound bios, its length is theirs, and if it is mixed its failfast bits lie inside its first bio's |
| `Merging.MergeQueue.Start` | lkl-2.6/block/blk-core.c:1871-1918 | the driver gets a valid request with just the bios, length, sector and failfast bits of the queued one, which is on no hash chain, so the BUG_ON never fires |
| `Merging.MergeQueue.Serve` | lkl-2.6/block/blk-core.c:1704-1729 | of every request a queue can hold, after any partial completions, which bios ended with which errors; a failure up to the next boundary takes at least one byte while data is left, so over all merges and completions that BUG_ON never fires |
| `Merging.MergeQueue.FailAfter` | lkl-2.6/block/blk-core.c:2276-2280 | failing what is left of it, piece by piece, ends every one of its bios exactly once |
| `Deadline.AliasIffTaken` | lkl-2.6/block/elevator.c:356-377 | an alias is found iff some request of the tree starts at the sector |
| `Deadline.MovedInv` | lkl-2.6/block/deadline-iosched.c:207-222 | moving a request to the dispatch queue keeps the invariant |
| `Deadline.AddedInv` | lkl-2.6/block/deadline-iosched.c:101-113 | so does adding one, with the alias moved out of its way |
| `Deadline.FrontMergedInv` | lkl-2.6/block/deadline-iosched.c:156-168 | and a merge at the front, which moves the request in its tree |
| `Deadline.InheritedAged` | lkl-2.6/block/deadline-iosched.c:171-189 | a FIFO stays ordered by expiry when a request takes over the place and time of one that expires sooner |
| `Deadline.JoinedInv` | lkl-2.6/block/deadline-iosched.c:171-189 | joining two requests keeps the invariant |
| `Deadline.ChoiceInTree` | lkl-2.6/block/deadline-iosched.c:245-327 | what dispatch chooses is in the tree of its direction, and it chooses nothing only if both FIFOs are empty |
| `Deadline.DispatchedInv` | lkl-2.6/block/deadline-iosched.c:245-327 | dispatching keeps the invariant |
| `DeadlineTheorems.Apply` | lkl-2.6/block/deadline-iosched.c:76-327 | every operation leads from a state with the invariant to another |
| `DeadlineTheorems.Reachable` | lkl-2.6/block/deadline-iosched.c:76-239 | in every reachable state: in a tree iff in that FIFO, distinct ascending sectors, ascending expiry, at most one next_rq and it is in its tree, nothing dispatched twice |
| `DeadlineTheorems.NewBatchServesEarliest` | lkl-2.6/block/deadline-iosched.c:228-320 | a new batch in a direction where a request has expired starts with an earliest-expiring one |
| `DeadlineTheorems.NewBatchGoesOn` | lkl-2.6/block/deadline-iosched.c:298-315 | a new batch with nothing expired goes on from next_rq; without one it starts with an earliest-expiring request |
| `DeadlineTheorems.AddedWithDeadline` | lkl-2.6/block/deadline-iosched.c:101-113 | a request joins with the deadline of its direction, behind all others |
| `DeadlineTheorems.JoinedSooner` | lkl-2.6/block/deadline-iosched.c:171-189 | joined, it has the sooner of two deadlines and the end of the second |
| `DeadlineTheorems.JoinMovesNext` | lkl-2.6/block/deadline-iosched.c:87-95 | if next_rq disappears, the nearest request above takes its place |
| `DeadlineTheorems.BatchGoesUp` | lkl-2.6/block/deadline-iosched.c:207-222 | a batch goes on with the nearest request above the one dispatched, in one direction only |
| `DeadlineTheorems.BatchRunsFull` | lkl-2.6/block/deadline-iosched.c:256-263 | over every run, a batch with a next_rq goes on with it exactly until it has had fifo_batch requests |
| `DeadlineTheorems.ReadPickCosts` | lkl-2.6/block/deadline-iosched.c:245-327 | a dispatch that picks a read while a write waits uses up patience |
| `DeadlineTheorems.WritesNotStarved` | lkl-2.6/block/deadline-iosched.c:245-327 | while a write waits at most (writes_starved + 1) * max(fifo_batch, 1) dispatches in a row pick reads, whatever happens in between |
| `DeadlineTheorems.ReadsGoFirst` | lkl-2.6/block/deadline-iosched.c:265-289 | over every run, when no batch runs and a read waits the next pick is a read iff no write waits or fewer than writes_starved read batches have passed waiting writes |
| `DeadlineTheorems.ReadsNotStarved` | lkl-2.6/block/deadline-iosched.c:245-327 | while a read waits at most 2 * max(fifo_batch, 1) dispatches in a row pick writes, if writes_starved is positive |
| `DeadlineTheorems.ReadsCanStarve` | lkl-2.6/block/deadline-iosched.c:265-289 | if it is zero, for every number a run with that many |
| `DeadlineDevice.DeadlineData.RbAdd` | lkl-2.6/block/elevator.c:356-377 | the descent finds the alias or inserts at the place in order, for any shape of the tree |
| `DeadlineDevice.DeadlineData.RemoveRequest` | lkl-2.6/block/deadline-iosched.c:87-124 | removal from tree, FIFO and next_rq |
| `DeadlineDevice.DeadlineData.MoveRequest` | lkl-2.6/block/deadline-iosched.c:195-222 | the move of the state machine |
| `DeadlineDevice.DeadlineData.AddRqRb` | lkl-2.6/block/deadline-iosched.c:77-84 | the loop moves at most one alias away |
| `DeadlineDevice.DeadlineData.AddRequest` | lkl-2.6/block/deadline-iosched.c:101-113 | the addition of the state machine |
| `DeadlineDevice.DeadlineData.MergedRequest` | lkl-2.6/block/deadline-iosched.c:156-168 | the front merge of the state machine |
| `DeadlineDevice.DeadlineData.MergedRequests` | lkl-2.6/block/deadline-iosched.c:171-189 | the join of the state machine |
| `DeadlineDevice.DeadlineData.DispatchRequests` | lkl-2.6/block/deadline-iosched.c:245-327 | the code with its jumps picks what the state machine chooses and appends just that request |
| `Tags.FirstZero` | lkl-2.6/block/blk-tag.c:367-370 | the first clear bit below the limit, or the limit |
| `Tags.StepInv` | lkl-2.6/block/blk-tag.c:282-384 | every single access to the shared map, down to one word of a scan, keeps the invariant |
| `TagTheorems.TagsAreExclusive` | lkl-2.6/block/blk-tag.c:282-384 | over every interleaving no two requests carry one tag, and tag_index names only the request whose bit is set |
| `TagTheorems.EndFindsItsTag` | lkl-2.6/block/blk-tag.c:282-316 | ending a tag finds the request's own entry and bit, so none of its error branches is taken |
| `TagTheorems.GrowKeepsTags` | lkl-2.6/block/blk-tag.c:220-265 | the copy stays inside the new arrays iff the clamped depth is at least the old one, and then nothing but the depths changes |
| `TagTheorems.GrowCanOverrun` | lkl-2.6/block/blk-tag.c:252-260 | an empty map of sixteen tags whose copy writes eight entries past the new index |
| `TagTheorems.SyncFindsTag` | lkl-2.6/block/blk-tag.c:351-372 | with a fixed depth of three or more whose last two tags share a word, a sync request reads no word that makes it give up while fewer than two bits are set for sync requests |
| `TagTheorems.GivesUpAtTheEnd` | lkl-2.6/block/blk-tag.c:367-372 | a request goes away without a tag only after reading a last word full of set bits; a tag lost to another queue sends it back to the first word |
| `TagStraddle.SyncCanMiss` | lkl-2.6/block/blk-tag.c:351-372 | for every depth whose last two tags are in different words, a run in which it gives up nevertheless |
| `TagQueue.Queue.constructor` | lkl-2.6/block/blk-tag.c:108-138 | an empty map of the clamped depth |
| `TagQueue.Queue.FindFirstZero` | lkl-2.6/block/blk-tag.c:368 | the first clear bit of the array below the limit |
| `TagQueue.Queue.ClaimBit` | lkl-2.6/block/blk-tag.c:367-372 | the loop sets the first clear bit and no other |
| `TagQueue.Queue.StartTag` | lkl-2.6/block/blk-tag.c:337-384 | when it fails and what it then leaves alone; otherwise a free tag below the limit and the request in front of the busy list |
| `TagQueue.Queue.EndTag` | lkl-2.6/block/blk-tag.c:282-316 | clears the request's own bit and entry only |
| `TagQueue.Queue.RequeueRequest` | lkl-2.6/block/blk-core.c:975-987 | the request goes to the front of the dispatch list without its tag |
| `TagQueue.Queue.InvalidateTags` | lkl-2.6/block/blk-tag.c:399-405 | every tag is free and the dispatch list is the busy requests in the order they were started, then the old list |
| `TagQueue.Queue.CopyTags` | lkl-2.6/block/blk-tag.c:252-260 | the new arrays, and what is written past them, when as many entries and whole words of bits as the old map had are copied |
| `Lists.CopyInto` | lkl-2.6/block/blk-tag.c:258-260 | a copy of n elements: what the destination then holds, and what went past its end |
| `TagQueue.Queue.ResizeTags` | lkl-2.6/block/blk-tag.c:220-265 | shrinking changes max_depth only; a shared map is not grown; growing leaves what the copy leaves, inside the new arrays iff the clamped depth is at least the old one, and then the map is consistent with every tag in use |
| `Pool.StepInv` | lkl-2.6/block/blk-core.c:727-843 | every step of allocators, releases and the switch keeps the counts exact |
| `Pool.CountsAreExact` | lkl-2.6/block/blk-core.c:727-843 | over every interleaving count is the requests live or being allocated and at most 3 * nr_requests / 2, elvpriv is those with private data, all of it of the elevator in place |
| `Pool.SwitchFindsNoData` | lkl-2.6/block/elevator.c:999-1066 | the elevator is replaced or put back only while no request has or is about to get private data |
| `Pool.OnlyBatchersExceed` | lkl-2.6/block/blk-core.c:759-790 | once nr_requests are out only batching or exempted processes get another |
| `Pool.AdmittedIff` | lkl-2.6/block/blk-core.c:755-790 | over every interleaving: a process gets a request iff the scheduler lets it and fewer than nr_requests are out, or fewer than 3 * nr_requests / 2 and it is batching or exempted |
| `Pool.StarvedIsMarked` | lkl-2.6/block/blk-core.c:811-828 | a process that goes away while its direction has no request leaves it marked starved |
| `Pool.StarvedHasNone` | lkl-2.6/block/blk-core.c:811-828 | a direction is marked starved only while it has no request |
| `Pool.AlwaysCounted` | lkl-2.6/block/blk-core.c:1098-1124 | a request of the pool is always counted, so the counters never go below zero |
| `Pool.RequestList.GetRequest` | lkl-2.6/block/blk-core.c:746-806 | the code with its jumps admits exactly those processes, and as the state machine does |
| `Pool.RequestList.MakeRoom` | lkl-2.6/block/blk-core.c:708-721 | the full flag is cleared iff there is room again |
| `Pool.RequestList.FreedRequest` | lkl-2.6/block/blk-core.c:727-739 | the release of the state machine, with the other direction served if it starved |
| `CfqFairness.SpreadStays` | lkl-2.6/block/cfq-iosched.c:912-929 | the vdisktime spread never exceeds the larger of what it was and the largest scaled charge |
| `CfqFairness.ServiceIs` | lkl-2.6/block/cfq-iosched.c:504-511 | a group's service is its gain in vdisktime times its weight, and what the divisions dropped |
| `CfqFairness.DefaultWeight` | lkl-2.6/block/cfq-iosched.c:504-511 | a group of the default weight is charged its slice |
| `CfqFairness.Fair` | lkl-2.6/block/cfq-iosched.c:912-929 | service over weight differs by at most twice the spread and what was dropped |
| `CfqFairness.ExactIff` | lkl-2.6/block/cfq-iosched.c:504-511 | a weight's charges are never rounded iff it divides 4096 * 500 |
| `CfqFairness.FairWithinAConstant` | lkl-2.6/block/cfq-iosched.c:504-511 | for such a weight the difference is bounded by a constant over every run |
| `CfqFairness.FairUpToRounding` | lkl-2.6/block/cfq-iosched.c:504-511 | for any weight it grows by at most one unit a slice |
| `CfqFairness.NotWithinAConstant` | lkl-2.6/block/cfq-iosched.c:504-511 | for every other weight, whatever the weight of the other group, and for every bound there is a run of bounded charges that exceeds it |
| `CfqTree.ServiceTree.Erase` | lkl-2.6/block/cfq-iosched.c:754-760 | the cache is dropped with the group it names and stays right otherwise |
| `CfqTree.ServiceTree.Add` | lkl-2.6/block/cfq-iosched.c:806-831 | inserted behind the groups with the same key; the tree stays ordered and the cached group its first, for any shape of the tree |
| `CfqTree.ServiceTree.AddGroup` | lkl-2.6/block/cfq-iosched.c:834-859 | a new group starts CFQ_IDLE_DELAY behind the last of the others, or at min_vdisktime |
| `CfqTree.ServiceTree.First` | lkl-2.6/block/cfq-iosched.c:737-746 | the cached group, found again if it was dropped |
| `CfqTree.ServiceTree.UpdateMin` | lkl-2.6/block/cfq-iosched.c:531-547 | with a leftmost group min_vdisktime becomes the least vdisktime; with none it goes by the active group and never back |
| `CfqTree.ServiceTree.GetNext` | lkl-2.6/block/cfq-iosched.c:2131-2142 | the group it picks has the least vdisktime of all |
| `CfqTree.ServiceTree.GroupServed` | lkl-2.6/block/cfq-iosched.c:912-929 | only the served group's vdisktime changes, by the scaled charge, and the tree stays in order |
| `DispatchSort.KeepsSweep` | lkl-2.6/block/elevator.c:413-449 | sorted insertion keeps the run at the back of the queue in the order of one sweep |
| `DispatchSort.SweepIsDistance` | lkl-2.6/block/elevator.c:413-449 | that order is the order of the distances a head at end_sector has to go up, from the end of the disk back to its start |
| `DispatchSort.SeriesKeepsSweep` | lkl-2.6/block/elevator.c:413-449 | so does any series of insertions, and everything up to a barrier or started request stays as it was |
| `DispatchSort.PassesOnlyItsKind` | lkl-2.6/block/elevator.c:413-449 | a request is put ahead only of requests of its direction and kind that are no barriers and not started |
| `DispatchSort.DispatchQueue.Sort` | lkl-2.6/block/elevator.c:413-449 | the walk from the back inserts at that place |

## Left out

- Barriers: the mode of a queue is fixed in a run; flush requests are not fs requests; only fs requests are barriers; a forced dispatch of the elevator empties it; no fs request is inserted at the front; merges happen between requests that the elevator still has.
- Ordering by tag: only the statements about every mode hold there; that the device keeps tagged commands in order is not part of this model.
- Segments.MapSg: does not model padding, the drain entry and the 32-bit wrap-around of sizes; nor are bi_seg_front_size and bi_seg_back_size modelled, and with them the contiguity discount of `ll_merge_requests_fn`.
- Merging.MergeQueue.MakeRequest: the lock is dropped between its two halves, MergeBio and AddRequest, while it waits for a request; each half is stated for every queue, and their sequence without the wait.
- Completion.Request.UpdateRequest: does not model discards, bidirectional requests, statistics and the barrier's own request.
- Merging: the order of requests in a hash bucket, plugging, I/O priorities and start times; whether device, integrity, scheduler and segment limits admit a merge comes from outside; requeued requests.
- Merging of discard with other requests is not distinguished.
- Deadline scheduler: wrap-around of jiffies and of the counters; writes_starved is never negative; elv_rb_find and the tunables in sysfs.
- TagTheorems.EndFindsItsTag: its runs leave out a growth clamped below the old depth, whose copy leaves the new arrays and so leads to no state.
- Tags: reference counts, freeing of maps and allocation failure.
- Pool: wait queues and wake-ups, the congestion flags, changes of nr_requests, mempools.
- CFQ: everything but the groups' service tree; 64-bit wrap-around of vdisktime; changes of weights and of the set of groups within a run.
- DispatchSort.SeriesKeepsSweep: end_sector is fixed over the series; the bookkeeping of the merge hash and of nr_sorted is not modelled.
- Cast6 and Blowfish key setup: round trips hold for every subkey, so what the setups compute is not modelled.
- The contents of all S-boxes and SP tables, and the byte order of blocks read and written.
- The other files of the block layer and of crypto: plumbing, registration, or easier claims.
