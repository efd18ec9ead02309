# Block layer and crypto core: a verified model

A Dafny model of the hardest parts of the Linux 2.6 kernel in `linux-2.6-cloud-2000/`, and proofs of
what they promise. Run `dafny verify dfyconfig.toml` in this directory to check it.

Code that changes an object step by step is a class whose methods update its fields. Each method is
proved against a function of the state before it, and the theorems are about those functions: over
every run of a step system, every interleaving of its locked sections, or every input.

- **Barriers** (`BarrierModel`, `BarrierProof`, `BarrierTheorems`, `RequestQueue`). The request queue as
  a step system: additions, dispatches by any scheduler, peeks, starts, requeues and completions, in any
  order. Requests carry an epoch for the proofs that the code never reads; the code has one colour bit.
  The theorems say that a barrier orders all fs requests, that no BUG_ON or WARN_ON is reached, that
  barriers end once, in order and with the first error, and that nothing gets stuck. They need three
  things of submitters, and `DisciplineIsExact` proves that no kind of addition beyond these is safe.
- **AES** (`Gf256`, `Fips197`, `AesWords`, `AesGeneric`). The table-driven rounds and the two key
  schedules against the definitions of FIPS 197, up to decryption undoing encryption for every key.
- **Merging** (`Segments`, `Merging`, `MakeRequest`). Submission and merging of bios over every run: no
  bio is lost, requests stay contiguous and within limits, and the scatterlist fits the segment count.
  The key is that greedy segmentation is minimal and that any merge sequence leaves a witness cut.
- **Partial completion** (`PartialCompletion`). `blk_update_request` over every split of a request.
- **Removing algorithms** (`RemoveSpawns`). The explicit-stack search over the dependency graph.
- **Deadline scheduler** (`Deadline`, `DeadlineRuns`, `DeadlineQueue`), **sorted dispatch**
  (`DispatchSort`), **tags** (`TagAllocator`), **request allocation and elevator switch**
  (`ElevatorSwitch`) and **CFQ counters** (`CfqCounters`): invariants over every run.
- **crypto_inc** and the **crypto request queue** (`CryptoInc`, `CryptoQueue`).

What depends on hardware, the clock, memory or a scheduler's choice is a parameter of a step: the time
of a call, whether an allocation succeeds, which request a lookup or a dispatch callback offers.

Some promises do not hold of the code as it stands. In each case the code is modelled as it is, a run
or input that breaks the promise is given, and the condition under which it holds is proved to be exact:

- A barrier flag on a request that is not fs turns the colour bit although no sequence follows, and the
  next barrier can then pass an fs request that is requeued (`SpecialBarrierBreaksOrder`). Together with
  front insertion (`FrontInsertedFsOvertakes`) this is exactly what has to be ruled out.
- The bios of `bar_rq` are not shortened, so its completion in pieces comes to an end exactly if the
  pieces end at bio boundaries (`BarSplitIsExact`).
- `blk_update_request` keeps its byte total in a signed int, so a call for 2^31 bytes or more that leaves
  bios moves `__sector` 2^23 sectors too low (`SectorGoesWrong`, `SectorIsExact`, `TwoCallsAreOne`).
- Lengths and cached segment sizes are added in 32 bits. They wrap in some run exactly if the sector
  maximum is at least 2^32/512 and the limits let a request take a bio at all (`LengthsFitIsExact`,
  `SeamsHoldIsExact`).
- Peeking at overlapping requests can break the sector order of the dispatch queue
  (`OverlapBreaksSweep`); `SweepsIsExact` says over every run when it does.
- A tag map that is replaced by one clamped below it is copied past the end of the new one
  (`ResizeOverruns`, `ResizeKeeps`).

The comment in `start_ordered` (`block/blk-barrier.c:188-193`) names front-inserted fs requests only; the
code needs the other two conditions of `DisciplineIsExact` as well.

## Model

| member | source | states |
|---|---|---|
| `BarrierTheorems.BarriersHold` | linux-2.6-cloud-2000/block/blk-barrier.c:154-280 | over every run of a queue in any draining mode, with any number of queued barriers and with requeues: whenever a proxy is at the driver every fs request added before its barrier has completed, and whenever an fs request is at the driver every barrier added before it has ended |
| `BarrierTheorems.NoBugNoWarn` | linux-2.6-cloud-2000/block/blk-barrier.c:92-112 | over every such run no stage bit is set twice, no BUG_ON is reached and the WARN_ON on the stage order stays silent |
| `BarrierTheorems.ProxiesInOrder` | linux-2.6-cloud-2000/block/blk-barrier.c:132-234 | at most one proxy is at the driver, and it is the proxy of the first stage that is not done: PREFLUSH, BAR and POSTFLUSH go out in this order |
| `BarrierTheorems.BarriersEndOnce` | linux-2.6-cloud-2000/block/blk-barrier.c:92-112 | the barriers end once each and in the order they were added, each with the first non-zero error that its stages, or parts of its bar_rq, reported; a barrier is completed exactly if it has ended |
| `BarrierTheorems.NeverStuck` | linux-2.6-cloud-2000/block/blk-barrier.c:236-280 | with nothing at the driver a sequence in progress has something queued and the head of the queue is not held back, so no sequence hangs |
| `BarrierTheorems.DisciplineIsExact` | linux-2.6-cloud-2000/block/elevator.c:709-744 | the order and the silence of the BUG_ONs hold of all runs that may also add one further kind of request exactly if that kind is no front-inserted fs request, no barrier flag on a request that is not fs, and no request that is not fs for the scheduler to sort |
| `BarrierTheorems.SortedSpecialIsBug` | linux-2.6-cloud-2000/block/elevator.c:646-647 | handing a request that is not fs to the scheduler reaches its BUG_ON |
| `BarrierTheorems.FrontInsertedFsOvertakes` | linux-2.6-cloud-2000/block/elevator.c:623-627 | an fs request inserted at the front overtakes a barrier that was added before it |
| `BarrierTheorems.SpecialBarrierBreaksOrder` | linux-2.6-cloud-2000/block/elevator.c:712-721 | a barrier flag on a request that is not fs turns the colour without starting a sequence; a run follows in which a BAR proxy is at the driver while an earlier fs request is not done |
| `BarrierProof.InitialHolds` | linux-2.6-cloud-2000/block/blk-barrier.c:25-50 | the invariant holds of an empty queue in any draining mode |
| `BarrierProof.ExecKeeps` | linux-2.6-cloud-2000/block/elevator.c:612-744 | every enabled and disciplined step (add, dispatch, peek, start, requeue, completion, completion of a part of bar_rq) keeps the invariant |
| `BarrierProof.PartKeeps` | linux-2.6-cloud-2000/block/blk-core.c:162-170 | an error of a part of bar_rq keeps the invariant: the recorded error stays the first one reported |
| `BarrierProof.RunKeeps` | linux-2.6-cloud-2000/block/elevator.c:612-744 | every run of such steps keeps the invariant |
| `BarrierProof.FarEpochShielded` | linux-2.6-cloud-2000/block/blk-barrier.c:83-89 | one bit of colour is enough: a queued request two or more epochs ahead has in front of it a request that the stage comparison already holds back |
| `BarrierProof.PassableIsNewest` | linux-2.6-cloud-2000/block/elevator.c:413-469 | a queued fs request that the scheduler may still be dispatched in front of is of the newest epoch |
| `BarrierProof.FrontIsCurrent` | linux-2.6-cloud-2000/block/blk-barrier.c:236-262 | between sequences an fs request at the front of the queue belongs to the oldest open epoch |
| `BarrierProof.BarrierBehind` | linux-2.6-cloud-2000/block/elevator.c:426-436 | the barrier that closes the epoch of a queued fs request is at or behind it and stops sorted insertion there |
| `BarrierProof.OldestBarrierWaits` | linux-2.6-cloud-2000/block/blk-barrier.c:236-262 | between sequences the oldest barrier that has not ended is itself in the queue |
| `BarrierProof.RequeueProxyOrder` | linux-2.6-cloud-2000/block/elevator.c:664-692 | a proxy put back by its stage number lands behind exactly the requests that belong before it |
| `BarrierProof.CompleteSeqKeeps` | linux-2.6-cloud-2000/block/blk-barrier.c:92-112 | setting the bits of a stage, and ending the sequence when it was the last, keeps the invariant |
| `BarrierProof.AddBackKeeps` | linux-2.6-cloud-2000/block/elevator.c:629-632 | a back insert into a drained queue keeps the invariant, barrier or not |
| `BarrierProof.DispatchKeeps` | linux-2.6-cloud-2000/block/elevator.c:413-469 | whatever request the scheduler hands over, and to whichever allowed place, the invariant is kept |
| `BarrierModel.RequeuePos` | linux-2.6-cloud-2000/block/elevator.c:683-691 | the first place in the queue whose stage is not below that of the requeued request: all before it are below, the one there is not |
| `RequestQueues.NextRequest` | linux-2.6-cloud-2000/block/blk.h:54-68 | a request that is returned is the head of the queue the loop leaves behind |
| `RequestQueues.PeekRequestIsRun` | linux-2.6-cloud-2000/block/blk.h:54-68 | peeking, with all the turns of its loop, is a run of disciplined steps of the protocol, so the theorems about runs apply to it |
| `RequestQueues.RequestQueue.CompleteStages` | linux-2.6-cloud-2000/block/blk-barrier.c:92-112 | the new state is that of the protocol step; true exactly when the sequence is over |
| `RequestQueues.RequestQueue.CompletePart` | linux-2.6-cloud-2000/block/blk-core.c:162-170 | the first error is kept and the report is noted, as one step of the protocol |
| `RequestQueues.RequestQueue.EndBarrier` | linux-2.6-cloud-2000/block/blk-barrier.c:106-110 | the original barrier ends with the recorded error and the sequence is cleared |
| `RequestQueues.RequestQueue.StackProxies` | linux-2.6-cloud-2000/block/blk-barrier.c:194-220 | the proxies that the mode asks for are in front of the queue in the order of their stages, and the skipped stages are those without a proxy |
| `RequestQueues.RequestQueue.BeginSequence` | linux-2.6-cloud-2000/block/blk-barrier.c:154-220 | barrier out, proxies in, as one step of the protocol |
| `RequestQueues.RequestQueue.StartSequence` | linux-2.6-cloud-2000/block/blk-barrier.c:154-234 | the protocol step; true unless every stage was skipped; holds back exactly while requests are in flight |
| `RequestQueues.RequestQueue.Consult` | linux-2.6-cloud-2000/block/blk-barrier.c:236-280 | the new state and the verdict (issue, hold back, or gone) are those of the protocol step |
| `RequestQueues.RequestQueue.DispatchNext` | linux-2.6-cloud-2000/block/elevator.c:413-469 | one request moves from the scheduler to the place the plan gives |
| `RequestQueues.RequestQueue.FindNext` | linux-2.6-cloud-2000/block/blk.h:54-68 | state and request are those of the specified loop |
| `RequestQueues.RequestQueue.PeekFront` | linux-2.6-cloud-2000/block/blk-core.c:1787-1814 | returns exactly the request the loop finds, if any, and that request, the head of the queue, is now marked started |
| `RequestQueues.RequestQueue.StartRequest` | linux-2.6-cloud-2000/block/blk-core.c:1871-1918 | the request leaves the queue for the driver and is counted in flight if it is accounted |
| `RequestQueues.RequestQueue.CompletedByElevator` | linux-2.6-cloud-2000/block/elevator.c:837-867 | in-flight count down, and the drain stage ends exactly when nothing older is in flight or queued |
| `RequestQueues.RequestQueue.CompleteRequest` | linux-2.6-cloud-2000/block/blk-core.c:1098-1124 | the end of a request or of a proxy, as one protocol step |
| `RequestQueues.RequestQueue.RequeueSpot` | linux-2.6-cloud-2000/block/elevator.c:683-691 | the walk finds the specified place |
| `RequestQueues.RequestQueue.RequeueRequest` | linux-2.6-cloud-2000/block/elevator.c:553-568 | requeue as one protocol step: at the front, or by stage while a sequence is in progress |
| `RequestQueues.RequestQueue.DrainScheduler` | linux-2.6-cloud-2000/block/elevator.c:570-582 | all planned dispatches are done, in order |
| `RequestQueues.RequestQueue.InsertRequest` | linux-2.6-cloud-2000/block/elevator.c:612-707 | a request at the front, or at the back behind everything the scheduler held, or with the scheduler; a special request for the scheduler is the BUG_ON |
| `RequestQueues.RequestQueue.AddRequest` | linux-2.6-cloud-2000/block/elevator.c:709-744 | colour, barrier and end_sector bookkeeping and then insertion, as one protocol step |
| `Gf256.SboxIsAffineInverse` | linux-2.6-cloud-2000/crypto/aes_generic.c:329-591 | each byte of the table is the affine transform of the multiplicative inverse in the field (section 5.1.1 of FIPS 197), with 0 its own inverse |
| `Gf256.SboxRoundTrip` | linux-2.6-cloud-2000/crypto/aes_generic.c:857-1119 | the inverse table undoes the table on every byte |
| `Gf256.TimesIsMul` | linux-2.6-cloud-2000/crypto/aes_generic.c:1128-1139 | the multiples by 2, 3, 9, 11, 13 and 14 are products of the field |
| `Gf256.FirstByteUnmixed` | linux-2.6-cloud-2000/crypto/aes_generic.c:1130-1139 | the coefficients 14, 11, 13, 9 undo 2, 3, 1, 1 on a byte of a column |
| `Fips197.MixColumnUndone` | linux-2.6-cloud-2000/crypto/aes_generic.c:1130-1139 | InvMixColumns undoes MixColumns on every column |
| `Fips197.InvCipherUndoesCipher` | linux-2.6-cloud-2000/crypto/aes_generic.c:1401-1440 | for every schedule and number of rounds the inverse cipher of section 5.3 of FIPS 197 undoes the cipher of section 5.1 |
| `Fips197.EquivalentInverse` | linux-2.6-cloud-2000/crypto/aes_generic.c:1258-1266 | with the InvMixColumns-transformed schedule the equivalent inverse cipher of section 5.3.5 of FIPS 197 is the inverse cipher |
| `AesWords.FnIsMixed` | linux-2.6-cloud-2000/crypto/aes_generic.c:1300-1305 | the four table look-ups of a round word are SubBytes, ShiftRows, MixColumns and AddRoundKey of that column |
| `AesWords.FlIsSubstituted` | linux-2.6-cloud-2000/crypto/aes_generic.c:1315-1320 | the last-round word is the same without MixColumns |
| `AesWords.InIsMixed` | linux-2.6-cloud-2000/crypto/aes_generic.c:1372-1377 | the inverse-round word is InvSubBytes, InvShiftRows, InvMixColumns and the key |
| `AesWords.IlIsSubstituted` | linux-2.6-cloud-2000/crypto/aes_generic.c:1387-1392 | the last inverse-round word is the same without InvMixColumns |
| `AesWords.LsBoxSubstitutes` | linux-2.6-cloud-2000/crypto/aes_generic.c:1141-1145 | ls_box is SubWord |
| `AesWords.ImixIsInvMixColumn` | linux-2.6-cloud-2000/crypto/aes_generic.c:1128-1139 | imix_col, all four bytes in one word, is InvMixColumns of the column |
| `AesWords.RcoTabIsRcon` | linux-2.6-cloud-2000/crypto/aes_generic.c:63-63 | rco_tab holds the round constants |
| `AesGeneric.NormalRoundIsRound` | linux-2.6-cloud-2000/crypto/aes_generic.c:1307-1312 | f_nround is a round of the cipher |
| `AesGeneric.LastRoundIsFinal` | linux-2.6-cloud-2000/crypto/aes_generic.c:1322-1327 | f_lround is its final round |
| `AesGeneric.InvNormalRoundIsEqRound` | linux-2.6-cloud-2000/crypto/aes_generic.c:1379-1384 | i_nround is a round of the equivalent inverse cipher |
| `AesGeneric.InvLastRoundIsFinal` | linux-2.6-cloud-2000/crypto/aes_generic.c:1394-1399 | i_lround is its final round |
| `AesGeneric.GroupWord` | linux-2.6-cloud-2000/crypto/aes_generic.c:1147-1151 | the first word of a group is the word of KeyExpansion with RotWord, SubWord and Rcon |
| `AesGeneric.PlainWord` | linux-2.6-cloud-2000/crypto/aes_generic.c:1152-1158 | the following words are those of KeyExpansion |
| `AesGeneric.MiddleWord` | linux-2.6-cloud-2000/crypto/aes_generic.c:1190-1194 | the middle word of a group of eight has the extra SubWord |
| `AesGeneric.EncArrayIsCipher` | linux-2.6-cloud-2000/crypto/aes_generic.c:1216-1268 | key_enc gives the same cipher as KeyExpansion of the key |
| `AesGeneric.DecArrayIsInvCipher` | linux-2.6-cloud-2000/crypto/aes_generic.c:1258-1266 | key_dec, reversed and transformed, gives the inverse cipher of the key |
| `AesGeneric.DecryptUndoesEncrypt` | linux-2.6-cloud-2000/crypto/aes_generic.c:1329-1440 | decryption undoes encryption for every block and every key of 16, 24 or 32 bytes |
| `AesGeneric.AesContext.Loop4` | linux-2.6-cloud-2000/crypto/aes_generic.c:1147-1158 | four more words of KeyExpansion of a 16-byte key |
| `AesGeneric.AesContext.Loop6` | linux-2.6-cloud-2000/crypto/aes_generic.c:1160-1175 | six more words for a 24-byte key |
| `AesGeneric.AesContext.Loop8TopHalf` | linux-2.6-cloud-2000/crypto/aes_generic.c:1177-1188 | four more words for a 32-byte key |
| `AesGeneric.AesContext.Loop8` | linux-2.6-cloud-2000/crypto/aes_generic.c:1190-1202 | eight more words for a 32-byte key |
| `AesGeneric.AesContext.FillEnc` | linux-2.6-cloud-2000/crypto/aes_generic.c:1228-1256 | key_enc holds KeyExpansion (section 5.2 of FIPS 197) for each of the three key lengths |
| `AesGeneric.AesContext.FillDec` | linux-2.6-cloud-2000/crypto/aes_generic.c:1258-1266 | key_dec holds the reversed schedule, transformed except at its ends (section 5.3.5 of FIPS 197) |
| `AesGeneric.AesContext.ExpandKey` | linux-2.6-cloud-2000/crypto/aes_generic.c:1216-1268 | true exactly for the three key lengths, then both schedules are those of the key; otherwise nothing changes |
| `AesGeneric.AesContext.EncryptRounds` | linux-2.6-cloud-2000/crypto/aes_generic.c:1343-1361 | the unrolled rounds apply the round function in order with the right keys, for 10, 12 and 14 rounds |
| `AesGeneric.AesContext.DecryptRounds` | linux-2.6-cloud-2000/crypto/aes_generic.c:1415-1433 | all inverse rounds but the last, in descending order of their round keys, for 10, 12 and 14 rounds |
| `AesGeneric.AesContext.Encrypt` | linux-2.6-cloud-2000/crypto/aes_generic.c:1329-1368 | the output is the cipher of section 5.1 of FIPS 197 under the expanded key |
| `AesGeneric.AesContext.Decrypt` | linux-2.6-cloud-2000/crypto/aes_generic.c:1401-1440 | the output is the inverse cipher of section 5.3 of FIPS 197 |
| `Segments.GreedyIsSegmentation` | linux-2.6-cloud-2000/block/blk-merge.c:118-200 | the greedy walk cuts the data into runs, each a single vector or joining vectors within the segment size |
| `Segments.GreedyIsLeast` | linux-2.6-cloud-2000/block/blk-merge.c:118-200 | no way to cut the data has fewer runs, and none with as few has a smaller last run |
| `Segments.MapWithinCount` | linux-2.6-cloud-2000/block/blk-merge.c:118-200 | if any cut has n runs then blk_rq_map_sg emits at least one and at most n entries |
| `Segments.MappedCovers` | linux-2.6-cloud-2000/block/blk-merge.c:118-200 | the entries cover the data in order: each starts where a run of joining vectors starts and has the length of the run |
| `Segments.GreedyIsBounded` | linux-2.6-cloud-2000/block/blk-merge.c:12-70 | a recount, which also keeps bounced high pages apart, is a valid bound with cached sizes that over-estimate |
| `Segments.RunsWithin` | linux-2.6-cloud-2000/block/blk-merge.c:134-170 | no run is larger than the data, so the 32-bit sums of both loops do not wrap for a request whose length fits in 32 bits |
| `Segments.BoundedApart` | linux-2.6-cloud-2000/block/blk-merge.c:203-222 | data put end to end: counts add up, outer cached sizes stay bounds |
| `Segments.BoundedJoined` | linux-2.6-cloud-2000/block/blk-merge.c:273-308 | data whose inner ends join within the segment size: one entry fewer, with the sizes of one-run pieces grown over the seam |
| `Segments.Mapped` | linux-2.6-cloud-2000/block/blk-merge.c:118-200 | as many entries as the greedy cut has runs; none exactly for no data |
| `Segments.MapStep` | linux-2.6-cloud-2000/block/blk-merge.c:134-170 | one turn of the loop, with 32-bit lengths, grows the last entry or opens a new one, and that is the scatterlist of one vector more |
| `Segments.MapBio` | linux-2.6-cloud-2000/block/blk-merge.c:134-170 | the loop over a bio extends the scatterlist of what came before by the bio |
| `Segments.MapSg` | linux-2.6-cloud-2000/block/blk-merge.c:118-200 | the scatterlist of all the bios of the request |
| `Segments.AdvanceScans` | linux-2.6-cloud-2000/block/blk-merge.c:29-60 | one turn of the recount, with 32-bit sizes, keeps count, front size and current run size right |
| `Segments.ScanBio` | linux-2.6-cloud-2000/block/blk-merge.c:29-60 | the inner loop of the recount |
| `Segments.Recalc` | linux-2.6-cloud-2000/block/blk-merge.c:12-70 | the count is the number of runs with high pages apart; the cached sizes become the maximum of what they were and the first and last run |
| `Merging.TryMergePlaces` | linux-2.6-cloud-2000/block/elevator.c:111-126 | below the end of a 64-bit device a back merge is offered only right behind the request and a front merge only right in front |
| `Merging.MergeLimitsOk` | linux-2.6-cloud-2000/block/blk-merge.c:203-271 | a refused merge only marks the request; an accepted one counted the bio, and neither the segment maximum nor the sector limit is exceeded |
| `Merging.BackMergeOk` | linux-2.6-cloud-2000/block/blk-merge.c:224-246 | after a back merge, accepted or refused, the request is well-formed: contiguous from its sector, right length, right tail, count an upper bound, cached sizes at its ends not above its length; accepted, it has exactly the one bio more |
| `Merging.TakenMeansGrown` | linux-2.6-cloud-2000/block/blk-merge.c:203-222 | a request that takes a bio has at least two segments, within the maximum, and the 16-bit sector limit is at least two |
| `Merging.FrontMergeOk` | linux-2.6-cloud-2000/block/blk-merge.c:248-271 | after a front merge, accepted or refused, the request is well-formed, now from the sector of the bio if accepted, and then has exactly the one bio more |
| `Merging.SeamFrontOk` | linux-2.6-cloud-2000/block/blk-merge.c:294-296 | the front size set over the seam is a bound if the sum of the two cached sizes does not wrap |
| `Merging.SeamBackOk` | linux-2.6-cloud-2000/block/blk-merge.c:297-298 | the back size set over the seam is a bound if that sum does not wrap |
| `Merging.SeamFits` | linux-2.6-cloud-2000/block/blk-merge.c:277-291 | under a sector maximum below 2^32/512 the cached sizes at the seam of two requests that pass the sector check add up to no more than the data of both, which is below 2^32 |
| `Merging.SeamBounded` | linux-2.6-cloud-2000/block/blk-merge.c:293-300 | the merged count bounds the entries of both requests together, with or without a run over the seam, if the sum does not wrap |
| `Merging.AttemptMergeOk` | linux-2.6-cloud-2000/block/blk-merge.c:359-430 | right after one of two requests took a bio, merging them leaves a well-formed request with the bios of both, or both exactly as they were |
| `Merging.RefusedUnchanged` | linux-2.6-cloud-2000/block/blk-merge.c:293-303 | right after one of two requests took a bio, a refused merge has not touched the cached sizes of either |
| `Merging.AcceptedMergeOk` | linux-2.6-cloud-2000/block/blk-merge.c:273-308 | the accepted case: contiguous, lengths and counts added, limits kept, cached sizes at the ends not above the joint length |
| `Merging.MergedLengthFits` | linux-2.6-cloud-2000/block/blk-merge.c:413-413 | under a sector maximum below 2^32/512 requests that pass the sector check have a joint length of 32 bits |
| `Merging.NewRequestOk` | linux-2.6-cloud-2000/block/blk-core.c:1138-1167 | a new request for a bio is well-formed and holds that bio |
| `Merging.CountedOk` | linux-2.6-cloud-2000/block/blk-merge.c:77-85 | counting a bio changes only its count and cached sizes, which are then bounds and not above its size |
| `MakeRequest.EveryBioInOneRequest` | linux-2.6-cloud-2000/block/blk-core.c:1178-1306 | over every run of submissions, merges and departures each accepted bio is in exactly one request |
| `MakeRequest.EveryRequestOk` | linux-2.6-cloud-2000/block/blk-core.c:1178-1306 | over every run each request covers one stretch of the disk from its sector, has the total length and the last bio as tail, and a merged one is within the sector and segment limits |
| `MakeRequest.ScatterlistFits` | linux-2.6-cloud-2000/block/blk-merge.c:118-200 | over every run the scatterlist of each request has at least one and at most nr_phys_segments entries, and the data is as long as __data_len says and below 2^32 bytes, so no sum of the loop that makes it wraps |
| `MakeRequest.DrainEntryFits` | linux-2.6-cloud-2000/block/blk-core.c:1819-1827 | with the increment of blk_peek_request the drain entry is covered too |
| `MakeRequest.LengthsFitIsExact` | linux-2.6-cloud-2000/block/blk-merge.c:359-430 | on all queues with these three numbers, whatever joins in memory, the byte length of every request of every run is right in its 32 bits exactly if the sector maximum is below 2^32/512, or its low 16 bits are below two, or the segment maximum is below two |
| `MakeRequest.SeamsHoldIsExact` | linux-2.6-cloud-2000/block/blk-merge.c:88-112 | in no run does a sum of cached sizes at a seam wrap exactly under the same condition |
| `MakeRequest.AttemptedOk` | linux-2.6-cloud-2000/block/blk-merge.c:432-450 | the two requests that a submission tries to merge are well-formed, and there are two only under a sector maximum below 2^32/512 |
| `MakeRequest.WrappedRun` | linux-2.6-cloud-2000/block/blk-merge.c:273-308 | without the condition, three submissions reach a request of 2^32 + 512 bytes whose length says 512 |
| `MakeRequest.RunKeeps` | linux-2.6-cloud-2000/block/blk-core.c:1178-1306 | every run keeps all requests well-formed and no bio lost or doubled |
| `MakeRequest.SubmitKept` | linux-2.6-cloud-2000/block/blk-core.c:1178-1306 | one submission, whichever request the lookup offers and whichever neighbour is then merged, keeps every request well-formed and accounts for the new bio |
| `MakeRequest.NeighboursKept` | linux-2.6-cloud-2000/block/blk-merge.c:359-450 | merging two queued requests, one of which has just taken a bio, keeps every request well-formed and the bios the same |
| `MakeRequest.MergeQueue.Count` | linux-2.6-cloud-2000/block/blk-merge.c:77-85 | the bio with a count and cached sizes; unchanged if it had them |
| `MakeRequest.MergeQueue.Map` | linux-2.6-cloud-2000/block/blk-merge.c:118-200 | the loop gives the scatterlist of a request whose data is below 2^32 bytes, which ScatterlistFits says of every request |
| `MakeRequest.MergeQueue.CheckLimits` | linux-2.6-cloud-2000/block/blk-merge.c:224-271 | the answer of the limit checks, with the counts of the bio and of the end of the request brought up to date and no other request touched |
| `MakeRequest.MergeQueue.MergeSegments` | linux-2.6-cloud-2000/block/blk-merge.c:273-308 | the answer, the joint count if accepted, and the 32-bit cached sizes over the seam set even if the segment maximum then refuses |
| `MakeRequest.MergeQueue.Attempt` | linux-2.6-cloud-2000/block/blk-merge.c:359-430 | on success the first request holds the bios of both; on refusal each keeps its own |
| `MakeRequest.MergeQueue.MergeInto` | linux-2.6-cloud-2000/block/blk-merge.c:359-430 | the second request leaves the queue exactly if it was merged |
| `MakeRequest.MergeQueue.NewFor` | linux-2.6-cloud-2000/block/blk-core.c:1270-1300 | one new request at the end of the pool |
| `MakeRequest.MergeQueue.Finish` | linux-2.6-cloud-2000/block/blk-core.c:1211-1263 | link and merge with the neighbour if accepted, new request if refused |
| `MakeRequest.MergeQueue.MakeBack` | linux-2.6-cloud-2000/block/blk-core.c:1208-1229 | linked behind the request and then perhaps joined with the request behind it, or a request of its own if refused |
| `MakeRequest.MergeQueue.MakeFront` | linux-2.6-cloud-2000/block/blk-core.c:1231-1263 | linked before the request and then perhaps joined with the request before it, or a request of its own if refused |
| `MakeRequest.MergeQueue.Make` | linux-2.6-cloud-2000/block/blk-core.c:1178-1306 | the new pool is the specified one, which the theorems above are about |
| `PartialCompletion.LoopInBio` | linux-2.6-cloud-2000/block/blk-core.c:2008-2048 | inside one bio the loop consumes exactly the bytes asked for and stops at the right vector |
| `PartialCompletion.VectorsRemain` | linux-2.6-cloud-2000/block/blk-core.c:2009-2016 | while bytes of a bio remain so do vectors: the idx >= vcnt branch is never taken |
| `PartialCompletion.LoopResult` | linux-2.6-cloud-2000/block/blk-core.c:1998-2048 | the loop ends the bios that fit whole, in order, and puts the other bytes into the next bio |
| `PartialCompletion.UpdateDone` | linux-2.6-cloud-2000/block/blk-core.c:2050-2061 | with at least as many bytes as there are the call returns false, all bios are ended and none is left |
| `PartialCompletion.UpdateMore` | linux-2.6-cloud-2000/block/blk-core.c:2063-2098 | with fewer, a multiple of 512, it returns true, what is left is the rest of the bytes, __data_len is theirs, and __sector has moved by the signed 32-bit total |
| `PartialCompletion.SectorIsExact` | linux-2.6-cloud-2000/block/blk-core.c:2076-2078 | after a call that leaves bios, __sector is the sector of the rest, and the bios lie contiguously from it, exactly if the call was for fewer than 2^31 bytes; the first bio left has the right sector in any case |
| `PartialCompletion.SectorGoesWrong` | linux-2.6-cloud-2000/block/blk-core.c:2076-2078 | a request of 2^31 + 512 bytes from sector 2^22 on: after 2^31 bytes __sector is 0 instead of 2^23 |
| `PartialCompletion.BarSectorIsExact` | linux-2.6-cloud-2000/block/blk-core.c:2076-2078 | the sector of bar_rq moves by the bytes of a call exactly if they are fewer than 2^31 |
| `PartialCompletion.UpdateTails` | linux-2.6-cloud-2000/block/blk-core.c:1969-2099 | one call in terms of the bytes left of each bio: it answers true exactly if bytes are left, and length, sector, rest and ended bios are those of dropping the bytes |
| `PartialCompletion.TwoCallsAreOne` | linux-2.6-cloud-2000/block/blk-core.c:1969-2099 | completing m and then n bytes leaves the same remainder, answer and length, and ends the same bios with the same results, as completing m + n; the sector is the same exactly if m + n is below 2^31 or m or n alone is at least 2^31 |
| `PartialCompletion.SplitCompletes` | linux-2.6-cloud-2000/block/blk-core.c:1969-2099 | for any split of the length into positive multiples of 512 all calls but the last return true, each bio is ended once and in order, nothing is left, and neither complaint is made |
| `PartialCompletion.CurFits` | linux-2.6-cloud-2000/block/blk-core.c:2086-2093 | the length is at least that of the current vector: the request is never found botched |
| `PartialCompletion.BarSplitIsExact` | linux-2.6-cloud-2000/block/blk-core.c:1969-2099 | for bar_rq, whose bios the code does not shorten, any sequence of calls that covers it returns false at its end exactly if each call but the last stops at the end of a bio; then no bytes and no complaint are left and the first error is recorded; otherwise bios stay and every call returns true; no bio is ended either way |
| `PartialCompletion.BarNeverDone` | linux-2.6-cloud-2000/block/blk-core.c:1998-2061 | calls for fewer bytes than the sizes of its bios say never finish bar_rq |
| `PartialCompletion.BarrierInOneCall` | linux-2.6-cloud-2000/block/blk-core.c:1969-2099 | a bar_rq of one bio is finished exactly if one call covers it; with more calls the length comes down to 0 without a complaint but the last call still returns true |
| `PartialCompletion.PieceKept` | linux-2.6-cloud-2000/block/blk-core.c:2008-2093 | a call inside the one bio of bar_rq takes exactly its bytes from vectors and length, leaves the size, and makes no complaint |
| `PartialCompletion.IoRequest.EndBio` | linux-2.6-cloud-2000/block/blk-core.c:134-171 | the bio is ended with its result, or the first error recorded for a barrier proxy |
| `PartialCompletion.IoRequest.WalkBios` | linux-2.6-cloud-2000/block/blk-core.c:1998-2048 | the loop does what the specified walk does |
| `PartialCompletion.IoRequest.KeepRest` | linux-2.6-cloud-2000/block/blk-core.c:2063-2098 | the first bio left starts at the first byte not done, the length is that of the rest, and the sector moves by the signed total |
| `PartialCompletion.IoRequest.UpdateRequest` | linux-2.6-cloud-2000/block/blk-core.c:1969-2099 | true exactly if the specified walk leaves bios; the state is the one that TwoCallsAreOne and SplitCompletes are about |
| `RemoveSpawns.SearchComplete` | linux-2.6-cloud-2000/crypto/algapi.c:143-171 | when nothing waits the visited instances are exactly those transitively built on the algorithm, all their user lists are empty and no other list changed |
| `RemoveSpawns.ClosedSetHasAll` | linux-2.6-cloud-2000/crypto/algapi.c:151-171 | a set that holds the users of the algorithm and of its own members holds everything built on it |
| `RemoveSpawns.NotBuiltOnItself` | linux-2.6-cloud-2000/crypto/algapi.c:160-160 | a search that never met the algorithm again shows it is not built on itself |
| `RemoveSpawns.BeginSearches` | linux-2.6-cloud-2000/crypto/algapi.c:143-149 | moving the users to top establishes the invariant of the search |
| `RemoveSpawns.TakeTopKeeps` | linux-2.6-cloud-2000/crypto/algapi.c:151-169 | going down a spawn keeps the invariant and uses up a user |
| `RemoveSpawns.TakeUserKeeps` | linux-2.6-cloud-2000/crypto/algapi.c:85-106 | going on with the users of an instance keeps it and uses up a user |
| `RemoveSpawns.PopKeeps` | linux-2.6-cloud-2000/crypto/algapi.c:85-106 | leaving a finished spawn keeps it |
| `RemoveSpawns.Algorithms.TakeUsers` | linux-2.6-cloud-2000/crypto/algapi.c:143-149 | top and the user list are those at the start of the search |
| `RemoveSpawns.Algorithms.Descend` | linux-2.6-cloud-2000/crypto/algapi.c:153-169 | invariant kept, the measure goes down, and it stops at an instance without users |
| `RemoveSpawns.Algorithms.FindAll` | linux-2.6-cloud-2000/crypto/algapi.c:143-171 | terminates; the BUG_ON is reached exactly if the algorithm is built on itself |
| `RemoveSpawns.Algorithms.MarkDead` | linux-2.6-cloud-2000/crypto/algapi.c:108-130 | the instance is dead; taken out only if alive, hashed and referenced; the BUG_ON answer is whether it then had users |
| `RemoveSpawns.Algorithms.MarkAll` | linux-2.6-cloud-2000/crypto/algapi.c:173-178 | all spawns processed: dead exactly with their instances, taken out exactly the live, hashed, referenced ones, and the BUG_ON of crypto_remove_spawn never reached |
| `RemoveSpawns.Algorithms.Remove` | linux-2.6-cloud-2000/crypto/algapi.c:132-179 | dead afterwards are exactly the ones dead before and those transitively built on the algorithm; exactly their user lists are emptied; taken out are exactly the live, hashed, referenced ones; of the BUG_ONs of search and removals one is reached exactly if the algorithm is built on itself |
| `Deadline.AddKeeps` | linux-2.6-cloud-2000/block/deadline-iosched.c:100-113 | adding, with the dispatch of an alias, keeps the invariant of the indexes |
| `Deadline.FrontMergedKeeps` | linux-2.6-cloud-2000/block/deadline-iosched.c:156-168 | repositioning after a front merge keeps it |
| `Deadline.MergedRequestsKeeps` | linux-2.6-cloud-2000/block/deadline-iosched.c:170-189 | merging two requests keeps it |
| `Deadline.MoveKeeps` | linux-2.6-cloud-2000/block/deadline-iosched.c:206-222 | moving a request to the dispatch queue keeps it, and one request fewer is held |
| `Deadline.DispatchKeeps` | linux-2.6-cloud-2000/block/deadline-iosched.c:245-327 | a call keeps it, serves nothing exactly if nothing is held, and otherwise exactly one request |
| `Deadline.AliasGone` | linux-2.6-cloud-2000/block/deadline-iosched.c:76-84 | once the alias is dispatched no other has its sector, so the loop ends after at most one turn |
| `DeadlineRuns.IndexesAgree` | linux-2.6-cloud-2000/block/deadline-iosched.c:76-222 | in every reachable state tree and fifo of a direction hold the same requests, at most one next_rq is set and it is in its tree, and nr_sorted is the number held (so the checks for an empty tree never fail) |
| `DeadlineRuns.NothingLost` | linux-2.6-cloud-2000/block/deadline-iosched.c:245-327 | every added request is held, dispatched or merged away, exactly once |
| `DeadlineRuns.ExpiryFound` | linux-2.6-cloud-2000/block/deadline-iosched.c:228-239 | with fixed expiry settings and a monotone clock the check of the head reports an expired request exactly when there is one |
| `DeadlineRuns.HeadTells` | linux-2.6-cloud-2000/block/deadline-iosched.c:228-239 | on a list in the order of expiry the head decides |
| `DeadlineRuns.HastenInOrder` | linux-2.6-cloud-2000/block/deadline-iosched.c:170-189 | a request moved into the place of an earlier deadline leaves the list in order |
| `DeadlineRuns.ReadUsesPatience` | linux-2.6-cloud-2000/block/deadline-iosched.c:245-327 | each read served while a write waits lowers (writes_starved - starved) * fifo_batch + (fifo_batch - batching) |
| `DeadlineRuns.WritesNotStarved` | linux-2.6-cloud-2000/block/deadline-iosched.c:245-327 | from any reachable state, with adds and merges in between, at most (writes_starved + 1) * fifo_batch dispatches in a row serve reads while a write waits; a fifo_batch of 0 acts as 1 |
| `DeadlineQueue.Drained` | linux-2.6-cloud-2000/block/elevator.c:570-582 | draining ends with nothing held, nothing added and nothing merged away |
| `DeadlineQueue.DrainLeavesNothing` | linux-2.6-cloud-2000/block/elevator.c:570-582 | after a drain the trees are empty, nr_sorted is 0 and every added request was dispatched or had been merged away |
| `DeadlineQueue.DeadlineData.RemoveRequest` | linux-2.6-cloud-2000/block/deadline-iosched.c:118-124 | out of both indexes of its direction, next_rq moved on if it was the request |
| `DeadlineQueue.DeadlineData.MoveRequest` | linux-2.6-cloud-2000/block/deadline-iosched.c:206-222 | last in the dispatch queue and out of both indexes; next_rq is its successor in the tree of its direction and unset in the other |
| `DeadlineQueue.DeadlineData.AddRqRb` | linux-2.6-cloud-2000/block/deadline-iosched.c:76-84 | the loop over aliases ends and gives the specified state |
| `DeadlineQueue.DeadlineData.AddToQueues` | linux-2.6-cloud-2000/block/deadline-iosched.c:100-113 | in the tree and last in the fifo with its expiry time |
| `DeadlineQueue.DeadlineData.AddRequest` | linux-2.6-cloud-2000/block/elevator.c:646-662 | counted, in both indexes, and a request that was in its place in the tree is dispatched; the step of AddKeeps |
| `DeadlineQueue.DeadlineData.MergedRequest` | linux-2.6-cloud-2000/block/deadline-iosched.c:156-168 | in the tree at its new sector, dispatching what was there; the fifo is left alone |
| `DeadlineQueue.DeadlineData.MergeRequests` | linux-2.6-cloud-2000/block/deadline-iosched.c:170-189 | the second request is gone from both indexes, and the first has its place and time in the fifo if those were sooner |
| `DeadlineQueue.DeadlineData.BeginBatch` | linux-2.6-cloud-2000/block/deadline-iosched.c:298-324 | a new batch starts with the fifo head if expired or without a next_rq, else with next_rq |
| `DeadlineQueue.DeadlineData.DispatchRequests` | linux-2.6-cloud-2000/block/deadline-iosched.c:245-327 | goes on with the batch, or starts one in the direction that starvation and the fifos call for; tells which direction was served |
| `DeadlineQueue.DeadlineData.Drain` | linux-2.6-cloud-2000/block/elevator.c:570-582 | terminates in the drained state |
| `DispatchSort.NeverOvertakes` | linux-2.6-cloud-2000/block/elevator.c:413-449 | a request is placed ahead only of requests that are no barrier, not started, of its direction and of its discard kind |
| `DispatchSort.InsertSweeps` | linux-2.6-cloud-2000/block/elevator.c:413-449 | a sorted insert keeps the queue in one-way cyclic sector order from the boundary |
| `DispatchSort.PeekSweeps` | linux-2.6-cloud-2000/block/blk-core.c:1787-1814 | after the head is taken up the order goes on from its end, for requests that do not overlap |
| `DispatchSort.RunSweeps` | linux-2.6-cloud-2000/block/elevator.c:413-449 | both, over every run of inserts, peeks and departures without overlaps |
| `DispatchSort.AlwaysOneSweep` | linux-2.6-cloud-2000/block/elevator.c:413-449 | from an empty queue and without overlaps the unstarted requests are always in one sweep from end_sector |
| `DispatchSort.OneDescent` | linux-2.6-cloud-2000/block/elevator.c:413-449 | such a queue goes down in sector at most once |
| `DispatchSort.PeekSweepsIsExact` | linux-2.6-cloud-2000/block/blk-core.c:1787-1814 | one peek, with any overlaps: the order goes on exactly if no other request starts inside the head, or all of them do |
| `DispatchSort.SweepsIsExact` | linux-2.6-cloud-2000/block/elevator.c:413-449 | every run, with any overlaps: all its states are one sweep exactly if at each peek of an unstarted head no other request starts inside the head, or all do |
| `DispatchSort.ExecSweeps` | linux-2.6-cloud-2000/block/blk-core.c:1787-1814 | of the steps only such a peek can break the order, inserts and departures never do |
| `DispatchSort.OverlapBreaksSweep` | linux-2.6-cloud-2000/block/elevator.c:413-449 | a run of three inserts and a peek from an empty queue after which the order is broken |
| `DispatchSort.DispatchQueue.SortIn` | linux-2.6-cloud-2000/block/elevator.c:413-449 | the backward search finds the specified place |
| `DispatchSort.DispatchQueue.PeekHead` | linux-2.6-cloud-2000/block/blk-core.c:1787-1814 | the head is marked as seen and end_sector is its end |
| `DispatchSort.DispatchQueue.TakeHead` | linux-2.6-cloud-2000/block/blk-core.c:1871-1889 | the head leaves |
| `TagAllocator.TagsUnique` | linux-2.6-cloud-2000/block/blk-tag.c:220-384 | over every run a tag bit is set exactly if tag_index holds the one request with that tag, and no two requests share a tag |
| `TagAllocator.SyncNeverStarved` | linux-2.6-cloud-2000/block/blk-tag.c:355-372 | without shrinking and with a depth of two or more, async requests alone never stop a sync request from getting a tag |
| `TagAllocator.SyncGetsTag` | linux-2.6-cloud-2000/block/blk-tag.c:355-372 | the state condition behind it |
| `TagAllocator.StartKeeps` | linux-2.6-cloud-2000/block/blk-tag.c:337-384 | starting keeps the invariant; a request that is given a tag has it |
| `TagAllocator.EndKeeps` | linux-2.6-cloud-2000/block/blk-tag.c:282-316 | ending keeps it and frees the request |
| `TagAllocator.ResizeKeeps` | linux-2.6-cloud-2000/block/blk-tag.c:220-265 | a resize keeps every outstanding tag, bit and index entry; the copy overruns the new map exactly if the map is replaced and twice nr_requests is below the old real depth |
| `TagAllocator.ResizeOverruns` | linux-2.6-cloud-2000/block/blk-tag.c:220-265 | a map of three tags that is to become four with one request allowed is copied into one of two |
| `TagAllocator.InvalidateRestores` | linux-2.6-cloud-2000/block/blk-tag.c:399-405 | nothing stays tagged, all bits and entries are clear, and the busy list is in front of the queue, its last request first |
| `TagAllocator.RestoredInStartOrder` | linux-2.6-cloud-2000/block/blk-tag.c:399-405 | after every run, invalidating puts exactly the outstanding requests in front of the queue, each once, in the order of their latest starts in the history of the run |
| `TagAllocator.RunStarts` | linux-2.6-cloud-2000/block/blk-tag.c:337-384 | over every run the busy list has the outstanding requests with the latest start first |
| `TagAllocator.FirstFree` | linux-2.6-cloud-2000/block/blk-tag.c:367-372 | the first clear bit below the limit, or the limit if there is none |
| `TagAllocator.TagQueue.FindFree` | linux-2.6-cloud-2000/block/blk-tag.c:367-372 | the scan finds it |
| `TagAllocator.TagQueue.StartTag` | linux-2.6-cloud-2000/block/blk-tag.c:337-384 | true exactly if a bit below the limit of its class was clear; then the request has the first such tag, otherwise nothing changes |
| `TagAllocator.TagQueue.Take` | linux-2.6-cloud-2000/block/blk-tag.c:372-383 | bit set, index entry and tag of the request agree, and the request has moved from the queue to the front of the busy list |
| `TagAllocator.TagQueue.EndTag` | linux-2.6-cloud-2000/block/blk-tag.c:282-316 | bit and index entry of its tag are clear and the request is off the busy list; all other tags are unchanged |
| `TagAllocator.TagQueue.Copied` | linux-2.6-cloud-2000/block/blk-tag.c:107-138 | a new map that starts with the old one and is clear behind it |
| `TagAllocator.TagQueue.ResizeTags` | linux-2.6-cloud-2000/block/blk-tag.c:220-265 | within the real depth only max_depth changes; beyond it EBUSY if shared, ENOMEM without memory, else a larger map with the old one at its start; the overrun is told apart |
| `TagAllocator.TagQueue.InvalidateTags` | linux-2.6-cloud-2000/block/blk-tag.c:399-405 | the loop over the busy list ends in the state of InvalidateRestores |
| `ElevatorSwitch.CountersExact` | linux-2.6-cloud-2000/block/blk-core.c:708-843 | over every interleaving elvpriv is the number of live and in-allocation requests marked for private data, and each count is the number of live and in-allocation requests of its class and at most 3 * nr_requests / 2 |
| `ElevatorSwitch.DataOfAttachedOnly` | linux-2.6-cloud-2000/block/elevator.c:999-1066 | over every interleaving no request carries data of a scheduler that is not attached, and none carries any just after a switch or its undoing |
| `ElevatorSwitch.SwapKeepsData` | linux-2.6-cloud-2000/block/elevator.c:1020-1033 | with elvpriv at zero another scheduler may be attached |
| `ElevatorSwitch.ExecKeeps` | linux-2.6-cloud-2000/block/blk-core.c:746-843 | each locked section keeps the invariant |
| `ElevatorSwitch.RunKeeps` | linux-2.6-cloud-2000/block/blk-core.c:746-843 | every interleaving keeps it |
| `ElevatorSwitch.GivingBackPossible` | linux-2.6-cloud-2000/block/blk-core.c:1098-1124 | a request that exists is counted, so no counter goes below zero |
| `ElevatorSwitch.TurnedAwayOnlyAtLimit` | linux-2.6-cloud-2000/block/blk-core.c:759-792 | a process is turned away only at the limit, unless the scheduler says no |
| `ElevatorSwitch.RequestPool.Screen` | linux-2.6-cloud-2000/block/blk-core.c:755-792 | refused exactly if the scheduler says no, the class is marked full to a process that may not exceed it, or the count is at one and a half times nr_requests; the class is marked full when this request fills it |
| `ElevatorSwitch.RequestPool.GetRequest` | linux-2.6-cloud-2000/block/blk-core.c:746-803 | on success the request is counted, and marked for private data exactly if no switch is in progress |
| `ElevatorSwitch.RequestPool.FinishAllocation` | linux-2.6-cloud-2000/block/blk-core.c:651-672 | the request is live, with data of the attached scheduler exactly if it was marked |
| `ElevatorSwitch.RequestPool.FreedRequest` | linux-2.6-cloud-2000/block/blk-core.c:708-739 | count and elvpriv down |
| `ElevatorSwitch.RequestPool.FailAllocation` | linux-2.6-cloud-2000/block/blk-core.c:806-829 | the count is given back |
| `ElevatorSwitch.RequestPool.PutRequest` | linux-2.6-cloud-2000/block/blk-core.c:1098-1124 | the request is gone and the counts given back |
| `ElevatorSwitch.RequestPool.StartSwitch` | linux-2.6-cloud-2000/block/elevator.c:587-605 | no new request is marked from here on |
| `ElevatorSwitch.RequestPool.AttachNew` | linux-2.6-cloud-2000/block/elevator.c:1020-1033 | the new scheduler is attached |
| `ElevatorSwitch.RequestPool.FinishSwitch` | linux-2.6-cloud-2000/block/elevator.c:1040-1046 | the old scheduler has exited and requests are marked again |
| `ElevatorSwitch.RequestPool.RevertSwitch` | linux-2.6-cloud-2000/block/elevator.c:1052-1059 | the new scheduler has exited and the old one is back |
| `ElevatorSwitch.RequestPool.EndFailedSwitch` | linux-2.6-cloud-2000/block/elevator.c:1061-1063 | requests are marked again |
| `CfqCounters.CountersAgree` | linux-2.6-cloud-2000/block/cfq-iosched.c:1137-1246 | over every run with fixed weights a queue is on a tree exactly if on_rr, each tree count is its size, nr_cfqq is the sum of the seven counts, busy_queues the sum over groups, total_weight the sum over the groups on the service tree, and no BUG_ON is reached |
| `CfqCounters.AddRrKeeps` | linux-2.6-cloud-2000/block/cfq-iosched.c:1327-1335 | adding a queue keeps the hierarchy |
| `CfqCounters.ResortKeeps` | linux-2.6-cloud-2000/block/cfq-iosched.c:1137-1246 | moving a queue within or between trees keeps it |
| `CfqCounters.DelRrKeeps` | linux-2.6-cloud-2000/block/cfq-iosched.c:1341-1359 | removing a queue keeps it |
| `CfqCounters.TreeAddOk` | linux-2.6-cloud-2000/block/cfq-iosched.c:1137-1246 | the tree step alone: counts right again, queues of the groups one more exactly for a new queue |
| `CfqCounters.RegroupOk` | linux-2.6-cloud-2000/block/cfq-iosched.c:1148-1172 | a queue that leaves its group for another takes its tree place with it |
| `CfqCounters.ServedOk` | linux-2.6-cloud-2000/block/cfq-iosched.c:912-929 | nr_sync is never negative |
| `CfqCounters.CfqData.GroupTreeAdd` | linux-2.6-cloud-2000/block/cfq-iosched.c:833-859 | nr_cfqq goes up; a group not on the service tree joins it with its weight |
| `CfqCounters.CfqData.GroupTreeDel` | linux-2.6-cloud-2000/block/cfq-iosched.c:861-883 | nr_cfqq goes down and at zero the group and its weight leave the service tree; the BUG_ON is for a count below one |
| `CfqCounters.CfqData.TreeErase` | linux-2.6-cloud-2000/block/cfq-iosched.c:754-760 | the queue is on no tree and the count of its tree is one lower |
| `CfqCounters.CfqData.ChangeGroup` | linux-2.6-cloud-2000/block/cfq-iosched.c:1148-1172 | true exactly if the queue changed between its group and the root group; nr_cfqq of the old group then goes down if it was on a tree |
| `CfqCounters.CfqData.LinkNode` | linux-2.6-cloud-2000/block/cfq-iosched.c:1213-1242 | the queue is on the tree of its group and class with its new key, and that count is one higher |
| `CfqCounters.CfqData.ServiceTreeAdd` | linux-2.6-cloud-2000/block/cfq-iosched.c:1137-1246 | the step of TreeAddOk: a queue on the tree of its group and class, counted once for its group |
| `CfqCounters.CfqData.AddToRr` | linux-2.6-cloud-2000/block/cfq-iosched.c:1327-1335 | on_rr set and busy_queues one higher, then on a tree; the BUG_ON is for a queue already on_rr |
| `CfqCounters.CfqData.DelFromRr` | linux-2.6-cloud-2000/block/cfq-iosched.c:1341-1359 | on_rr clear, off its tree, counts of tree, group and device one lower; the BUG_ONs are for a queue not on_rr and for no busy queue |
| `CryptoInc.IncAddsOne` | linux-2.6-cloud-2000/crypto/algapi.c:876-889 | on any length the result is the big-endian number plus one modulo 256 to the length |
| `CryptoInc.WordsAgreeWithBytes` | linux-2.6-cloud-2000/crypto/algapi.c:863-889 | word steps and the byte loop give the same buffer |
| `CryptoInc.IncBytesValue` | linux-2.6-cloud-2000/crypto/algapi.c:863-874 | the byte loop computes the successor, 0 after the largest number |
| `CryptoInc.IncWordsValue` | linux-2.6-cloud-2000/crypto/algapi.c:876-889 | so do the word steps with the byte tail |
| `CryptoInc.ValueInjective` | linux-2.6-cloud-2000/crypto/algapi.c:863-889 | buffers of one length with the same number are equal |
| `CryptoInc.Bytes` | linux-2.6-cloud-2000/crypto/algapi.c:882-883 | storing a word and loading it gives the word |
| `CryptoInc.IncByteLoop` | linux-2.6-cloud-2000/crypto/algapi.c:863-874 | in place on the first bytes, the others unchanged |
| `CryptoInc.StoreWord` | linux-2.6-cloud-2000/crypto/algapi.c:883-883 | four bytes change and no other |
| `CryptoInc.Inc` | linux-2.6-cloud-2000/crypto/algapi.c:876-889 | the buffer becomes the specified one |
| `CryptoQueue.FirstInFirstOut` | linux-2.6-cloud-2000/crypto/algapi.c:803-841 | over every run requests leave in the order they were accepted and qlen is the length of the list |
| `CryptoQueue.BacklogInOrder` | linux-2.6-cloud-2000/crypto/algapi.c:803-841 | over every run the backlog pointer is exactly at position max_qlen, and has passed each backlogged request once and in order |
| `CryptoQueue.EnqueueKeeps` | linux-2.6-cloud-2000/crypto/algapi.c:803-821 | accepting or refusing a request keeps the invariant |
| `CryptoQueue.DequeueKeeps` | linux-2.6-cloud-2000/crypto/algapi.c:824-841 | taking keeps it and gives the oldest request |
| `CryptoQueue.RequestQueue.Put` | linux-2.6-cloud-2000/crypto/algapi.c:803-821 | EINPROGRESS below max_qlen; from there on EBUSY, and queued as backlog exactly if the request allows it; only the first backlogged request sets the pointer |
| `CryptoQueue.RequestQueue.Take` | linux-2.6-cloud-2000/crypto/algapi.c:824-841 | nothing from an empty queue, else the oldest request, with the pointer one further if there is a backlog |

## Left out

- Barriers ordered by tag: they rest on what the device does with tags. Queues without ordering are modelled, but the theorems are about the draining modes.
- Barriers: discard requests count as fs requests, the two in-flight counters are one sum, preparation callbacks and `elv_abort_queue` are not modelled, and reference counts are taken to reach zero at completion.
- Merging: discard bios, padding of user copies, several disks on a queue, integrity data, mixed failfast merges, I/O priorities and bounce buffers are not modelled. Which neighbouring vectors join and which pages are high are parameters of the queue.
- Merging: bio lists are sequences with the tail as a position; aliasing of bios between lists is not captured.
- Merging: a bio arrives with cached segment sizes no larger than itself, which is what recounting leaves; a bio that is submitted again with sizes from an earlier request is not modelled. Segment counts are unbounded; in the code the 16-bit vector count of a bio and the 16-bit maximum keep them in range.
- MakeRequest.SubmitKept: needs `LengthsFit`, the exact condition of `MakeRequest.LengthsFitIsExact` on the limits of the queue, as does everything over runs in that module.
- Partial completion: the recount of segments at the end of a call is `Segments.Recalc` and not repeated, and failfast bits of mixed merges are not carried. Requests that are not fs, whose sector the call leaves alone, are not modelled.
- Removing algorithms with a replacement: only the case without one is modelled, in which the comparison of types at the start rejects nothing. Module references and templates are sets of instances.
- Deadline: time does not wrap, `writes_starved` is not negative, the rb-trees are sequences sorted by sector, and the merge hash and `last_merge` are not modelled.
- Sorted dispatch: the theorems about the sector order are for plain requests of one direction without `boundary_rq`; `NeverOvertakes` is for all.
- Tags: the theorems over runs are about runs without the overrun that `ResizeKeeps` characterises; what memory holds after it is not modelled.
- Tags: one queue per map, so the retry after a lost test-and-set is not modelled, nor are negative depths.
- Elevator switch: one switch at a time, as under the sysfs lock; congestion flags and wake-ups of waiters are not modelled.
- CFQ: think time, seek history, idling, preemption and cooperation; weights are fixed; the count of the group tree itself is not maintained by the code and not modelled; trees are membership and count, with the key as a parameter.
- AES: the four round tables are defined from the S-box and field multiplication instead of being spelled out; other cipher modules are not modelled.
- Everything under `drivers/`, sysfs, ioctl, cgroup files, tracing and memory management: plumbing, or easy members only.
