# A verified model of blkhash

blkhash computes `D( D(block 0) || .. || D(block n-1) || LE64(length) )` of a byte stream in parallel: blocks go to a
pool of workers, zero blocks are never materialised, buffers can be borrowed instead of copied, and completions are
delivered through an event descriptor. This project models the library and the `blksum` event loop on top of it. It
proves, for every list of calls and every interleaving of the workers, that the calls succeed unless the digest of a
block fails, and that the result is the digest of the sequential reference.

`dafny verify dfyconfig.toml` checks everything.

## How it is modelled

| file | what it holds |
|---|---|
| `Streams.dfy` | bytes, blocks, the digest a message should have |
| `PythonReference.dfy` | the sequential reference implementation |
| `ZeroDetect.dfy` | the overlapping self-compare |
| `Config.dfy` | the sizes computed when a hash is created |
| `Rings.dfy`, `Buffers.dfy` | the ring behind both bounded queues; the pending buffer that holds data or counts zeros |
| `Pools.dfy`, `PoolRuns.dfy`, `HashPools.dfy` | the worker pool: its steps, all its runs, and its imperative code |
| `Shared.dfy`, `SharedSteps.dfy`, `SharedCalls.dfy` | what caller and workers share, every worker step, every step of the caller |
| `Ordering.dfy`, `Views.dfy` | zero blocks as gaps between queued indices; the engine's state as one value |
| `Flows.dfy`, `Courses.dfy` | what makes a call fail; which submissions a stream gives rise to |
| `Engine.dfy` | the block engine and its API, with worker steps between any two accesses to shared state |
| `Sessions.dfy` | whole sessions of a client with a hash |
| `Commands.dfy`, `EventLoop.dfy` | the commands of blksum, and its event loop over the engine |
| `Limits.dfy` | runs that show where a promise does not hold |

The digest `D` is an arbitrary function on byte sequences; a streaming digest is the bytes fed to it so far. Which digest
calls of the workers fail is an arbitrary function `fails` from submissions to error codes; `Sound(fails)` says that none
does. A submission whose digest is computed and due an error is *doomed* (`Flows.Doomed`), from its creation on; a marker
and a borrowed zero block never are. A call fails only by taking a doomed submission off the queue (`Flows.Culprit`).
Which submissions a call makes is decided by the bytes and the indices (`Courses.Course`), so a call promises success
whenever nothing on its course is doomed, and whether a whole session succeeds is known before it starts. Every error
that a call returns or a record carries is traced to the doomed submission it comes from; a submission that failed is
never freed, so it can be named.

Everything the threads share is one value, `Shared.World`. A section under a mutex, an atomic operation, or a store that
another thread may observe is one step on it. `Engine.Blkhash.Interfere` performs arbitrary worker steps, and runs before
the caller's next access; the caller is verified against what every worker step guarantees (`Shared.Rely`,
`SharedSteps.RunWorkerInv`), so not against any particular schedule. Waiting for a worker is a loop that schedules workers
that can move; the wake-up invariant is what makes it end. The invariant `Shared.Inv` is kept by every step, and
`Engine.Blkhash.Valid` holds between any two calls.

## What did not hold as stated

* Wake-up safety. A worker that fails `digest_create` exits but is still counted as active. `PoolRuns.FailureStrands`
  gives the run that leaves work queued with nobody to take it; `PoolRuns.NeverStuckExactly` shows that this is the only
  way: no reachable state is stuck if and only if no worker can fail.
* No lost notification. `blkhash_aio_completions` with a count of 0, or of a hash that has an error, leaves the records
  queued after the descriptor was read. `Limits.NoticeLost` and `Limits.NoticeLostToError` are such runs, and
  `SharedCalls.LostForever` shows that no worker ever makes up for it. `Engine.Blkhash.Completions` gives the exact
  condition: after the call the announcement is lost if and only if it was lost before, by reading the descriptor, and
  the count is 0 or the hash has an error.
* After the first error every call fails (include/blkhash.h:52-53). `blkhash_final` does not test the error:
  `Limits.FinalForgets` is a run in which a call reports an error and final returns 0. `Engine.Blkhash.Final` gives the
  exact condition: it returns 0 if and only if nothing that is still queued or pending is doomed. The digest it returns
  then is the reference digest for a hash that never failed, and otherwise that of the blocks with each failed one
  replaced by zeros. A call that failed may leave a full pending block of zeros; if it does not complete a batch it gets
  no marker, and exactly then the zeros at the end are not hashed.
* Room for the STOP tokens. The ring size is a 32-bit product, and the tokens are pushed without a test.
  `PoolRuns.OverflowsExactly`: no run has more tokens than slots if and only if there is a slot per worker.
  `PoolRuns.TokensFit` shows that for every queue depth below 2^30, and `PoolRuns.TokensOverflow` that it is false at
  2^30. It does no harm: `HashPools.HashPool.StopWorkers` is the shutdown step for every pool, because a token only
  overwrites a token.

## Model

| member | source | states |
|---|---|---|
| `Streams.LittleEndianRoundTrip` | lib/blkhash.c:267-285 | decoding the little-endian bytes of a number gives the number back |
| `Streams.LE64Injective` | lib/blkhash.c:267-285 | two lengths below 2^64 have the same trailer only if they are equal |
| `Streams.BlocksOfConcat` | test/blkhash.py:79-98 | full blocks followed by a shorter tail are exactly the blocks of the message they spell |
| `Streams.BlockAt` | test/blkhash.py:92-95 | block i of a message is its slice at offset i * block size |
| `PythonReference.Blkhash.constructor` | test/blkhash.py:71-77 | a new reference hash stands for the empty message |
| `PythonReference.Blkhash.Update` | test/blkhash.py:79-98 | appends its argument to the message, whatever the alignment |
| `PythonReference.Blkhash.FillPending` | test/blkhash.py:82-89 | completes the pending block from the front of the data; what is left of the data is aligned |
| `PythonReference.Blkhash.ConsumeBlocks` | test/blkhash.py:91-94 | consumes every full block and leaves less than a block |
| `PythonReference.Blkhash.AddBlock` | test/blkhash.py:104-107 | feeds the digest of one block and counts its length |
| `PythonReference.Blkhash.HexDigest` | test/blkhash.py:100-117 | returns D(D(block 0) .. D(block n) LE64(length)) of the message, and the same again when asked again |
| `PythonReference.Checksum` | test/blkhash.py:53-58 | reading a file a piece at a time gives the reference digest of its bytes |
| `ZeroDetect.IsZeroExact` | lib/zero.c:13-30 | for every length of at least 16: the self-compare is true if and only if all bytes are zero |
| `ZeroDetect.ZeroByShift` | lib/zero.c:28-29 | the comparison with the buffer shifted by 16 carries the zeros of the first 16 bytes to every position |
| `ZeroDetect.ZeroDigestStandsIn` | lib/config.c:12-41 | a full block detected as zero has the precomputed digest |
| `Rings.Ring.constructor` | lib/submission.c:92-104 | an empty ring of the given size |
| `Rings.Ring.First` | lib/submission.h:131-134 | the oldest value |
| `Rings.Ring.Push` | lib/submission.c:120-131 | appends, or fails without a change exactly when the ring is full; holds through wrap-around |
| `Rings.Ring.Pop` | lib/submission.c:106-118 | removes the oldest value, or fails exactly when the ring is empty |
| `Buffers.Buffer.AddData` | lib/blkhash.c:425-442 | appends as many bytes as fit; zeros that were only counted become data first |
| `Buffers.Buffer.AddZeros` | lib/blkhash.c:451-468 | appends as many zeros as fit; an empty or zero buffer only counts them and writes nothing |
| `Buffers.Buffer.AsData` | lib/blkhash.c:526-534 | the pending bytes, counted zeros included, as data |
| `Pools.SubmitWakeful` | lib/hash-pool.c:217-259 | a submit with the lazy signal rule keeps the wake-up invariant, whichever sleeper the signal wakes |
| `Pools.TakeWakeful` | lib/hash-pool.c:43-60 | popping or going to sleep keeps the wake-up invariant |
| `Pools.SpuriousWakeful` | lib/hash-pool.c:49-53 | a spurious wake-up keeps the wake-up invariant |
| `Pools.QueueIsServed` | lib/hash-pool.c:213-220 | with every worker alive and work queued, some worker is awake or signalled |
| `Pools.SoleHolder` | lib/hash-pool.c:32-41 | a submission in the hands of a worker is nowhere else |
| `PoolRuns.ExecInv` | lib/hash-pool.c:91-259 | every run of submits, worker steps, spurious wake-ups, failures and a shutdown keeps the invariant: exact idle counter, wake-up safety, one place per submission, one STOP per live worker |
| `PoolRuns.NeverStuckExactly` | lib/hash-pool.c:98-102 | no reachable state leaves work queued with nobody to take it if and only if no worker can fail digest_create |
| `PoolRuns.FailureStrands` | lib/hash-pool.c:98-102 | a run that ends stuck, for every pool in which some worker may fail: the dead worker is still counted active |
| `PoolRuns.ShutdownEnds` | lib/hash-pool.c:122-151 | every schedule after a shutdown is finite, so every join returns; one that cannot go on has every worker gone, one STOP left for each worker that had failed, and every accepted submission finished or failed, exactly once |
| `PoolRuns.ShutdownExact` | lib/hash-pool.c:122-151 | from any reachable pool: exactly the queued submissions are failed, there is one STOP per worker, no worker ever waits again, the tokens left plus the workers that took one are all the workers, and every schedule is finite |
| `PoolRuns.OverflowsExactly` | lib/hash-pool.c:134-137 | the STOP tokens are pushed without a test: no run has more of them queued than the ring has slots if and only if there is a slot for every worker |
| `PoolRuns.TokensFit` | lib/config.c:51 | with the size that the configuration computes, no run overfills the ring, for every depth below 2^30 |
| `PoolRuns.TokensOverflow` | lib/config.c:51 | at a depth of 2^30 the 32-bit product wraps to zero, and a shutdown of 128 workers overfills the 32 slots |
| `HashPools.JobRing.Push` | lib/hash-pool.c:25-30 | appends in the order of pops, also when it goes round, unless it overwrites an entry that is different |
| `HashPools.JobRing.Pop` | lib/hash-pool.c:32-41 | removes the oldest entry |
| `HashPools.SlotsApart` | lib/hash-pool.c:25-30 | positions less than a turn apart are different slots |
| `HashPools.HashPool.constructor` | lib/hash-pool.c:153-170 | an empty pool whose workers are starting, with the ring size of the configuration, for every depth and number of workers |
| `HashPools.HashPool.SetError` | lib/hash-pool.c:14-23 | keeps the first error |
| `HashPools.HashPool.Submit` | lib/hash-pool.c:222-259 | the ring code is the submit step of the transition system, with its three refusals and its signal rule; a refused submission is completed with the error |
| `HashPools.HashPool.TakeTurn` | lib/hash-pool.c:43-60 | one turn of the wait loop is the take step: pop the head, or sleep with the counter raised |
| `HashPools.HashPool.StopWorkers` | lib/hash-pool.c:122-141 | the shutdown code is the shutdown step, also when there are more tokens than slots, because tokens are all the same; each queued submission is completed with EIO, in order |
| `Config.RingsAreLargeEnough` | lib/config.c:51 | below a queue depth of 2^30 the ring has room for a STOP per worker and four submissions per update |
| `SharedSteps.ComputeInv` | lib/hash-pool.c:104-115 | storing a digest, a zero flag or an error keeps the invariant: the result is the digest of the block, or the block is zero, or the error is the one this digest was due, and the update the submission was made for hears of it |
| `SharedSteps.ComputeBlame` | lib/submission.h:75-81 | after a result is stored, the errors known to updates are exactly those of submissions made for them or met by their calls |
| `SharedSteps.UnrefInv` | lib/submission.h:88-93 | dropping the reference keeps refs = caller hold + submissions pointing at the update, and elects one thread for the callback |
| `SharedSteps.FireInv` | lib/blkhash.c:588-602 | the callback queues one record with the user data of its update and the first error it heard of, and signals only the first |
| `SharedSteps.PublishInv` | lib/submission.h:95-102 | the completed store is the last access of the worker |
| `SharedSteps.SetFaultInv` | lib/completion.c:24-30 | only the first error of an update is kept |
| `SharedSteps.RunWorkerInv` | lib/hash-pool.c:91-120 | every step of every worker keeps the invariant, leaves the caller alone and does not increase the work left |
| `SharedSteps.InvRunnable` | lib/blkhash.c:588-602 | in every state, also in the middle of a call: no worker step touches freed memory, drops a count below zero, or finds the completion array full |
| `SharedSteps.ProgressExists` | lib/submission.h:121-125 | while a submission is not completed some worker can move on: a caller in submission_wait is never deadlocked |
| `SharedSteps.EventComes` | lib/blkhash.c:588-611 | with an update outstanding and the event not set, some worker can move on: the application is never stranded in poll |
| `SharedCalls.SubmitDataInv` | lib/submission.c:23-58 | creating, referencing and queueing a submission keeps the invariant |
| `SharedCalls.FreeInv` | lib/blkhash.c:302-306 | freeing a completed submission keeps the invariant |
| `SharedCalls.CompletedIsReleased` | lib/blkhash.c:297-347 | a submission seen completed has its result stored and is in no queue and no worker's hands |
| `SharedCalls.PoolHasRoom` | lib/hash-pool.c:238-245 | ENOBUFS and every other refusal of the pool are unreachable while the submission queue has a free slot |
| `SharedCalls.BeginUpdateInv` | lib/completion.c:6-22 | a new completion starts with the reference of the caller |
| `SharedCalls.EndUpdateInv` | lib/completion.c:37-44 | dropping the caller's reference keeps the invariant |
| `SharedCalls.TakeRecordsInv` | lib/blkhash.c:662-697 | taking records keeps every undelivered update accounted for and announced |
| `SharedCalls.TakeKeepsNotice` | lib/blkhash.c:664-685 | the step that takes records, which is reached only without an error: an announcement is lost after it if and only if it was lost before and the step is to take none |
| `SharedCalls.NothingLost` | lib/blkhash.c:588-611 | unless the descriptor was read and no take followed, queued records are announced or about to be |
| `SharedCalls.LossLasts` | lib/blkhash.c:594-611 | no worker step makes up for a lost announcement |
| `SharedCalls.LossKept` | lib/blkhash.c:588-611 | a worker step neither loses an announcement nor makes up for a lost one |
| `SharedCalls.LostForever` | lib/blkhash.c:594-611 | after a lost announcement the descriptor stays silent through every run of the workers |
| `SharedCalls.TakeEffect` | lib/blkhash.c:664-680 | records leave in the order they were queued, all of them unless fewer were asked for |
| `SharedCalls.RecordIsLast` | lib/completion.c:37-44 | a record exists only when no submission points at its update any more |
| `SharedCalls.BreakInv` | lib/blkhash.c:638-639 | a call that met a failed submission tells its update: the invariant is kept |
| `SharedCalls.FaultExactly` | lib/completion.c:24-44 | a finished update carries an error if and only if a submission made for it is doomed or its call failed, and the error is that of one of those |
| `SharedCalls.UserWriteInv` | include/blkhash.h:73-85 | a buffer not lent to an undelivered update can be overwritten: no unfinished submission reads it |
| `SharedSteps.Capacity` | lib/blkhash.c:594-602 | unfinished updates plus queued records are the undelivered updates |
| `SharedSteps.RecordFits` | lib/blkhash.c:597-598 | in every state: the completion array has a free slot for the record of every unfinished update |
| `Ordering.CoversSorted` | lib/blkhash.c:289-416 | queue order is block order: indices do not decrease, and increase after data |
| `Ordering.TightTail` | lib/blkhash.c:243-261 | the queue still reaches to the last block after its head is hashed, also when a worker turned the head into a zero block |
| `Views.HashedHead` | lib/blkhash.c:235-265 | hashing the head leaves the outer digest exact: the digests of all blocks below hashed_index |
| `Views.RetireGood` | lib/blkhash.c:302-306 | hashing and freeing the head keeps the state in order |
| `Views.FailGood` | lib/blkhash.c:237-240 | a head that failed is skipped: it stays allocated, and its block stands as zeros for the outer digest from then on |
| `Views.RetireGuilt` | lib/blkhash.c:237-240 | the error of the hash is always that of a submission that was taken off the queue and is still allocated |
| `Views.DataGood` | lib/blkhash.c:393-410 | a new data submission keeps the state in order |
| `Views.PlaceDue` | lib/blkhash.c:254-262 | a submission that is not doomed leaves its block as it is |
| `Views.ZerosShort` | lib/blkhash.c:474-482 | zero blocks that no marker stands behind are not reached by the queue |
| `Views.AllHashed` | lib/blkhash.c:333-350 | with the queue empty the outer digest holds the digest of every block as it stands, up to a tail of zeros that no submission stands behind; without an error each stands for itself and every submission was freed |
| `Views.GoodHasRoom` | lib/blkhash.c:289-309 | the pool accepts a submission whenever the submission queue is not full |
| `Flows.RetireMoved` | lib/blkhash.c:302-306 | a head is refused if and only if it was doomed, and it leaves the doomed ones by exactly itself |
| `Flows.RelyMoved` | lib/hash-pool.c:104-115 | nothing a worker does decides whether a submission is doomed |
| `Flows.DataFlowed` | lib/blkhash.c:393-410 | a new submission is doomed if and only if its digest is due an error and it is not a borrowed zero block |
| `Flows.MovedThen` | lib/blkhash.c:545-574 | steps of a call compose: a failure took a submission that was doomed off the queue, one that is overdue is not passed over, and a success takes none off |
| `Flows.DoomedExactly` | lib/blkhash.c:333-350 | when nothing new was submitted and a success empties the queue: success if and only if nothing queued was doomed |
| `Flows.MovedCause` | lib/blkhash.c:160-166 | a call that fails took a submission off the queue whose digest was computed and failed, and fails with its error unless the hash had one before |
| `Courses.FullClear` | lib/blkhash.c:558-568 | a stream with a doomed submission never becomes clear again, whatever full blocks follow |
| `Courses.DataClear` | lib/blkhash.c:545-574 | the same for a whole update, with its pending block |
| `Engine.Blkhash.constructor` | lib/blkhash.c:173-226 | a new hash, of any queue depth and any batch size above 1, stands for the empty message with nothing outstanding |
| `Engine.Blkhash.Interfere` | lib/hash-pool.c:91-120 | any number of worker steps in any order |
| `Engine.Blkhash.Wait` | lib/submission.h:121-125 | returns, with the submission completed |
| `Engine.Blkhash.SetError` | lib/blkhash.c:160-166 | keeps the first error |
| `Engine.Blkhash.FillZeros` | lib/blkhash.c:243-252 | feeds the zero digest for every block up to the index |
| `Engine.Blkhash.HashSubmission` | lib/blkhash.c:235-265 | fails exactly when the submission carries an error, which becomes that of the hash unless it had one; otherwise hashes the head |
| `Engine.Blkhash.Retire` | lib/blkhash.c:302-306 | fails exactly when the submission was doomed; otherwise hashes and frees it |
| `Engine.Blkhash.MaybeHashFirst` | lib/blkhash.c:289-309 | fails exactly when the queue is full and its head doomed; a full queue is relieved of its head, otherwise nothing changes |
| `Engine.Blkhash.HashFirst` | lib/blkhash.c:297-308 | waits for the head, then hashes and frees it; fails exactly when the head was doomed |
| `Engine.Blkhash.HashCompleted` | lib/blkhash.c:312-330 | stops at an empty queue or at a head that is not completed; fails only for a doomed submission, and always when the head already carries an error |
| `Engine.Blkhash.HashInflight` | lib/blkhash.c:333-350 | waits for and hashes everything queued; fails exactly when something queued was doomed |
| `Engine.Blkhash.SubmitZeroBlock` | lib/blkhash.c:356-380 | a marker stands behind all zero blocks consumed; the push always finds room; takes the course that bytes and indices decide beforehand, and succeeds if nothing on it is doomed |
| `Engine.Blkhash.SubmitDataBlock` | lib/blkhash.c:385-416 | one block joins the message; ring and pool always find room; takes the course that bytes and indices decide beforehand, and succeeds if nothing on it is doomed |
| `Engine.Blkhash.PushData` | lib/blkhash.c:393-410 | queue, pool and indices move together |
| `Engine.Blkhash.ConsumeZeroBlocks` | lib/blkhash.c:474-482 | zero blocks only move the index until a batch is full; the batch bound is restored; takes the course that bytes and indices decide beforehand, and succeeds if nothing on it is doomed |
| `Engine.Blkhash.ConsumeDataBlock` | lib/blkhash.c:494-506 | one block joins the message; a copied full zero block starts no submission; takes the course that bytes and indices decide beforehand, and succeeds if nothing on it is doomed |
| `Engine.Blkhash.ConsumePending` | lib/blkhash.c:513-543 | the pending bytes become one block and the buffer is cleared; takes the course that bytes and indices decide beforehand, and succeeds if nothing on it is doomed |
| `Engine.Blkhash.FillPending` | lib/blkhash.c:548-556 | completes the pending block from the front of the input, with exactly the bytes it lacks; takes the course that bytes and indices decide beforehand, and succeeds if nothing on it is doomed |
| `Engine.Blkhash.ConsumeFull` | lib/blkhash.c:558-568 | consumes the full blocks of the buffer in order; takes the course that bytes and indices decide beforehand, and succeeds if nothing on it is doomed |
| `Engine.Blkhash.StorePending` | lib/blkhash.c:570-572 | the rest becomes pending |
| `Engine.Blkhash.DoUpdate` | lib/blkhash.c:545-574 | the bytes join the message, whatever the alignment and the pending state; takes the course that bytes and indices decide beforehand, and succeeds if nothing on it is doomed; a failure took a doomed submission off the queue |
| `Engine.Blkhash.DoZero` | lib/blkhash.c:706-728 | the zeros join the message, whatever the alignment and the pending state; takes the course that bytes and indices decide beforehand, and succeeds if nothing on it is doomed; a failure took a doomed submission off the queue |
| `Engine.Blkhash.Conservation` | lib/blkhash.c:474-482 | message length = block size * block index + pending length, the pending block is not full, fewer zero blocks than a batch are unsubmitted, and the block index is below 2^60 |
| `Engine.Blkhash.HasCause` | lib/blkhash.c:160-166 | the error of a hash is that of a submission it made |
| `Engine.Blkhash.PendingIsTail` | lib/blkhash.c:425-468 | the pending bytes are what the full blocks of the message leave |
| `Engine.Blkhash.Update` | lib/blkhash.c:576-586 | appends the bytes of the buffer at call time; nothing refers to the buffer afterwards; an earlier error is returned; succeeds if nothing queued and nothing on the course of its bytes is doomed; a new error is that of the submission taken off the queue |
| `Engine.Blkhash.Zero` | lib/blkhash.c:700-729 | appends zeros; an earlier error is returned; succeeds if nothing queued and no pending block it completes is doomed, for markers cannot fail; a new error is that of the submission taken off the queue |
| `Engine.Blkhash.Final` | lib/blkhash.c:731-754 | returns 0 if and only if nothing queued and nothing pending is doomed, whatever error the hash has, and otherwise the error of a doomed submission; without an earlier failure the digest is the reference digest of the whole message and every submission is freed; after one it is the digest of the blocks with each failed one as zeros, up to the last block if and only if no full pending block of zeros was left without a marker; EINVAL the second time |
| `Engine.Blkhash.Finishes` | lib/blkhash.c:739-748 | what final succeeds on, in terms of where the stream stands: nothing doomed so far, and the digest of the pending bytes not due an error |
| `Engine.Blkhash.Close` | lib/blkhash.c:734-737 | the blocks and the pending tail are exactly the blocks of the message |
| `Engine.Blkhash.Flush` | lib/blkhash.c:739-748 | everything consumed is hashed, in order; fails exactly when something queued or pending is doomed |
| `Engine.Blkhash.Seal` | lib/blkhash.c:267-285 | the length is fed last |
| `Engine.Blkhash.AioUpdate` | lib/blkhash.c:613-644 | EAGAIN exactly at the limit; otherwise one more live update and its bytes in the message; every submission the call makes is made for that update; the hash stays without an error if nothing queued and nothing on the course of the bytes is doomed; a failure of the call is stored for the record |
| `Engine.Blkhash.Begin` | lib/blkhash.c:621-632 | counts the update and gives it a completion held by the caller |
| `Engine.Blkhash.NoteFailure` | lib/blkhash.c:638-639 | the update of a call that failed is told the error, and is one of those whose call failed |
| `Engine.Blkhash.Release` | lib/blkhash.c:641 | the caller drops its reference and runs the callback if it was the last |
| `Engine.Blkhash.RunCallback` | lib/blkhash.c:588-602 | the record of the update whose last reference the caller dropped fits into the completion array |
| `Engine.Blkhash.Poll` | bin/aio-checksum.c:349-351 | with an update outstanding the descriptor always becomes readable |
| `Engine.Blkhash.ReadFd` | bin/aio-checksum.c:369-380 | clears the event; the caller has to look at the records next |
| `Engine.Blkhash.Completions` | lib/blkhash.c:654-698 | up to count records of live updates, first in first out, each with its user data; a record carries an error if and only if a submission made for its update is doomed or its call failed, and it is the error of one of those that was stored first; an announcement is lost after the call if and only if it was lost before and the count is 0 or the hash has an error |
| `Engine.Blkhash.FaultIs` | lib/blkhash.c:654-698 | the same for any finished update, delivered or not |
| `Engine.Blkhash.CleanRecord` | lib/blkhash.c:588-602 | a record without an error means that every block its update handed over is hashed for what it is |
| `Engine.Blkhash.Take` | lib/blkhash.c:662-685 | removes the records and their share of inflight |
| `Engine.Blkhash.WriteBuffer` | include/blkhash.h:73-85 | a buffer that is not lent can be overwritten without any effect on the message |
| `Sessions.Client.Deliver` | bin/aio-checksum.c:349-385 | waiting and taking delivers a record or brings the workers on |
| `Sessions.Client.Reclaim` | include/blkhash.h:73-85 | waiting until no outstanding update borrows one buffer always ends; updates of other buffers may stay in flight |
| `Sessions.Client.MakeRoom` | lib/blkhash.c:621-626 | waiting for a free slot always ends |
| `Sessions.Client.Overwrite` | include/blkhash.h:73-85 | a buffer that no outstanding update borrows can be overwritten while others are in flight |
| `Sessions.TrackTake` | lib/blkhash.c:654-698 | the records a client gets back are the updates it still had out |
| `Sessions.Client.Perform` | lib/blkhash.c:576-729 | every call adds its bytes at call time to the message and takes the course that the call alone decides; a failure means that a digest failed |
| `Sessions.Client.Session` | lib/blkhash.c:576-754 | any list of calls with any interleaving: it succeeds if and only if nothing on the course of the calls is doomed, which calls and failing digests decide beforehand, and then returns the reference digest of its stream |
| `Sessions.CutStream` | lib/blkhash.c:513-586 | however a stream is cut into copied, borrowed and skipped pieces, the calls stand for that stream |
| `Sessions.NewSession` | lib/blkhash.c:85-90 | the same for a new hash with any thread count, any queue depth and any batch size above 1; a depth of 0, the default, rules out only asynchronous updates |
| `Sessions.AllClear` | lib/blkhash.c:576-754 | no later call makes up for a doomed submission |
| `Sessions.TwoSessions` | lib/blkhash.c:545-586 | the same stream in different calls, with other thread counts, queue depths and batch sizes, has the same digest; with the same calls and batch size both succeed or both fail |
| `Sessions.AgainstReference` | test/blkhash.py:53-117 | the digest of a session is the one the sequential reference computes, and the session succeeds if no digest fails |
| `Commands.BeginReadOk` | bin/aio-checksum.c:283-311 | moving an idle command to the read queue keeps the loop in order, and there is room for one more command in flight |
| `Commands.FinishReadOk` | bin/aio-checksum.c:239-262 | a completed read keeps the loop in order |
| `Commands.HandOk` | bin/aio-checksum.c:159-178 | the head of the read queue starts where the last call to the hash ended, and its bytes are those of the image; the hash has room |
| `Commands.FinishUpdateOk` | bin/aio-checksum.c:119-134 | a completed update keeps the loop in order |
| `Commands.AllDone` | bin/aio-checksum.c:391-409 | when everything is hashed every command is idle and nothing is in flight |
| `Commands.NothingLeft` | bin/aio-checksum.c:391-409 | with nothing in flight, nothing to hand over and no idle command that could read more, everything is hashed |
| `Commands.InitOk` | bin/aio-checksum.c:520-529 | all commands start idle in the hash queue |
| `Commands.LendsTake` | bin/aio-checksum.c:313-340 | every record belongs to a command that waits for it |
| `EventLoop.AllocateBuffers` | bin/aio-checksum.c:63-78 | every command has a buffer of the read size |
| `EventLoop.Checksum.constructor` | bin/aio-checksum.c:472-532 | a loop ready to run over a new hash |
| `EventLoop.Checksum.NextExtent` | bin/aio-checksum.c:205-237 | the next extent: positive, inside the image, zero only where the image is |
| `EventLoop.Checksum.TakeExtent` | bin/aio-checksum.c:213-236 | a whole zero extent, or up to the read size of a data extent; the rest stays |
| `EventLoop.Checksum.FetchExtents` | bin/aio-checksum.c:180-198 | a truthful answer of the source, or one data extent for the range |
| `EventLoop.Checksum.ReadCompleted` | bin/aio-checksum.c:239-262 | the buffer holds the image; the in-flight assertion holds; a read that failed ends the run |
| `EventLoop.Checksum.ReadMoreData` | bin/aio-checksum.c:283-311 | no idle command is left while there is something to read; a read may complete, or fail, inside the call that starts it |
| `EventLoop.Checksum.StartCommand` | bin/aio-checksum.c:80-89 | the command joins the tail of the read queue at the read offset; the in-flight assertion holds |
| `EventLoop.Checksum.HashMoreData` | bin/aio-checksum.c:159-178 | the head of the read queue is not completed afterwards; what was handed over went in order; a failure means that a submission the hash made is doomed |
| `EventLoop.Checksum.HashZero` | bin/aio-checksum.c:136-157 | a zero extent is hashed at once: the loop moves by exactly this command; a failure means that a submission the hash made is doomed |
| `EventLoop.Checksum.HashData` | bin/aio-checksum.c:159-176 | the bytes handed over are the next bytes of the image: the loop moves by exactly this command; a failure means that a submission the hash made is doomed |
| `EventLoop.Checksum.StartUpdate` | bin/aio-checksum.c:99-117 | the update fails only if the hash failed before: EAGAIN never happens, and the in-flight assertion holds |
| `EventLoop.Checksum.CompleteUpdates` | bin/aio-checksum.c:313-340 | records are matched to their commands; an error ends the run and means that a submission the hash made is doomed |
| `EventLoop.Checksum.UpdateCompleted` | bin/aio-checksum.c:119-134 | the command is idle again; the in-flight assertion holds |
| `EventLoop.Checksum.PickRead` | bin/aio-checksum.c:342-358 | any outstanding read may complete next |
| `EventLoop.Checksum.NotifySource` | bin/aio-checksum.c:356-359 | any outstanding reads complete in any order, or fail |
| `EventLoop.Checksum.WaitForEvents` | bin/aio-checksum.c:342-389 | a wait completes a command, brings the workers on, or uses up a wake-up for nothing; a signal of the hash may arrive at any time of the wait; each failure has its cause |
| `EventLoop.Checksum.LookAtHash` | bin/aio-checksum.c:361-384 | the event is read and its records taken, whenever it is seen |
| `EventLoop.Checksum.Turn` | bin/aio-checksum.c:391-409 | one turn of the loop strictly decreases the measure, or fails for a stated cause |
| `EventLoop.Checksum.ProcessImage` | bin/aio-checksum.c:391-409 | the loop ends; when it ends by itself the calls to the hash cover the image once, in order and without gaps, and nothing is outstanding; otherwise it was stopped, the source failed, or a submission the hash made is doomed |
| `EventLoop.Checksum.Everything` | bin/aio-checksum.c:393 | bytes hashed = image size leaves no command, no update and no error behind |
| `EventLoop.Checksum.Run` | bin/aio-checksum.c:411-439 | the checksum is the reference digest of the image; every other outcome has its cause |
| `EventLoop.AioChecksum` | bin/aio-checksum.c:590-599 | for every image, configuration, source and interleaving: with a working source, no failing digest and no stop the run succeeds, and a run that succeeds returns the reference digest of the image; one that fails had a doomed submission, a source that can fail, or a stop |
| `Limits.FinalForgets` | lib/blkhash.c:731-754 | for every non-zero block and thread count, a run in which the digest of that block fails, a call reports it, and final returns 0 all the same |
| `Limits.FeedDoomed` | lib/blkhash.c:289-330 | a failed block is reported at the latest by the call that submits the next batch of zeros |
| `Limits.NoticeLost` | lib/blkhash.c:654-698 | a run of update, poll, read and a take of nothing that leaves a record queued and the descriptor silent whatever the workers do |
| `Limits.NoticeLostToError` | lib/blkhash.c:659-660 | for every non-zero block, thread count and count: a run in which an update fails, a call reports it, and after poll and read a take of any count returns the error and leaves the record queued and the descriptor silent whatever the workers do |

## Left out

- Engine.Blkhash.constructor: block sizes below 16 are excluded, although the setter accepts even ones, because the zero test asserts that a full block has at least 16 bytes (lib/zero.c:18).
- EventLoop.Checksum.constructor: block sizes below 16 are excluded for the same reason.
- Engine.Blkhash.HashSubmission: does not model a failure of the outer digest itself; digests of blocks may fail.
- Engine.Blkhash.NewCompletion: does not model a failing malloc; allocation always succeeds here and in creating submissions.
- Engine.Blkhash.Signal: does not model a failure of the event descriptor; the event is one flag that signalling sets and reading clears.
- EventLoop.Checksum.WaitForEvents: a source that wakes the loop for nothing does so any finite number of times, so that the loop can be proved to end.
- EventLoop.Checksum.ReadNext: a read that completes inside the call that starts it runs its callback after the read offset was advanced; the callback does not look at that offset.
- Sessions.Client.Session: the client stops at the first error, and waits for a slot instead of meeting EAGAIN.
- Dropping a reference and clearing the submission's pointer to it are one step, and so are creating, referencing and queueing a submission: nobody can see the state between.
- Release and acquire on the completed flag are one atomic publication; the C11 memory model is not modelled.
- blkhash_free, the failure paths of blkhash_new_opts and hash_pool_init, and the leak of a submission that failed.
- The digest wrappers, the event descriptor's system calls, the image sources, option parsing, progress and signals.
