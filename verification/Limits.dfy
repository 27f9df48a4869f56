/** Runs of the engine in which a promise of the API is not kept. */
module Limits {
  import opened Streams
  import opened Pools
  import opened Shared
  import opened SharedCalls
  import opened Views
  import opened Flows
  import opened Courses
  import opened Engine
  import opened Config

  /** The digest of the first submission fails, and no other. */
  function FirstFails(id: nat): nat {
    if id == 0 then EIO else 0
  }

  lemma Multiple(x: nat, d: nat, size: nat)
    requires d > 0
    ensures (x + d) * size == x * size + d * size && d * size >= size
  {
  }

  lemma SameQuotient(n: nat, k: nat, size: nat, r: nat)
    requires r < size && n * size + r == k * size
    ensures n == k && r == 0
  {
    if n < k {
      Multiple(n, k - n, size);
    } else if n > k {
      Multiple(k, n - k, size);
    }
  }

  lemma OneBlock(n: nat, size: nat, r: nat, batch: nat)
    requires r < size
    ensures Times(n, size) + r == size ==> n == 1 && r == 0
    ensures Times(n, size) + r == size + Times(batch, size) ==> n == 1 + batch && r == 0
  {
    if Times(n, size) + r == size {
      SameQuotient(n, 1, size, r);
    }
    if Times(n, size) + r == size + Times(batch, size) {
      Multiple(batch, 1, size);
      SameQuotient(n, 1 + batch, size, r);
    }
  }

  /** A queue that has seen one submission holds nothing else. */
  lemma OnlyFirst(subs: map<nat, Submission>, ids: seq<nat>, nextId: nat)
    requires QueueOk(subs, ids, nextId) && nextId <= 1 && 0 in ids
    ensures ids == [0] && 0 in subs
  {
    assert |ids| > 1 ==> ids[0] != ids[1];
    forall k | 0 <= k < |ids|
      ensures ids[k] == 0
    {
      assert ids[k] in ids;
    }
  }

  /** A hash that was fed one block that is not zero, and has not failed, still has it queued. */
  lemma FirstIsQueued(v: View, block: seq<byte>)
    requires Good(v) && v.error == 0 && v.open && v.nextId <= 1 && v.sp.blocks == [block] && block != Zeros(v.sp.bs)
    requires v.sp.fails(0) != 0
    ensures v.ids == [0] && 0 in v.world.subs && Doomed(v, 0)
  {
    hide Inv, Ordered;
    assert PlaceOk(v.sp, v.world.subs, v.ids, v.carriers[0], 0, v.standing[0]);
    assert v.carriers[0] == 0 && 0 in v.ids;
    OnlyFirst(v.world.subs, v.ids, v.nextId);
  }

  /** What a hash between two calls says about itself. */
  lemma OneBlockFed(h: Blkhash, block: seq<byte>)
    requires h.Valid() && h.error == 0 && !h.finalized && h.Message() == block && |block| == h.bs
    requires block != Zeros(h.bs) && h.fails(0) != 0
    ensures h.Ids() == [0] && 0 in h.world.subs && Doomed(h.Now(), 0) && h.submittedIndex <= 1
    ensures h.blockIndex == 1 && h.pending.len == 0
  {
    hide Good, HistoryOk, Concat, Times;
    h.Conservation();
    OneBlock(h.blockIndex, h.bs, h.pending.len, 0);
    assert h.Fed(block) && |h.blocks| == 1;
    assert h.pending.Bytes() == [];
    OneOnly(h.blocks, block);
    FirstIsQueued(h.Now(), block);
  }

  lemma OneOnly(blocks: seq<seq<byte>>, m: seq<byte>)
    requires |blocks| == 1 && Concat(blocks) + [] == m
    ensures blocks == [m]
  {
    assert blocks[1..] == [];
    assert blocks[0] + [] == blocks[0];
  }

  lemma NowOverdue(v: View)
    requires Good(v) && v.ids != [] && v.ids[0] in v.world.subs && v.world.subs[v.ids[0]].completed
    requires Doomed(v, v.ids[0])
    ensures Overdue(v)
  {
    hide Inv;
    GoodInv(v);
    HeadError(v, v.ids[0]);
  }

  /** After a call that failed, the submission that was doomed is gone and no other is. */
  lemma NothingElseFails(v: View, v': View)
    requires Good(v) && Moved(v, v', false) && v.sp.fails == FirstFails && v'.sp.fails == FirstFails
    ensures Bad(v') == {} && v'.nextId > 0
  {
    hide Inv, Ordered, Placed, Kept;
    var id :| Culprit(v, v', id);
    assert id == 0;
    assert forall x :: x in Bad(v') ==> v'.sp.fails(x) != 0;
  }

  /** Enough zeros for a batch cannot be consumed without a submission. */
  lemma BatchNeedsMarker(h: Blkhash, sent: nat)
    requires h.Valid() && h.error == 0 && !h.finalized && |h.Message()| == h.bs + Times(h.batch, h.bs) && sent <= 1
    ensures h.submittedIndex != sent
  {
    hide Good, HistoryOk, Concat, Times;
    h.Conservation();
    OneBlock(h.blockIndex, h.bs, h.pending.len, h.batch);
  }

  /** The submission that will fail is now completed at the head of the queue. */
  lemma DoomedStays(h: Blkhash, v: View, v': View)
    requires h.Valid() && v' == h.Now() && Moved(v, v', true) && v'.ids == v.ids == [0] && Doomed(v, 0)
    requires 0 in h.world.subs && h.world.subs[0].completed
    ensures Overdue(v')
  {
    hide Good, Kept, Blkhash.Settled;
    assert 0 in v.ids && 0 in Bad(v);
    NowOverdue(v');
  }

  /** The failure was reported: nothing that is left to hash fails. */
  lemma Forgotten(h: Blkhash, v: View)
    requires h.Valid() && Good(v) && Moved(v, h.Now(), false) && v.sp.fails == FirstFails && h.fails == FirstFails
    ensures Bad(h.Now()) == {} && h.LastDue() == 0
  {
    hide Good, Moved, Bad, Blkhash.Settled, Blkhash.Core;
    NothingElseFails(v, h.Now());
  }

  lemma ValidGood(h: Blkhash)
    requires h.Valid()
    ensures Good(h.Now())
  {
  }

  /** The doomed block is fed; unless a call has reported it already, the workers get time to finish it and the next
      call reports it. */
  method FeedDoomed(h: Blkhash, block: seq<byte>) returns (earlier: nat, ghost v: View)
    requires h.Valid() && h.error == 0 && !h.finalized && h.live == {} && h.Message() == [] && h.fails == FirstFails
    requires |block| == h.bs && block != Zeros(h.bs)
    modifies h, h.pending, h.pending.data, h.sq, h.sq.slots
    ensures h.Valid() && !h.finalized && earlier != 0 && earlier == h.error
    ensures Good(v) && v.sp.fails == FirstFails && Moved(v, h.Now(), false)
  {
    hide Blkhash.Core, Blkhash.Fed, Blkhash.Settled, Moved, Doomed, FirstFails, Good, Blkhash.Here, Blkhash.Struck;
    hide Follows;
    hide Blkhash.CourseOfUpdate, Blkhash.CourseOfZeros;
    earlier, v := FeedBlock(h, block);
    if earlier == 0 {
      earlier, v := Expose(h, block);
    }
  }

  method FeedBlock(h: Blkhash, block: seq<byte>) returns (err: nat, ghost v: View)
    requires h.Valid() && h.error == 0 && !h.finalized && h.live == {} && h.Message() == []
    modifies h, h.pending, h.pending.data, h.sq, h.sq.slots
    ensures h.Valid() && !h.finalized && err == h.error && (err == 0 ==> h.Message() == block)
    ensures Good(v) && v.sp.fails == h.fails && Moved(v, h.Now(), err == 0)
  {
    hide Blkhash.Core, Blkhash.Fed, Blkhash.Settled, Moved, Good, Blkhash.Here, Blkhash.Struck, Follows;
    hide Blkhash.CourseOfUpdate;
    h.WriteBuffer(0, block);
    ValidGood(h);
    v := h.Now();
    err := h.Update(0, |block|);
    assert [] + block[..|block|] == block;
  }

  /** The workers get time to finish the doomed block, and a batch of zeros makes the hash look at it. */
  method Expose(h: Blkhash, block: seq<byte>) returns (err: nat, ghost v: View)
    requires h.Valid() && h.error == 0 && !h.finalized && h.Message() == block && |block| == h.bs
    requires block != Zeros(h.bs) && h.fails == FirstFails
    modifies h, h.pending, h.pending.data, h.sq, h.sq.slots
    ensures h.Valid() && !h.finalized && err != 0 && err == h.error
    ensures Good(v) && v.sp.fails == FirstFails && Moved(v, h.Now(), false)
    ensures h.issued == old(h.issued) && h.live == old(h.live) && h.world.draining == old(h.world.draining)
  {
    hide Blkhash.Core, Blkhash.Fed, Blkhash.Settled, Moved, Doomed, FirstFails, Good, Blkhash.Here, Blkhash.Struck;
    hide Follows;
    hide Blkhash.CourseOfUpdate, Blkhash.CourseOfZeros;
    v := Overlook(h, block);
    err := h.Zero(Times(h.batch, h.bs));
    Reported(h, v, err);
  }

  /** No call has looked yet: the workers complete the doomed submission. */
  method Overlook(h: Blkhash, block: seq<byte>) returns (ghost v: View)
    requires h.Valid() && h.error == 0 && !h.finalized && h.Message() == block && |block| == h.bs
    requires block != Zeros(h.bs) && h.fails == FirstFails
    modifies h`world
    ensures h.Valid() && v == h.Now() && Good(v) && Overdue(v) && v.sent <= 1
    ensures h.world.draining == old(h.world.draining)
  {
    hide Blkhash.Core, Blkhash.Fed, Blkhash.Settled, Moved, Doomed, Good, Overdue;
    OneBlockFed(h, block);
    ghost var v1 := h.Now();
    h.LetFinish(0);
    MovedParts(v1, h.Now(), true);
    v := h.Now();
    ValidGood(h);
    DoomedStays(h, v1, v);
  }

  lemma Reported(h: Blkhash, v: View, err: nat)
    requires h.Valid() && !h.finalized && err == h.error && Overdue(v) && v.sent <= 1 && Moved(v, h.Now(), err == 0)
    requires err == 0 ==> |h.Message()| == h.bs + Times(h.batch, h.bs)
    ensures err != 0
  {
    hide Blkhash.Core, Blkhash.Fed, Blkhash.Settled, Flowed, Overdue, Times;
    if err == 0 {
      BatchNeedsMarker(h, v.sent);
    }
  }

  /** One block's digest fails, a later call reports it, and finishing the hash succeeds all the same. */
  method FinalForgets(D: seq<byte> -> seq<byte>, block: seq<byte>, threads: nat)
      returns (h: Blkhash, earlier: nat, err: nat, md: seq<byte>)
    requires |block| >= 16 && |block| % 2 == 0 && block != Zeros(|block|) && 1 <= threads <= MAX_THREADS
    ensures earlier != 0 && earlier == h.error && err == 0
  {
    hide Blkhash.Core, Blkhash.Fed, Blkhash.Settled, Moved, Bad, FirstFails, Good;
    h := new Blkhash(D, FirstFails, |block|, threads, 0, ZERO_BATCH_SIZE);
    ghost var v;
    earlier, v := FeedDoomed(h, block);
    Forgotten(h, v);
    err, md := h.Final();
  }

  /** The announcement of the only record is read, and a take of nothing follows: the record stays queued, and
      whatever the workers do, the descriptor stays silent. */
  method NoticeLost(D: seq<byte> -> seq<byte>, data: seq<byte>, blockSize: nat, threads: nat) returns (h: Blkhash)
    requires blockSize >= 16 && blockSize % 2 == 0 && 1 <= threads <= MAX_THREADS
    ensures h.Valid() && h.error == 0 && h.live == {0}
    ensures Lost(h.world) && Inv(h.Sp(), h.world) && Silent(h.Sp(), h.world)
  {
    hide Blkhash.Core, Blkhash.Fed, Blkhash.Settled, Inv, Lost, Silent, Blkhash.Here;
    h := new Blkhash(D, _ => 0, blockSize, threads, 1, ZERO_BATCH_SIZE);
    StartOne(h, data);
    var was := h.ReadFd();
    var n, records := h.Completions(0);
    NoTickets();
    Unannounced(h);
    NeverSignalled(h.Sp(), h.world);
  }

  /** The descriptor stays silent. */
  ghost predicate Silent(sp: Spec, w: World)
    requires Inv(sp, w)
  {
    forall steps :: (forall k :: 0 <= k < |steps| ==> steps[k] < |w.pool.workers|) ==> !RunAll(sp, w, steps).event
  }

  lemma NeverSignalled(sp: Spec, w: World)
    requires Inv(sp, w) && Lost(w)
    ensures Silent(sp, w)
  {
    hide Inv, Lost;
    forall steps: seq<nat> | forall k :: 0 <= k < |steps| ==> steps[k] < |w.pool.workers|
      ensures !RunAll(sp, w, steps).event
    {
      LostForever(sp, w, steps);
    }
  }

  /** Once the hash has failed, no take makes up for the announcement that was read, whatever its count. */
  method NoticeLostToError(D: seq<byte> -> seq<byte>, block: seq<byte>, threads: nat, count: nat)
      returns (h: Blkhash, n: int, records: seq<Record>)
    requires |block| >= 16 && |block| % 2 == 0 && block != Zeros(|block|) && 1 <= threads <= MAX_THREADS
    ensures h.Valid() && h.error != 0 && n == -(h.error as int) && records == [] && h.live == {0}
    ensures Lost(h.world) && Inv(h.Sp(), h.world) && Silent(h.Sp(), h.world)
  {
    hide Blkhash.Core, Blkhash.Fed, Blkhash.Settled, Inv, Lost, Silent, Blkhash.Here;
    h := new Blkhash(D, FirstFails, |block|, threads, 1, ZERO_BATCH_SIZE);
    BreakOne(h, block);
    h.Poll();
    var was := h.ReadFd();
    n, records := h.Completions(count);
    Unannounced(h);
    NeverSignalled(h.Sp(), h.world);
  }

  /** The only update is that of a doomed block, and a call has reported it. */
  method BreakOne(h: Blkhash, block: seq<byte>)
    requires h.Valid() && h.error == 0 && !h.finalized && !h.world.draining && h.fails == FirstFails
    requires h.issued == [] && h.live == {} && h.inflight == 0 < h.queueDepth && h.Message() == []
    requires |block| == h.bs && block != Zeros(h.bs)
    modifies h, h.pending, h.pending.data, h.sq, h.sq.slots
    ensures h.Valid() && h.error != 0 && !h.world.draining && |h.issued| == 1 && h.live == {0}
  {
    hide Blkhash.Core, Blkhash.Fed, Blkhash.Settled, FirstFails, Moved, Good, Blkhash.Here, Blkhash.Struck, Follows;
    hide Blkhash.CourseOfUpdate;
    hide FirstFault;
    h.WriteBuffer(0, block);
    var err := h.AioUpdate(0, |block|, 0);
    assert [] + block[..|block|] == block;
    if h.error == 0 {
      ghost var v;
      err, v := Expose(h, block);
    }
  }

  /** One update is started, and the application waits until the descriptor is readable. */
  method StartOne(h: Blkhash, data: seq<byte>)
    requires h.Valid() && h.error == 0 && !h.finalized && !h.world.draining && Sound(h.fails)
    requires h.issued == [] && h.live == {} && h.inflight == 0 < h.queueDepth
    modifies h, h.pending, h.pending.data, h.sq, h.sq.slots
    ensures h.Valid() && h.error == 0 && h.world.event && |h.issued| == 1 && h.live == {0}
  {
    hide Blkhash.Core, Blkhash.Fed, Blkhash.Settled, Rely;
    h.WriteBuffer(0, data);
    var err := h.AioUpdate(0, |data|, 0);
    h.Poll();
  }

  lemma Unannounced(h: Blkhash)
    requires h.Valid() && h.world.draining && |h.issued| == 1 && 0 in h.live
    ensures Lost(h.world) && Inv(h.Sp(), h.world)
  {
    hide Blkhash.Settled, QueueOk, Ordered, Placed;
    hide PoolOk, JobsOk, PhaseOk, DataOk, LinkOk, RefsOk, FireOk, TicketOk, FaultOk, NotifyOk, ErrorsOk, Sound;
    assert Untouched(h.issued, h.live);
  }
}
