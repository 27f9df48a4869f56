/** Why a call may fail, and what a failure does to the queue.

    A submission is doomed when it will carry an error.  A call fails only by taking a doomed submission off
    the queue, and a call that succeeds has taken off none. */
module Flows {
  import opened Streams
  import opened Pools
  import opened Shared
  import opened SharedSteps
  import opened SharedCalls
  import opened Views

  ghost predicate Doomed(v: View, id: nat) {
    id in v.world.subs && Due(v.sp, id, v.world.subs[id]) != 0
  }

  /** The doomed submissions in the queue. */
  ghost function Bad(v: View): set<nat> {
    set id | id in v.ids && Doomed(v, id)
  }

  /** The head of the queue is completed and carries an error: the next call that looks will fail. */
  ghost predicate Overdue(v: View) {
    && v.ids != [] && v.ids[0] in v.world.subs
    && v.world.subs[v.ids[0]].completed && v.world.subs[v.ids[0]].error != 0
  }

  /** A doomed submission that was taken off the queue: it is never freed, and its error becomes that of the hash
      unless there was one before. */
  ghost predicate Culprit(v: View, v': View, id: nat) {
    && (id in Bad(v) || v.nextId <= id < v'.nextId) && Doomed(v', id) && id !in v'.ids
    && (v.error == 0 ==> v'.error == Due(v'.sp, id, v'.world.subs[id]))
  }

  /** The submissions that were added were made for `link`. */
  ghost predicate MadeBy(makers: seq<Link>, makers': seq<Link>, link: Link) {
    makers <= makers' && forall k :: |makers| <= k < |makers'| ==> makers'[k] == link
  }

  /** From one view to a later one, through a call that succeeded or failed. */
  ghost predicate Flowed(v: View, v': View, ok: bool) {
    && Kept(v.world, v'.world) && v.nextId <= v'.nextId && v'.sp.fails == v.sp.fails
    && v.sp.blocks <= v'.sp.blocks && v.carriers <= v'.carriers
    && (forall id :: id in Bad(v') ==> id in Bad(v) || v.nextId <= id < v'.nextId)
    && MadeBy(v.makers, v'.makers, Made(v.world.caller))
    && (ok ==> Bad(v) <= Bad(v')) && (ok || v.error != 0 ==> v'.error == v.error)
    && (!ok ==> exists id :: Culprit(v, v', id))
  }

  /** A flow in which a failure that is overdue was not passed over. */
  ghost predicate Moved(v: View, v': View, ok: bool) {
    Flowed(v, v', ok) && (ok && Overdue(v) ==> Overdue(v') && v'.sent == v.sent)
  }

  /** The head of the queue is doomed. */
  ghost predicate HeadDoomed(v: View) {
    v.ids != [] && Doomed(v, v.ids[0])
  }

  lemma FlowedThen(v1: View, v2: View, v3: View, ok: bool)
    requires Flowed(v1, v2, true) && Flowed(v2, v3, ok)
    ensures Flowed(v1, v3, ok)
  {
    hide Kept;
    KeptTransitive(v1.world, v2.world, v3.world);
    KeptCaller(v1.world, v2.world);
    if !ok {
      var id :| Culprit(v2, v3, id);
      assert Culprit(v1, v3, id);
    }
  }

  lemma MovedThen(v1: View, v2: View, v3: View, ok: bool)
    requires Moved(v1, v2, true) && Moved(v2, v3, ok)
    ensures Moved(v1, v3, ok)
  {
    hide Flowed, Overdue;
    FlowedThen(v1, v2, v3, ok);
  }

  lemma MovedRefl(v: View)
    ensures Moved(v, v, true)
  {
  }

  lemma MovedParts(v: View, v': View, ok: bool)
    requires Moved(v, v', ok)
    ensures v'.world.mem == v.world.mem && v'.world.caller == v.world.caller && v'.world.draining == v.world.draining
    ensures Kept(v.world, v'.world) && v.nextId <= v'.nextId && MadeBy(v.makers, v'.makers, Made(v.world.caller))
  {
    hide Culprit, Bad;
  }

  /** A call fails only by a submission whose digest failed, and with its error unless the hash had one. */
  lemma MovedCause(v: View, v': View)
    requires Moved(v, v', false)
    ensures exists id :: Doomed(v', id) && id !in v'.ids && (v.error == 0 ==> v'.error == v.sp.fails(id) != 0)
    ensures !Sound(v.sp.fails)
  {
    hide Kept, Bad, MadeBy;
    var id :| Culprit(v, v', id);
    Unsound(v.sp.fails, id);
  }

  /** Workers change nothing about what is doomed. */
  lemma RelyMoved(v: View, w': World)
    requires Good(v) && Rely(v.world, w')
    ensures Moved(v, v.(world := w'), true) && Bad(v.(world := w')) == Bad(v)
  {
    hide Inv, Ordered, Placed;
    RelyKept(v.world, w');
    var v' := v.(world := w');
    forall id | id in v.ids
      ensures Doomed(v', id) == Doomed(v, id)
      ensures id in v.world.subs && v.world.subs[id].completed ==> w'.subs[id] == v.world.subs[id]
    {
      assert id in v.world.subs && SameSubmission(v.world.subs[id], w'.subs[id]);
    }
    assert Bad(v') == Bad(v);
    if Overdue(v) {
      assert v.ids[0] in v.ids;
    }
  }

  /** What is doomed depends on the queue, its submissions and the blocks alone. */
  lemma SameBad(v: View, v': View)
    requires v'.ids == v.ids && v'.world.subs == v.world.subs
    requires v'.sp.fails == v.sp.fails && v'.sp.bs == v.sp.bs && v'.sp.blocks == v.sp.blocks
    ensures Bad(v') == Bad(v)
  {
    assert forall id :: id in v.ids ==> Doomed(v', id) == Doomed(v, id);
  }

  /** The head of the queue is taken off: a failure exactly when it carries an error. */
  lemma RetireMoved(v: View, v': View, id: nat, rest: seq<nat>, ok: bool)
    requires Good(v) && v.ids == [id] + rest && id in v.world.subs && v.world.subs[id].completed
    requires v'.sp == v.sp && v'.ids == rest && v'.nextId == v.nextId && v'.world == v.world.(subs := v'.world.subs)
    requires v'.carriers == v.carriers && v'.makers == v.makers
    requires v'.error == if ok || v.error != 0 then v.error else v.world.subs[id].error
    requires v'.world.subs == if ok then v.world.subs - {id} else v.world.subs
    requires ok <==> v.world.subs[id].error == 0
    ensures Moved(v, v', ok) && Bad(v') == Bad(v) - {id} && (ok <==> id !in Bad(v)) && (Overdue(v) ==> !ok)
  {
    hide Inv, Ordered, Placed;
    GoodInv(v);
    HeadError(v, id);
    RetireQueue(v.world.subs, id, rest, v.nextId);
    assert forall x :: x in v.ids <==> x == id || x in rest;
    assert Bad(v') == Bad(v) - {id};
    assert v.ids[0] == id;
    if !ok {
      assert Culprit(v, v', id);
    }
  }

  /** A marker is not doomed and changes nothing about the others. */
  lemma MarkerFlowed(v: View)
    requires Good(v)
    ensures Flowed(v, MarkerView(v), true) && Bad(MarkerView(v)) == Bad(v) && (Overdue(v) ==> Overdue(MarkerView(v)))
  {
    hide Inv, Ordered, Placed;
    var v' := MarkerView(v);
    assert v.nextId !in v.world.subs && v.nextId !in v.ids;
    assert Bad(v') == Bad(v);
  }

  lemma GrowDue(sp: Spec, w: World, more: seq<seq<byte>>)
    requires Inv(sp, w)
    ensures forall id :: id in w.subs ==>
              Due(sp.(blocks := sp.blocks + more), id, w.subs[id]) == Due(sp, id, w.subs[id])
  {
    hide PoolOk, JobsOk, PhaseOk, LinkOk, RefsOk, FireOk, TicketOk, FaultOk, NotifyOk, NoticeOk, ErrorsOk, DataOk;
    GrowErrors(sp, w.mem, w.subs, more);
  }

  /** Zero blocks without a submission change nothing about the queue. */
  lemma ZerosMoved(v: View, count: nat)
    requires Good(v)
    ensures Moved(v, ZerosView(v, count), true) && Bad(ZerosView(v, count)) == Bad(v)
  {
    hide Inv, QueueOk, Ordered, Placed;
    var v' := ZerosView(v, count);
    GrowDue(v.sp, v.world, seq(count, _ => Zeros(v.sp.bs)));
    assert Bad(v') == Bad(v);
  }

  /** What a new block is due: nothing if it is borrowed and zero, else the outcome of its digest. */
  ghost function BlockDue(v: View, data: Data, block: seq<byte>): nat {
    if data.NoData? || (data.User? && block == Zeros(v.sp.bs)) then 0 else v.sp.fails(v.nextId)
  }

  lemma DataFlowed(v: View, s: Submission, block: seq<byte>, woken: set<nat>)
    requires Good(v) && s == NewData(|v.sp.blocks|, s.data, s.link) && !s.data.NoData?
    requires (s.link.Link? ==> s.link.ticket in v.world.comps) && s.link == Made(v.world.caller)
    requires SubmitError(v.world.pool) == 0 && SignalChoice(Queued(v.world.pool, v.nextId), woken)
    ensures var v' := DataView(v, s, block, woken);
            && Flowed(v, v', true) && (Overdue(v) ==> Overdue(v'))
            && Bad(v') == Bad(v) + (if BlockDue(v, s.data, block) == 0 then {} else {v.nextId})
  {
    hide Good, Doomed, Kept, SubmitError, SignalChoice, Submit;
    var v' := DataView(v, s, block, woken);
    SubmitKept(v.world, v.nextId, s, woken);
    PushBad(v, v', s, block);
  }

  lemma PushBad(v: View, v': View, s: Submission, block: seq<byte>)
    requires Good(v) && s == NewData(|v.sp.blocks|, s.data, s.link) && !s.data.NoData?
    requires v'.sp == v.sp.(blocks := v.sp.blocks + [block]) && v'.ids == v.ids + [v.nextId]
    requires v'.world.subs == v.world.subs[v.nextId := s]
    ensures Bad(v') == Bad(v) + (if BlockDue(v, s.data, block) == 0 then {} else {v.nextId})
    ensures Overdue(v) ==> Overdue(v')
  {
    hide Inv, Ordered, Placed, Due;
    GoodInv(v);
    GrowDue(v.sp, v.world, [block]);
    NewDue(v, v'.sp, s, block);
    assert v.nextId !in v.world.subs && v.nextId !in v.ids;
    assert forall id :: id in v.ids ==> Doomed(v', id) == Doomed(v, id);
    assert Bad(v') == Bad(v) + (if BlockDue(v, s.data, block) == 0 then {} else {v.nextId});
  }

  lemma NewDue(v: View, sp: Spec, s: Submission, block: seq<byte>)
    requires s == NewData(|v.sp.blocks|, s.data, s.link) && !s.data.NoData?
    requires sp == v.sp.(blocks := v.sp.blocks + [block])
    ensures Due(sp, v.nextId, s) == BlockDue(v, s.data, block)
  {
  }

  /** Making room, pushing a submission and hashing what is completed, taken together. */
  lemma SubmitMoved(v0: View, v1: View, v2: View, v3: View, ok: bool)
    requires Moved(v0, v1, true) && Flowed(v1, v2, true) && (Overdue(v1) ==> Overdue(v2))
    requires Moved(v2, v3, ok) && (Overdue(v2) ==> !ok)
    ensures Moved(v0, v3, ok)
  {
    hide Flowed, Overdue;
    FlowedThen(v0, v1, v2, true);
    FlowedThen(v0, v2, v3, ok);
  }

  lemma NoneQueued(v: View)
    requires v.ids == []
    ensures Bad(v) == {}
  {
  }

  lemma OverdueQueued(v: View)
    ensures Overdue(v) ==> v.ids != []
  {
  }

  lemma NotOverdue(v: View)
    requires v.ids != [] && v.ids[0] in v.world.subs && !v.world.subs[v.ids[0]].completed
    ensures !Overdue(v)
  {
  }

  lemma MovedOverdue(v: View, v': View)
    requires Moved(v, v', true)
    ensures Overdue(v) ==> Overdue(v')
  {
  }

  /** A call that empties the queue fails exactly when something in it was doomed. */
  lemma DoomedExactly(v: View, v': View, ok: bool)
    requires Moved(v, v', ok) && v'.nextId == v.nextId && (ok ==> Bad(v') == {})
    ensures ok <==> Bad(v) == {}
  {
    hide Kept, Bad, Overdue;
  }

  /** A failure had something doomed to fail on. */
  lemma FailedFlow(v: View, v': View)
    requires Moved(v, v', false) && v'.nextId == v.nextId
    ensures Bad(v) != {}
  {
    hide Kept, Bad, Overdue;
  }

  lemma SubmitFine(v0: View, v1: View, v2: View, v3: View, ok: bool)
    requires Moved(v0, v1, true) && v1.nextId == v0.nextId && Moved(v2, v3, ok) && v3.nextId == v2.nextId
    ensures Bad(v1) == Bad(v0) && (Bad(v2) == {} ==> ok && Bad(v3) == {}) && (ok ==> Bad(v3) == Bad(v2))
  {
    hide Kept, Bad, Overdue;
  }

  lemma MovedBad(v: View, v': View)
    requires Moved(v, v', true)
    ensures Bad(v) <= Bad(v')
  {
    hide Kept, Bad, Overdue;
  }
}
