/** What the calling thread does to the shared state, one shared access at a time. */
module SharedCalls {
  import opened Streams
  import opened Pools
  import opened Shared
  import opened SharedSteps

  /** What is said of submissions depends on the blocks, and what is said of updates on the updates. */
  lemma SameBlocks(sp: Spec, sp': Spec, mem: map<nat, seq<byte>>, subs: map<nat, Submission>)
    requires sp' == sp.(issued := sp'.issued, live := sp'.live, broken := sp'.broken)
    ensures DataOk(sp', mem, subs) == DataOk(sp, mem, subs) && ErrorsOk(sp', subs) == ErrorsOk(sp, subs)
  {
    assert forall id :: id in subs ==> SubOk(sp', mem, subs[id]) == SubOk(sp, mem, subs[id]);
    assert forall id :: id in subs ==> ErrorOk(sp', id, subs[id]) == ErrorOk(sp, id, subs[id]);
  }

  lemma SameUpdates(sp: Spec, sp': Spec, comps: map<nat, Completion>, cq: seq<Record>)
    requires sp' == sp.(blocks := sp'.blocks, broken := sp'.broken)
    ensures TicketOk(sp', comps, cq) == TicketOk(sp, comps, cq)
  {
  }

  // ---------------------------------------------------------------- submissions

  function NewData(index: nat, data: Data, link: Link): Submission {
    Submission(index, data, link, link, [], false, 0, false, false)
  }

  function NewMarker(index: nat): Submission {
    Submission(index, NoData, NoLink, NoLink, [], true, 0, true, true)
  }

  function Referenced(comps: map<nat, Completion>, link: Link): map<nat, Completion>
    requires link.Link? ==> link.ticket in comps
  {
    if link.NoLink? then comps
    else comps[link.ticket := comps[link.ticket].(refs := comps[link.ticket].refs + 1)]
  }

  /** Create a data submission, take a reference for it, and hand it to the pool. */
  function SubmitData(w: World, id: nat, s: Submission, woken: set<nat>): World
    requires s.link.Link? ==> s.link.ticket in w.comps
    requires SubmitError(w.pool) == 0 && SignalChoice(Queued(w.pool, id), woken)
  {
    w.(subs := w.subs[id := s], comps := Referenced(w.comps, s.link), pool := Submit(w.pool, id, woken))
  }

  function AddMarker(w: World, id: nat, index: nat): World {
    w.(subs := w.subs[id := NewMarker(index)])
  }

  function Free(w: World, id: nat): World {
    w.(subs := w.subs - {id})
  }

  lemma SubmitPool(p: Pool, id: nat, woken: set<nat>)
    requires PoolOk(p) && SubmitError(p) == 0 && SignalChoice(Queued(p, id), woken)
    ensures PoolOk(Submit(p, id, woken))
  {
    SubmitWakeful(p, id, woken);
  }

  lemma SubmitJobs(p: Pool, subs: map<nat, Submission>, id: nat, s: Submission, woken: set<nat>)
    requires JobsOk(p, subs) && PhaseOk(p, subs) && id !in subs && !s.computed && !s.completed
    requires SubmitError(p) == 0 && SignalChoice(Queued(p, id), woken)
    ensures JobsOk(Submit(p, id, woken), subs[id := s]) && PhaseOk(Submit(p, id, woken), subs[id := s])
  {
    var p', subs' := Submit(p, id, woken), subs[id := s];
    forall j: nat
      ensures HeldCount(p', j) == One(j in subs' && !subs'[j].completed)
    {
      SubmitHeld(p, id, woken, j);
      assert HeldCount(p, j) == One(j in subs && !subs[j].completed);
    }
    forall i | 0 <= i < |p'.workers| && p'.workers[i].Busy?
      ensures WorkerOk(subs', p'.workers[i].job, p'.workers[i].phase)
    {
      assert p.workers[i] == p'.workers[i];
      assert WorkerOk(subs, p.workers[i].job, p.workers[i].phase);
    }
  }

  ghost predicate SameFires(ws: seq<Worker>, ws': seq<Worker>) {
    |ws'| == |ws| && forall i, t :: 0 <= i < |ws| ==> (Fires(ws'[i], t) <==> Fires(ws[i], t))
  }

  lemma SameFiresOk(ws: seq<Worker>, ws': seq<Worker>, caller: Caller, comps: map<nat, Completion>)
    requires FireOk(ws, caller, comps) && SameFires(ws, ws')
    ensures FireOk(ws', caller, comps)
  {
  }

  lemma WakeFire(ws: seq<Worker>, woken: set<nat>, caller: Caller, comps: map<nat, Completion>)
    requires FireOk(ws, caller, comps)
    ensures FireOk(Wake(ws, woken), caller, comps)
  {
    assert SameFires(ws, Wake(ws, woken)) by {
      forall i, t | 0 <= i < |ws|
        ensures Fires(Wake(ws, woken)[i], t) <==> Fires(ws[i], t)
      {
      }
    }
    SameFiresOk(ws, Wake(ws, woken), caller, comps);
  }

  lemma WakeNotify(ws: seq<Worker>, woken: set<nat>, caller: Caller, cq: seq<Record>, announced: bool)
    requires NotifyOk(ws, caller, cq, announced)
    ensures NotifyOk(Wake(ws, woken), caller, cq, announced)
  {
    if i :| 0 <= i < |ws| && Notifies(ws[i]) {
      assert Notifies(Wake(ws, woken)[i]);
    }
  }

  lemma WakeNotice(issued: seq<Issue>, live: set<nat>, ws: seq<Worker>, woken: set<nat>, caller: Caller,
                   cq: seq<Record>, event: bool, draining: bool)
    requires NoticeOk(issued, live, ws, caller, cq, event, draining)
    ensures NoticeOk(issued, live, Wake(ws, woken), caller, cq, event, draining)
  {
    assert forall i :: 0 <= i < |ws| ==> (Notifies(Wake(ws, woken)[i]) <==> Notifies(ws[i]));
  }

  lemma HolderJoins(subs: map<nat, Submission>, id: nat, s: Submission, t: nat)
    requires id !in subs
    ensures |Holders(subs[id := s], t)| == |Holders(subs, t)| + One(s.link == Link(t))
  {
    if s.link == Link(t) {
      assert Holders(subs[id := s], t) == Holders(subs, t) + {id};
    } else {
      assert Holders(subs[id := s], t) == Holders(subs, t);
    }
  }

  lemma ReferencedOk(w: World, id: nat, s: Submission)
    requires RefsOk(w.caller, w.comps, w.subs) && LinkOk(w.comps, w.subs)
    requires id !in w.subs && (s.link.Link? ==> w.caller == Holding(s.link.ticket)) && LentOk(w.comps, s)
    ensures RefsOk(w.caller, Referenced(w.comps, s.link), w.subs[id := s])
    ensures LinkOk(Referenced(w.comps, s.link), w.subs[id := s])
  {
    var comps' := Referenced(w.comps, s.link);
    forall t | t in comps'
      ensures comps'[t].refs == One(w.caller == Holding(t)) + |Holders(w.subs[id := s], t)|
    {
      HolderJoins(w.subs, id, s, t);
    }
    forall j | j in w.subs
      ensures LentOk(comps', w.subs[j])
    {
      assert LentOk(w.comps, w.subs[j]);
    }
  }

  lemma ReferencedFire(sp: Spec, w: World, link: Link)
    requires RefsOk(w.caller, w.comps, w.subs) && FireOk(w.pool.workers, w.caller, w.comps)
    requires TicketOk(sp, w.comps, w.cq) && FaultOk(w.comps, w.cq, w.faults)
    requires link.Link? ==> w.caller == Holding(link.ticket)
    ensures FireOk(w.pool.workers, w.caller, Referenced(w.comps, link))
    ensures TicketOk(sp, Referenced(w.comps, link), w.cq) && FaultOk(Referenced(w.comps, link), w.cq, w.faults)
    ensures Referenced(w.comps, link).Keys == w.comps.Keys
  {
  }

  /** Handing a block to the pool: the new submission stands for the new last block. */
  lemma SubmitDataInv(sp: Spec, w: World, id: nat, s: Submission, block: seq<byte>, woken: set<nat>)
    requires Inv(sp, w) && id !in w.subs && !s.data.NoData?
    requires s == NewData(|sp.blocks|, s.data, s.link) && Content(w.mem, s) == block
    requires s.link.Link? ==> w.caller == Holding(s.link.ticket)
    requires s.data.User? ==> s.link.Link? && s.link.ticket in w.comps && w.comps[s.link.ticket].buf == s.data.buf
    requires SubmitError(w.pool) == 0 && SignalChoice(Queued(w.pool, id), woken)
    ensures s.link.Link? ==> s.link.ticket in w.comps
    ensures Inv(sp.(blocks := sp.blocks + [block]), SubmitData(w, id, s, woken))
  {
    hide PoolOk, JobsOk, PhaseOk, DataOk, LinkOk, RefsOk, FireOk, TicketOk, FaultOk, NotifyOk, NoticeOk, ErrorsOk;
    hide BlameOk;
    if s.link.Link? { HeldAt(w.caller, w.comps, w.subs); }
    SubmitPool(w.pool, id, woken);
    SubmitJobs(w.pool, w.subs, id, s, woken);
    ReferencedOk(w, id, s);
    ReferencedFire(sp, w, s.link);
    WakeFire(w.pool.workers, woken, w.caller, Referenced(w.comps, s.link));
    WakeNotify(w.pool.workers, woken, w.caller, w.cq, w.event || w.draining);
    WakeNotice(sp.issued, sp.live, w.pool.workers, woken, w.caller, w.cq, w.event, w.draining);
    SubmitBlock(sp, w, id, s, block);
    SameUpdates(sp, sp.(blocks := sp.blocks + [block]), Referenced(w.comps, s.link), w.cq);
    JoinBlame(sp.broken, w.subs, w.faults, id, s);
  }

  lemma SubmitBlock(sp: Spec, w: World, id: nat, s: Submission, block: seq<byte>)
    requires DataOk(sp, w.mem, w.subs) && ErrorsOk(sp, w.subs) && !s.data.NoData?
    requires s == NewData(|sp.blocks|, s.data, s.link) && Content(w.mem, s) == block
    ensures var sp' := sp.(blocks := sp.blocks + [block]);
            DataOk(sp', w.mem, w.subs[id := s]) && ErrorsOk(sp', w.subs[id := s])
  {
    GrowErrors(sp, w.mem, w.subs, [block]);
  }

  /** More blocks do not change what is due of those already there. */
  lemma GrowErrors(sp: Spec, mem: map<nat, seq<byte>>, subs: map<nat, Submission>, more: seq<seq<byte>>)
    requires DataOk(sp, mem, subs) && ErrorsOk(sp, subs)
    ensures DataOk(sp.(blocks := sp.blocks + more), mem, subs) && ErrorsOk(sp.(blocks := sp.blocks + more), subs)
    ensures forall id :: id in subs ==> Due(sp.(blocks := sp.blocks + more), id, subs[id]) == Due(sp, id, subs[id])
  {
    forall id | id in subs
      ensures Due(sp.(blocks := sp.blocks + more), id, subs[id]) == Due(sp, id, subs[id])
      ensures ErrorOk(sp, id, subs[id])
    {
      assert SubOk(sp, mem, subs[id]);
    }
  }

  lemma GrowInv(sp: Spec, w: World, more: seq<seq<byte>>)
    requires Inv(sp, w)
    ensures Inv(sp.(blocks := sp.blocks + more), w)
  {
    hide PoolOk, JobsOk, PhaseOk, DataOk, LinkOk, RefsOk, FireOk, TicketOk, FaultOk, NotifyOk, NoticeOk, ErrorsOk;
    hide BlameOk;
    GrowErrors(sp, w.mem, w.subs, more);
    SameUpdates(sp, sp.(blocks := sp.blocks + more), w.comps, w.cq);
  }

  /** A zero marker is born completed: no worker ever sees it. */
  lemma AddMarkerInv(sp: Spec, w: World, id: nat)
    requires Inv(sp, w) && id !in w.subs
    ensures Inv(sp, AddMarker(w, id, |sp.blocks|))
  {
    hide PoolOk, JobsOk, PhaseOk, DataOk, LinkOk, RefsOk, FireOk, TicketOk, FaultOk, NotifyOk, NoticeOk, ErrorsOk;
    hide BlameOk;
    AddJobs(w.pool, w.subs, id, NewMarker(|sp.blocks|));
    AddSub(sp, w, id, NewMarker(|sp.blocks|));
    JoinBlame(sp.broken, w.subs, w.faults, id, NewMarker(|sp.blocks|));
  }

  /** A new submission carries no error yet. */
  lemma JoinBlame(broken: set<nat>, subs: map<nat, Submission>, faults: seq<Fault>, id: nat, s: Submission)
    requires BlameOk(broken, subs, faults) && id !in subs && s.error == 0 && s.link == s.origin
    ensures BlameOk(broken, subs[id := s], faults)
  {
    forall k | 0 <= k < |faults|
      ensures Explained(broken, subs[id := s], faults[k])
    {
      assert Explained(broken, subs, faults[k]);
      var j :| Explains(broken, subs, faults[k], j);
      assert Explains(broken, subs[id := s], faults[k], j);
    }
  }

  /** A submission that carries no error explains none. */
  lemma FreeBlame(broken: set<nat>, subs: map<nat, Submission>, faults: seq<Fault>, id: nat)
    requires BlameOk(broken, subs, faults) && id in subs && subs[id].error == 0
    ensures BlameOk(broken, subs - {id}, faults)
  {
    forall k | 0 <= k < |faults|
      ensures Explained(broken, subs - {id}, faults[k])
    {
      assert Explained(broken, subs, faults[k]);
      var j :| Explains(broken, subs, faults[k], j);
      assert Explains(broken, subs - {id}, faults[k], j);
    }
  }

  lemma AddSub(sp: Spec, w: World, id: nat, s: Submission)
    requires DataOk(sp, w.mem, w.subs) && ErrorsOk(sp, w.subs) && LinkOk(w.comps, w.subs)
    requires RefsOk(w.caller, w.comps, w.subs) && id !in w.subs
    requires SubOk(sp, w.mem, s) && ErrorOk(sp, id, s) && LentOk(w.comps, s) && s.link.NoLink?
    ensures DataOk(sp, w.mem, w.subs[id := s]) && ErrorsOk(sp, w.subs[id := s]) && LinkOk(w.comps, w.subs[id := s])
    ensures RefsOk(w.caller, w.comps, w.subs[id := s])
  {
    forall t | t in w.comps
      ensures |Holders(w.subs[id := s], t)| == |Holders(w.subs, t)|
    {
      HolderJoins(w.subs, id, s, t);
    }
  }

  lemma AddJobs(p: Pool, subs: map<nat, Submission>, id: nat, s: Submission)
    requires JobsOk(p, subs) && PhaseOk(p, subs) && id !in subs && s.completed && s.computed && s.link.NoLink?
    ensures JobsOk(p, subs[id := s]) && PhaseOk(p, subs[id := s])
  {
  }

  /** A completed submission can be freed: no queue, worker or update refers to it. */
  lemma FreeInv(sp: Spec, w: World, id: nat)
    requires Inv(sp, w) && id in w.subs && w.subs[id].completed && w.subs[id].error == 0
    ensures Inv(sp, Free(w, id))
    ensures Job(id) !in w.pool.queue && forall i :: 0 <= i < |w.pool.workers| ==> !Holds(w.pool.workers[i], id)
  {
    hide PoolOk, JobsOk, PhaseOk, DataOk, LinkOk, RefsOk, FireOk, TicketOk, FaultOk, NotifyOk, NoticeOk, ErrorsOk;
    hide BlameOk;
    FreeJobs(w.pool, w.subs, id);
    FreeSub(sp, w, id);
    FreeBlame(sp.broken, w.subs, w.faults, id);
  }

  lemma FreeSub(sp: Spec, w: World, id: nat)
    requires DataOk(sp, w.mem, w.subs) && ErrorsOk(sp, w.subs) && LinkOk(w.comps, w.subs)
    requires RefsOk(w.caller, w.comps, w.subs) && PhaseOk(w.pool, w.subs) && id in w.subs && w.subs[id].completed
    ensures DataOk(sp, w.mem, w.subs - {id}) && ErrorsOk(sp, w.subs - {id}) && LinkOk(w.comps, w.subs - {id})
    ensures RefsOk(w.caller, w.comps, w.subs - {id})
  {
    forall t | t in w.comps
      ensures Holders(w.subs - {id}, t) == Holders(w.subs, t)
    {
    }
  }

  lemma FreeJobs(p: Pool, subs: map<nat, Submission>, id: nat)
    requires JobsOk(p, subs) && PhaseOk(p, subs) && id in subs && subs[id].completed
    ensures JobsOk(p, subs - {id}) && PhaseOk(p, subs - {id})
    ensures Job(id) !in p.queue && forall i :: 0 <= i < |p.workers| ==> !Holds(p.workers[i], id)
  {
    var subs' := subs - {id};
    assert HeldCount(p, id) == 0;
    BusyMember(p.workers, id);
    forall j: nat
      ensures HeldCount(p, j) == One(j in subs' && !subs'[j].completed)
    {
      assert HeldCount(p, j) == One(j in subs && !subs[j].completed);
    }
    forall i | 0 <= i < |p.workers| && p.workers[i].Busy?
      ensures WorkerOk(subs', p.workers[i].job, p.workers[i].phase)
    {
      assert !Holds(p.workers[i], id);
      assert WorkerOk(subs, p.workers[i].job, p.workers[i].phase);
    }
  }

  // ---------------------------------------------------------------- room in the pool

  lemma {:induction false} QueuedAreHeld(p: Pool, subs: map<nat, Submission>, ids: set<nat>, k: nat)
    requires JobsOk(p, subs) && Stop !in p.queue && k <= |p.queue|
    requires forall id :: id in subs && !subs[id].completed ==> id in ids
    ensures var taken := set j | 0 <= j < k :: p.queue[j];
            |taken| == k && forall x :: x in taken ==> x.Job? && x.id in ids
  {
    hide JobsOk;
    var taken := set j | 0 <= j < k :: p.queue[j];
    if k > 0 {
      QueuedAreHeld(p, subs, ids, k - 1);
      var before := set j | 0 <= j < k - 1 :: p.queue[j];
      var last := p.queue[k - 1];
      QueuedIsHeld(p, subs, k - 1);
      assert taken == before + {last};
      forall j | 0 <= j < k - 1
        ensures p.queue[j] != last
      {
        QueueDistinct(p, subs, j, k - 1);
      }
    }
  }

  lemma QueuedIsHeld(p: Pool, subs: map<nat, Submission>, k: nat)
    requires JobsOk(p, subs) && Stop !in p.queue && k < |p.queue|
    ensures p.queue[k].Job? && p.queue[k].id in subs && !subs[p.queue[k].id].completed
  {
    assert p.queue[k] in p.queue;
    assert HeldCount(p, p.queue[k].id) >= 1;
  }

  lemma QueueDistinct(p: Pool, subs: map<nat, Submission>, j: nat, k: nat)
    requires JobsOk(p, subs) && Stop !in p.queue && j < k < |p.queue|
    ensures p.queue[j] != p.queue[k]
  {
    assert p.queue[j] in p.queue;
    assert HeldCount(p, p.queue[j].id) <= 1;
    if p.queue[j] == p.queue[k] {
      TwiceInQueue(p.queue, j, k);
    }
  }

  lemma TwiceInQueue(q: seq<Item>, j: nat, k: nat)
    requires j < k < |q| && q[j] == q[k]
    ensures multiset(q)[q[j]] >= 2
  {
    assert q == q[..k] + q[k..];
    assert q[..k][j] == q[j] && q[k..][0] == q[k];
    assert multiset(q) == multiset(q[..k]) + multiset(q[k..]);
    assert q[j] in multiset(q[..k]) && q[k] in multiset(q[k..]);
  }

  lemma {:induction false} ItemsBound(items: set<Item>, ids: set<nat>)
    requires forall x :: x in items ==> x.Job? && x.id in ids
    ensures |items| <= |ids|
    decreases |items|
  {
    if items != {} {
      var x :| x in items;
      ItemsBound(items - {x}, ids - {x.id});
      assert |ids - {x.id}| == |ids| - 1;
    }
  }

  /** The pool ring is never full at a submit: what it holds are distinct unfinished members of the
      equally large submission queue, and the new one is not among them. */
  lemma PoolHasRoom(sp: Spec, w: World, ids: set<nat>)
    requires Inv(sp, w) && |ids| < w.pool.size
    requires forall id :: id in w.subs && !w.subs[id].completed ==> id in ids
    ensures SubmitError(w.pool) == 0
  {
    QueuedAreHeld(w.pool, w.subs, ids, |w.pool.queue|);
    ItemsBound(set j | 0 <= j < |w.pool.queue| :: w.pool.queue[j], ids);
  }

  // ---------------------------------------------------------------- one asynchronous update

  /** The caller's own reference keeps the update alive while its submissions are created. */
  function BeginUpdate(w: World, ticket: nat, userData: nat, buf: nat): World {
    w.(comps := w.comps[ticket := Completion(1, 0, userData, buf)], caller := Holding(ticket))
  }

  function EndUpdate(w: World): World
    requires w.caller.Holding? && w.caller.ticket in w.comps && w.comps[w.caller.ticket].refs > 0
  {
    var t := w.caller.ticket;
    var c := w.comps[t].(refs := w.comps[t].refs - 1);
    w.(comps := w.comps[t := c], caller := if c.refs == 0 then CallerFiring(t) else Quiet)
  }

  /** The callback in the calling thread; the completion array has `depth` slots. */
  function CallerFire(w: World, depth: nat): World
    requires w.caller.CallerFiring? && w.caller.ticket in w.comps && |w.cq| < depth
  {
    var t := w.caller.ticket;
    w.(cq := w.cq + [Finished(w, t)], comps := w.comps - {t},
       caller := if w.cq == [] then CallerNotifying else Quiet)
  }

  function CallerNotify(w: World): World {
    w.(event := true, caller := Quiet)
  }

  ghost function Started(sp: Spec, userData: nat, buf: nat): Spec {
    sp.(issued := sp.issued + [Issue(userData, buf)], live := sp.live + {|sp.issued|})
  }

  lemma BeginTickets(sp: Spec, w: World, userData: nat, buf: nat)
    requires TicketOk(sp, w.comps, w.cq)
    ensures |sp.issued| !in w.comps && |sp.issued| !in Tickets(w.cq) && |sp.issued| !in sp.live
    ensures TicketOk(Started(sp, userData, buf),
                     w.comps[|sp.issued| := Completion(1, 0, userData, buf)], w.cq)
  {
  }

  lemma BeginRefs(w: World, t: nat, c: Completion)
    requires RefsOk(w.caller, w.comps, w.subs) && LinkOk(w.comps, w.subs)
    requires FireOk(w.pool.workers, w.caller, w.comps)
    requires w.caller.Quiet? && t !in w.comps && c.refs == 1
    ensures RefsOk(Holding(t), w.comps[t := c], w.subs) && LinkOk(w.comps[t := c], w.subs)
    ensures FireOk(w.pool.workers, Holding(t), w.comps[t := c])
  {
  }

  lemma BeginNotice(sp: Spec, w: World, userData: nat, buf: nat)
    requires NoticeOk(sp.issued, sp.live, w.pool.workers, w.caller, w.cq, w.event, w.draining) && w.caller.Quiet?
    requires NotifyOk(w.pool.workers, w.caller, w.cq, w.event || w.draining)
    requires FaultOk(w.comps, w.cq, w.faults) && FirstFault(w.faults, |sp.issued|) == 0
    ensures var sp', t := Started(sp, userData, buf), |sp.issued|;
            && NoticeOk(sp'.issued, sp'.live, w.pool.workers, Holding(t), w.cq, w.event, w.draining)
            && NotifyOk(w.pool.workers, Holding(t), w.cq, w.event || w.draining)
            && FaultOk(w.comps[t := Completion(1, 0, userData, buf)], w.cq, w.faults)
  {
    var sp' := Started(sp, userData, buf);
    if Untouched(sp'.issued, sp'.live) {
      forall t: nat | t < |sp.issued|
        ensures t in sp.live
      {
        assert t in sp'.live;
      }
    }
    assert SomeoneNotifies(w.pool.workers, Holding(|sp.issued|)) == SomeoneNotifies(w.pool.workers, w.caller);
  }

  lemma BeginUpdateInv(sp: Spec, w: World, userData: nat, buf: nat)
    requires Inv(sp, w) && w.caller.Quiet? && FirstFault(w.faults, |sp.issued|) == 0 && |sp.live| < sp.depth
    ensures Inv(Started(sp, userData, buf), BeginUpdate(w, |sp.issued|, userData, buf))
    ensures |sp.issued| !in sp.live
  {
    hide PoolOk, JobsOk, PhaseOk, DataOk, LinkOk, RefsOk, FireOk, TicketOk, FaultOk, NotifyOk, NoticeOk, ErrorsOk;
    hide BlameOk;
    BeginTickets(sp, w, userData, buf);
    BeginRefs(w, |sp.issued|, Completion(1, 0, userData, buf));
    BeginNotice(sp, w, userData, buf);
    SameBlocks(sp, Started(sp, userData, buf), w.mem, w.subs);
  }

  lemma EndUpdateInv(sp: Spec, w: World)
    requires Inv(sp, w) && w.caller.Holding?
    ensures w.caller.ticket in w.comps && w.comps[w.caller.ticket].refs > 0
    ensures Inv(sp, EndUpdate(w))
  {
    hide PoolOk, JobsOk, PhaseOk, DataOk, LinkOk, RefsOk, FireOk, TicketOk, FaultOk, NotifyOk, NoticeOk, ErrorsOk;
    hide BlameOk;
    var t := w.caller.ticket;
    EndComps(sp, w, t);
    EndFire(w.pool.workers, w.comps, t);
    SilentCaller(sp, w, EndUpdate(w).caller);
  }

  /** A caller that is not about to signal may become another that is not. */
  lemma SilentCaller(sp: Spec, w: World, caller: Caller)
    requires !w.caller.CallerNotifying? && !caller.CallerNotifying?
    requires NoticeOk(sp.issued, sp.live, w.pool.workers, w.caller, w.cq, w.event, w.draining)
    requires NotifyOk(w.pool.workers, w.caller, w.cq, w.event || w.draining)
    ensures NoticeOk(sp.issued, sp.live, w.pool.workers, caller, w.cq, w.event, w.draining)
    ensures NotifyOk(w.pool.workers, caller, w.cq, w.event || w.draining)
  {
    assert SomeoneNotifies(w.pool.workers, caller) == SomeoneNotifies(w.pool.workers, w.caller);
  }

  lemma EndComps(sp: Spec, w: World, t: nat)
    requires RefsOk(w.caller, w.comps, w.subs) && LinkOk(w.comps, w.subs)
    requires TicketOk(sp, w.comps, w.cq) && FaultOk(w.comps, w.cq, w.faults)
    requires w.caller == Holding(t)
    ensures t in w.comps && w.comps[t].refs > 0
    ensures var c := w.comps[t].(refs := w.comps[t].refs - 1);
            var comps' := w.comps[t := c];
            && RefsOk(if c.refs == 0 then CallerFiring(t) else Quiet, comps', w.subs) && LinkOk(comps', w.subs)
            && TicketOk(sp, comps', w.cq) && FaultOk(comps', w.cq, w.faults)
  {
  }

  lemma EndFire(ws: seq<Worker>, comps: map<nat, Completion>, t: nat)
    requires FireOk(ws, Holding(t), comps) && t in comps && comps[t].refs > 0
    ensures var c := comps[t].(refs := comps[t].refs - 1);
            FireOk(ws, if c.refs == 0 then CallerFiring(t) else Quiet, comps[t := c])
  {
  }

  lemma CallerFireComps(sp: Spec, w: World, caller': Caller)
    requires LinkOk(w.comps, w.subs) && RefsOk(w.caller, w.comps, w.subs)
    requires FireOk(w.pool.workers, w.caller, w.comps) && w.caller.CallerFiring?
    requires TicketOk(sp, w.comps, w.cq) && FaultOk(w.comps, w.cq, w.faults)
    requires caller'.Quiet? || caller'.CallerNotifying?
    ensures w.caller.ticket in w.comps
    ensures var t := w.caller.ticket;
            && LinkOk(w.comps - {t}, w.subs) && RefsOk(caller', w.comps - {t}, w.subs)
            && FireOk(w.pool.workers, caller', w.comps - {t})
            && TicketOk(sp, w.comps - {t}, w.cq + [Finished(w, t)])
            && FaultOk(w.comps - {t}, w.cq + [Finished(w, t)], w.faults)
  {
    var t := w.caller.ticket;
    Unreferenced(w.caller, w.comps, w.subs, t);
    RecordTickets(sp, w, t);
    forall u | u in w.comps - {t} && w.comps[u].refs == 0
      ensures SomeoneFires(w.pool.workers, caller', u)
    {
      assert SomeoneFires(w.pool.workers, w.caller, u);
    }
  }

  lemma CallerFireInv(sp: Spec, w: World)
    requires Inv(sp, w) && w.caller.CallerFiring?
    ensures w.caller.ticket in w.comps && |w.cq| < sp.depth
    ensures Inv(sp, CallerFire(w, sp.depth))
  {
    hide PoolOk, JobsOk, PhaseOk, DataOk, LinkOk, RefsOk, FireOk, TicketOk, FaultOk, NotifyOk, NoticeOk, ErrorsOk;
    hide BlameOk;
    var caller' := if w.cq == [] then CallerNotifying else Quiet;
    CallerFireComps(sp, w, caller');
    RecordFits(sp, w, w.caller.ticket);
    CallerNotice(sp, w, caller', Finished(w, w.caller.ticket));
  }

  lemma CallerNotice(sp: Spec, w: World, caller: Caller, r: Record)
    requires !w.caller.CallerNotifying? && caller == if w.cq == [] then CallerNotifying else Quiet
    requires NoticeOk(sp.issued, sp.live, w.pool.workers, w.caller, w.cq, w.event, w.draining)
    requires NotifyOk(w.pool.workers, w.caller, w.cq, w.event || w.draining)
    ensures NoticeOk(sp.issued, sp.live, w.pool.workers, caller, w.cq + [r], w.event, w.draining)
    ensures NotifyOk(w.pool.workers, caller, w.cq + [r], w.event || w.draining)
  {
    if w.cq != [] {
      assert SomeoneNotifies(w.pool.workers, caller) == SomeoneNotifies(w.pool.workers, w.caller);
    }
  }

  lemma CallerNotifyInv(sp: Spec, w: World)
    requires Inv(sp, w) && w.caller.CallerNotifying?
    ensures Inv(sp, CallerNotify(w))
  {
    hide PoolOk, JobsOk, PhaseOk, DataOk, LinkOk, RefsOk, FireOk, TicketOk, FaultOk, NotifyOk, NoticeOk, ErrorsOk;
    hide BlameOk;
    StillFires(w.pool.workers, w.comps, w.caller, Quiet);
    QuietRefs(w, Quiet);
    SignalNotice(sp, w);
  }

  lemma SignalNotice(sp: Spec, w: World)
    requires NoticeOk(sp.issued, sp.live, w.pool.workers, w.caller, w.cq, w.event, w.draining)
    requires w.caller.CallerNotifying?
    ensures NoticeOk(sp.issued, sp.live, w.pool.workers, Quiet, w.cq, true, w.draining)
    ensures NotifyOk(w.pool.workers, Quiet, w.cq, true)
  {
  }

  lemma QuietRefs(w: World, caller: Caller)
    requires RefsOk(w.caller, w.comps, w.subs) && !w.caller.Holding? && !caller.Holding?
    ensures RefsOk(caller, w.comps, w.subs)
  {
  }

  // ---------------------------------------------------------------- delivering records

  /** The application read the completion descriptor. */
  function ReadEvent(w: World): World {
    if w.event then w.(event := false, draining := true) else w
  }

  function TakeCount(w: World, count: nat): nat {
    if count < |w.cq| then count else |w.cq|
  }

  /** Take up to `count` records; leftovers are announced again, but only if something was taken. */
  function TakeRecords(w: World, count: nat): World {
    var n := TakeCount(w, count);
    var w' := w.(cq := w.cq[n..], draining := w.draining && count == 0);
    if n > 0 && w'.cq != [] then w'.(caller := CallerNotifying) else w'
  }

  ghost function Delivered(sp: Spec, w: World, count: nat): Spec {
    sp.(live := sp.live - Tickets(w.cq[..TakeCount(w, count)]))
  }

  lemma ReadNotice(sp: Spec, w: World)
    requires NoticeOk(sp.issued, sp.live, w.pool.workers, w.caller, w.cq, w.event, w.draining)
    ensures w.event ==> NoticeOk(sp.issued, sp.live, w.pool.workers, w.caller, w.cq, false, true)
  {
  }

  lemma ReadEventInv(sp: Spec, w: World)
    requires Inv(sp, w)
    ensures Inv(sp, ReadEvent(w))
  {
    ReadNotice(sp, w);
    hide PoolOk, JobsOk, PhaseOk, DataOk, LinkOk, RefsOk, FireOk, TicketOk, FaultOk, NotifyOk, NoticeOk, ErrorsOk;
    hide BlameOk;
  }

  lemma TicketsSplit(cq: seq<Record>, n: nat)
    requires n <= |cq|
    requires forall j, k :: 0 <= j < k < |cq| ==> cq[j].ticket != cq[k].ticket
    ensures Tickets(cq) == Tickets(cq[..n]) + Tickets(cq[n..])
    ensures Tickets(cq[..n]) !! Tickets(cq[n..])
  {
  }

  lemma TakeTickets(sp: Spec, w: World, count: nat)
    requires TicketOk(sp, w.comps, w.cq) && FaultOk(w.comps, w.cq, w.faults)
    ensures var w' := TakeRecords(w, count);
            TicketOk(Delivered(sp, w, count), w'.comps, w'.cq) && FaultOk(w'.comps, w'.cq, w'.faults)
  {
    var n := TakeCount(w, count);
    var sp', cq' := Delivered(sp, w, count), w.cq[n..];
    TicketsSplit(w.cq, n);
    assert w.comps.Keys + Tickets(cq') == sp'.live;
  }

  /** A caller that holds nothing may turn into one about to signal. */
  lemma StillFires(ws: seq<Worker>, comps: map<nat, Completion>, caller: Caller, caller': Caller)
    requires FireOk(ws, caller, comps) && !caller.CallerFiring? && !caller'.CallerFiring?
    ensures FireOk(ws, caller', comps)
  {
  }

  lemma TakeNotify(w: World, count: nat)
    requires NotifyOk(w.pool.workers, w.caller, w.cq, w.event || w.draining) && w.caller.Quiet?
    ensures var w' := TakeRecords(w, count);
            NotifyOk(w'.pool.workers, w'.caller, w'.cq, w'.event || w'.draining)
  {
  }

  lemma TakeNotice(sp: Spec, w: World, count: nat)
    requires NoticeOk(sp.issued, sp.live, w.pool.workers, w.caller, w.cq, w.event, w.draining) && w.caller.Quiet?
    requires TicketOk(sp, w.comps, w.cq)
    ensures var sp', w' := Delivered(sp, w, count), TakeRecords(w, count);
            NoticeOk(sp'.issued, sp'.live, w'.pool.workers, w'.caller, w'.cq, w'.event, w'.draining)
  {
    var n, live' := TakeCount(w, count), Delivered(sp, w, count).live;
    if n > 0 {
      var t := w.cq[..n][0].ticket;
      assert t in Tickets(w.cq[..n]) && w.cq[0].ticket in Tickets(w.cq);
      assert t < |sp.issued| && t !in live';
    } else {
      assert live' == sp.live && w.cq[0..] == w.cq;
    }
  }

  lemma TakeRecordsInv(sp: Spec, w: World, count: nat)
    requires Inv(sp, w) && w.caller.Quiet?
    ensures Inv(Delivered(sp, w, count), TakeRecords(w, count))
  {
    hide PoolOk, JobsOk, PhaseOk, DataOk, LinkOk, RefsOk, FireOk, TicketOk, FaultOk, NotifyOk, NoticeOk, ErrorsOk;
    hide BlameOk;
    TakeTickets(sp, w, count);
    SameBlocks(sp, Delivered(sp, w, count), w.mem, w.subs);
    QuietRefs(w, TakeRecords(w, count).caller);
    TakeNotify(w, count);
    TakeNotice(sp, w, count);
    TakeFrees(sp, w, count);
    StillFires(w.pool.workers, w.comps, w.caller, TakeRecords(w, count).caller);
  }

  /** Records are queued, the descriptor is silent, and nobody is about to signal it. */
  ghost predicate Lost(w: World) {
    w.cq != [] && !w.event && !SomeoneNotifies(w.pool.workers, w.caller)
  }

  /** A consumer that has not just read the descriptor has not lost anything. */
  lemma NothingLost(sp: Spec, w: World)
    requires Inv(sp, w) && !w.draining
    ensures !Lost(w)
  {
  }

  /** The step that takes records leaves an announcement lost exactly when it is to take none. */
  lemma TakeKeepsNotice(w: World, count: nat)
    requires w.caller.Quiet?
    ensures Lost(TakeRecords(w, count)) <==> Lost(w) && count == 0
  {
  }

  /** No worker makes up for a lost announcement: producers signal only when the array was empty. */
  lemma LossLasts(sp: Spec, w: World, i: nat)
    requires Inv(sp, w) && Lost(w) && i < |w.pool.workers|
    ensures Runnable(sp.bs, sp.depth, w, i) && Lost(RunWorker(sp.D, sp.fails, sp.bs, sp.depth, w, i))
  {
    hide Inv, Runnable, RunWorker, Rely;
    RunWorkerInv(sp, w, i);
    LossStep(sp.D, sp.fails, sp.bs, sp.depth, w, i);
  }

  lemma LossStep(D: seq<byte> -> seq<byte>, fails: nat -> nat, bs: nat, depth: nat, w: World, i: nat)
    requires Runnable(bs, depth, w, i) && Lost(w)
    ensures Lost(RunWorker(D, fails, bs, depth, w, i))
  {
    var w' := RunWorker(D, fails, bs, depth, w, i);
    assert !Notifies(w.pool.workers[i]);
    QuietStep(D, fails, bs, depth, w, i);
    forall j | 0 <= j < |w'.pool.workers|
      ensures !Notifies(w'.pool.workers[j])
    {
      assert j != i ==> w'.pool.workers[j] == w.pool.workers[j];
    }
  }

  /** Nor does a worker lose an announcement: the one that queues the first record signals it. */
  lemma NoLossStep(D: seq<byte> -> seq<byte>, fails: nat -> nat, bs: nat, depth: nat, w: World, i: nat)
    requires Runnable(bs, depth, w, i) && !Lost(w)
    ensures !Lost(RunWorker(D, fails, bs, depth, w, i))
  {
    hide RunWorker;
    var w' := RunWorker(D, fails, bs, depth, w, i);
    if Notifies(w.pool.workers[i]) {
      SignalStep(D, fails, bs, depth, w, i);
    } else {
      QuietStep(D, fails, bs, depth, w, i);
      if j :| 0 <= j < |w.pool.workers| && Notifies(w.pool.workers[j]) {
        assert Notifies(w'.pool.workers[j]);
      }
    }
  }

  lemma SignalStep(D: seq<byte> -> seq<byte>, fails: nat -> nat, bs: nat, depth: nat, w: World, i: nat)
    requires Runnable(bs, depth, w, i) && Notifies(w.pool.workers[i])
    ensures RunWorker(D, fails, bs, depth, w, i).event
  {
  }

  /** The workers neither lose an announcement nor make up for a lost one. */
  lemma LossKept(sp: Spec, w: World, i: nat)
    requires Inv(sp, w) && i < |w.pool.workers|
    ensures Runnable(sp.bs, sp.depth, w, i) && (Lost(RunWorker(sp.D, sp.fails, sp.bs, sp.depth, w, i)) <==> Lost(w))
  {
    hide Inv, Runnable, RunWorker, Rely, Lost;
    RunWorkerInv(sp, w, i);
    if Lost(w) {
      LossLasts(sp, w, i);
    } else {
      NoLossStep(sp.D, sp.fails, sp.bs, sp.depth, w, i);
    }
  }

  /** A worker that is not about to signal changes no other worker, no event and not the caller, and is about to
      signal afterwards exactly when it queued the first record. */
  lemma QuietStep(D: seq<byte> -> seq<byte>, fails: nat -> nat, bs: nat, depth: nat, w: World, i: nat)
    requires Runnable(bs, depth, w, i) && !Notifies(w.pool.workers[i])
    ensures QuietlyBy(w, RunWorker(D, fails, bs, depth, w, i), i)
  {
    hide Result, Content, Compute, Unref, Fire;
    match w.pool.workers[i]
    case Busy(_, Got) => QuietCompute(D, bs, w, i, fails(w.pool.workers[i].job));
    case Busy(_, Computed) => QuietUnref(w, i);
    case Busy(_, Firing(_)) => QuietFire(w, i);
    case _ =>
  }

  ghost predicate QuietlyBy(w: World, w': World, i: nat) {
    && |w'.pool.workers| == |w.pool.workers| && w'.caller == w.caller && w'.event == w.event && w.cq <= w'.cq
    && i < |w.pool.workers| && w'.pool.workers == w.pool.workers[i := w'.pool.workers[i]]
    && (Notifies(w'.pool.workers[i]) <==> w.cq == [] && w'.cq != [])
  }

  lemma QuietUnref(w: World, i: nat)
    requires BusyWith(w, i, Computed)
    requires var s := w.subs[Handling(w, i)];
             s.link.Link? ==> s.link.ticket in w.comps && w.comps[s.link.ticket].refs > 0
    ensures QuietlyBy(w, Unref(w, i), i)
  {
  }

  lemma QuietFire(w: World, i: nat)
    requires i < |w.pool.workers| && w.pool.workers[i].Busy? && w.pool.workers[i].phase.Firing?
    requires w.pool.workers[i].phase.ticket in w.comps
    ensures QuietlyBy(w, Fire(w, i), i)
  {
  }

  lemma QuietCompute(D: seq<byte> -> seq<byte>, bs: nat, w: World, i: nat, err: nat)
    requires bs >= 16 && BusyWith(w, i, Got)
    requires var s := w.subs[Handling(w, i)]; s.link.Link? ==> s.link.ticket in w.comps
    ensures var w' := Compute(D, bs, w, i, err);
            && w'.pool == Enter(w.pool, i, Computed) && w'.caller == w.caller && w'.event == w.event && w'.cq == w.cq
  {
    hide Result, Content;
  }

  /** The workers named in `steps` take one step each. */
  ghost function RunAll(sp: Spec, w: World, steps: seq<nat>): World
    requires Inv(sp, w) && forall k :: 0 <= k < |steps| ==> steps[k] < |w.pool.workers|
    decreases |steps|
  {
    if steps == [] then w
    else
      RunWorkerInv(sp, w, steps[0]);
      RunAll(sp, RunWorker(sp.D, sp.fails, sp.bs, sp.depth, w, steps[0]), steps[1..])
  }

  /** Whatever the workers do, in any order and for any length of time, the descriptor stays silent. */
  lemma {:induction false} LostForever(sp: Spec, w: World, steps: seq<nat>)
    requires Inv(sp, w) && Lost(w) && forall k :: 0 <= k < |steps| ==> steps[k] < |w.pool.workers|
    ensures Lost(RunAll(sp, w, steps)) && !RunAll(sp, w, steps).event
    decreases |steps|
  {
    hide Inv, Lost;
    if steps != [] {
      RunWorkerInv(sp, w, steps[0]);
      LossLasts(sp, w, steps[0]);
      LostForever(sp, RunWorker(sp.D, sp.fails, sp.bs, sp.depth, w, steps[0]), steps[1..]);
    }
    LostIsSilent(RunAll(sp, w, steps));
  }

  lemma LostIsSilent(w: World)
    ensures Lost(w) ==> !w.event
  {
  }

  // ---------------------------------------------------------------- application memory

  function UserWrite(w: World, buf: nat, content: seq<byte>): World {
    w.(mem := w.mem[buf := content])
  }

  lemma UnreadBuffer(sp: Spec, w: World, buf: nat, content: seq<byte>)
    requires DataOk(sp, w.mem, w.subs) && LinkOk(w.comps, w.subs) && TicketOk(sp, w.comps, w.cq)
    requires forall t :: t in sp.live && t < |sp.issued| ==> sp.issued[t].buf != buf
    ensures DataOk(sp, w.mem[buf := content], w.subs)
    ensures forall id :: id in w.subs && !w.subs[id].computed && w.subs[id].data.User? ==> w.subs[id].data.buf != buf
  {
  }

  /** A buffer that no undelivered update was lent can be overwritten: nothing reads it any more. */
  lemma UserWriteInv(sp: Spec, w: World, buf: nat, content: seq<byte>)
    requires Inv(sp, w)
    requires forall t :: t in sp.live && t < |sp.issued| ==> sp.issued[t].buf != buf
    ensures Inv(sp, UserWrite(w, buf, content))
    ensures forall id :: id in w.subs && !w.subs[id].computed && w.subs[id].data.User? ==> w.subs[id].data.buf != buf
  {
    UnreadBuffer(sp, w, buf, content);
    hide PoolOk, JobsOk, PhaseOk, DataOk, LinkOk, RefsOk, FireOk, TicketOk, FaultOk, NotifyOk, NoticeOk, ErrorsOk;
    hide BlameOk;
  }

  /** A submission seen completed is out of everybody's hands, and its result is stored: it may be read and freed. */
  lemma CompletedIsReleased(sp: Spec, w: World, id: nat)
    requires Inv(sp, w) && id in w.subs && w.subs[id].completed
    ensures w.subs[id].computed && Job(id) !in w.pool.queue
    ensures forall i :: 0 <= i < |w.pool.workers| ==> !Holds(w.pool.workers[i], id)
  {
    BusyMember(w.pool.workers, id);
    assert HeldCount(w.pool, id) == 0;
  }

  /** A record is queued only when every submission of its update is through with it. */
  lemma RecordIsLast(sp: Spec, w: World, k: nat)
    requires Inv(sp, w) && k < |w.cq|
    ensures Holders(w.subs, w.cq[k].ticket) == {}
    ensures forall id :: id in w.subs && !w.subs[id].computed && w.subs[id].data.User? ==>
              w.subs[id].link.Link? && w.subs[id].link.ticket != w.cq[k].ticket
  {
  }

  // ---------------------------------------------------------------- the error of a record

  /** The call that started the update met a submission that failed, and tells the update. */
  lemma BreakInv(sp: Spec, w: World, t: nat, id: nat)
    requires Inv(sp, w) && t in w.comps && id in w.subs && w.subs[id].completed && w.subs[id].error != 0
    ensures var w' := SetFault(w, t, w.subs[id].error); Inv(sp.(broken := sp.broken + {t}), w') && Rely(w, w')
  {
    hide PoolOk, JobsOk, PhaseOk, DataOk, LinkOk, RefsOk, FireOk, TicketOk, FaultOk, NotifyOk, NoticeOk, ErrorsOk;
    hide BlameOk, SetFault;
    var e, sp' := w.subs[id].error, sp.(broken := sp.broken + {t});
    SetFaultInv(sp, w, t, e);
    BreakBase(sp, SetFault(w, t, e), sp');
    BreakBlame(sp.broken, w.pool, w.subs, w.faults, t, id);
    SetFaultParts(w, t, e);
  }

  lemma BreakBase(sp: Spec, w: World, sp': Spec)
    requires Base(sp, w) && sp' == sp.(broken := sp'.broken)
    ensures Base(sp', w)
  {
    hide PoolOk, JobsOk, PhaseOk, DataOk, LinkOk, RefsOk, FireOk, TicketOk, FaultOk, NotifyOk, NoticeOk, ErrorsOk;
    SameBlocks(sp, sp', w.mem, w.subs);
    SameUpdates(sp, sp', w.comps, w.cq);
  }

  lemma SetFaultParts(w: World, t: nat, e: nat)
    requires t in w.comps
    ensures SetFault(w, t, e).subs == w.subs && SetFault(w, t, e).faults == w.faults + [Fault(t, e)]
  {
  }

  lemma BreakBlame(broken: set<nat>, p: Pool, subs: map<nat, Submission>, faults: seq<Fault>, t: nat, id: nat)
    requires BlameOk(broken, subs, faults) && PhaseOk(p, subs)
    requires id in subs && subs[id].completed && subs[id].error != 0
    ensures BlameOk(broken + {t}, subs, faults + [Fault(t, subs[id].error)])
  {
    forall k | 0 <= k < |faults|
      ensures Explained(broken + {t}, subs, faults[k])
    {
      assert Explained(broken, subs, faults[k]);
      var j :| Explains(broken, subs, faults[k], j);
      assert Explains(broken + {t}, subs, faults[k], j);
    }
    assert Heard(subs[id], faults);
    assert Explains(broken + {t}, subs, Fault(t, subs[id].error), id);
    AddBlame(broken + {t}, subs, faults, Fault(t, subs[id].error), id);
  }

  lemma {:induction false} FaultFound(faults: seq<Fault>, t: nat)
    requires FirstFault(faults, t) != 0
    ensures exists k :: 0 <= k < |faults| && faults[k] == Fault(t, FirstFault(faults, t))
  {
    var init := faults[..|faults| - 1];
    if FirstFault(init, t) != 0 {
      FaultFound(init, t);
      var k :| 0 <= k < |init| && init[k] == Fault(t, FirstFault(init, t));
      assert faults[k] == Fault(t, FirstFault(faults, t));
    } else {
      assert faults[|faults| - 1] == Fault(t, FirstFault(faults, t));
    }
  }

  /** Submission `id` was made for update `t`, and its digest fails. */
  ghost predicate Afflicts(sp: Spec, subs: map<nat, Submission>, t: nat, id: nat) {
    id in subs && subs[id].origin == Link(t) && Due(sp, id, subs[id]) != 0
  }

  ghost predicate Afflicted(sp: Spec, subs: map<nat, Submission>, t: nat) {
    t in sp.broken || exists id :: Afflicts(sp, subs, t, id)
  }

  /** Submission `id` is doomed to error `e`, and update `t` has to hear of it. */
  ghost predicate Accounts(sp: Spec, subs: map<nat, Submission>, t: nat, e: nat, id: nat) {
    id in subs && Due(sp, id, subs[id]) == e && (subs[id].origin == Link(t) || t in sp.broken)
  }

  /** An update that is finished carries an error exactly when a digest of its own failed or its call did, and the
      error is one of those. */
  lemma FaultExactly(sp: Spec, w: World, t: nat)
    requires Inv(sp, w) && t !in w.comps
    ensures FirstFault(w.faults, t) != 0 <==> Afflicted(sp, w.subs, t)
    ensures var e := FirstFault(w.faults, t); e != 0 ==> exists id :: Accounts(sp, w.subs, t, e, id)
  {
    hide PoolOk, JobsOk, PhaseOk, DataOk, RefsOk, FireOk, TicketOk, FaultOk, NotifyOk, NoticeOk, FirstFault;
    if FirstFault(w.faults, t) != 0 {
      FaultFound(w.faults, t);
      var k :| 0 <= k < |w.faults| && w.faults[k] == Fault(t, FirstFault(w.faults, t));
      assert Explained(sp.broken, w.subs, w.faults[k]);
      var id :| Explains(sp.broken, w.subs, w.faults[k], id);
      assert ErrorOk(sp, id, w.subs[id]);
      assert Accounts(sp, w.subs, t, FirstFault(w.faults, t), id);
      assert t !in sp.broken ==> Afflicts(sp, w.subs, t, id);
    } else if t !in sp.broken {
      forall id | id in w.subs && w.subs[id].origin == Link(t)
        ensures !Afflicts(sp, w.subs, t, id)
      {
        assert Heard(w.subs[id], w.faults) && LentOk(w.comps, w.subs[id]) && ErrorOk(sp, id, w.subs[id]);
      }
    }
  }

  /** The records come off the front of the queue in order, and all of them unless fewer were asked for. */
  lemma TakeEffect(w: World, count: nat)
    requires w.caller.Quiet?
    ensures var n, w' := TakeCount(w, count), TakeRecords(w, count);
            && n <= |w.cq| && w.cq == w.cq[..n] + w'.cq && n <= count && (n == |w.cq| || n == count)
            && w'.mem == w.mem && w'.pool == w.pool && w'.faults == w.faults && Effort(w') == Effort(w)
            && w'.subs == w.subs && w'.draining == (w.draining && count == 0)
            && (w'.caller.Quiet? || (w'.caller.CallerNotifying? && n > 0))
  {
  }

  /** Taking records frees exactly as many slots as there are records. */
  lemma TakeFrees(sp: Spec, w: World, count: nat)
    requires Inv(sp, w)
    ensures TakeCount(w, count) <= |sp.live| && |Delivered(sp, w, count).live| == |sp.live| - TakeCount(w, count)
  {
    var n := TakeCount(w, count);
    var taken := Tickets(w.cq[..n]);
    TicketsSplit(w.cq, n);
    TicketsSize(w.cq[..n]);
    assert taken <= sp.live;
    assert |sp.live - taken| == |sp.live| - |taken|;
  }
}
