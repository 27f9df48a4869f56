/** Every step of a worker keeps the invariant of the shared state and what the caller relies on. */
module SharedSteps {
  import opened Streams
  import opened ZeroDetect
  import opened Pools
  import opened Shared

  // ---------------------------------------------------------------- one member of the invariant

  lemma SubAt(sp: Spec, w: World, id: nat)
    requires DataOk(sp, w.mem, w.subs) && ErrorsOk(sp, w.subs) && LinkOk(w.comps, w.subs) && id in w.subs
    ensures SubOk(sp, w.mem, w.subs[id]) && ErrorOk(sp, id, w.subs[id]) && LentOk(w.comps, w.subs[id])
  {
  }

  lemma WorkerAt(p: Pool, subs: map<nat, Submission>, i: nat)
    requires PhaseOk(p, subs) && i < |p.workers| && p.workers[i].Busy?
    ensures WorkerOk(subs, p.workers[i].job, p.workers[i].phase)
  {
  }

  lemma FiresAt(ws: seq<Worker>, i: nat, t: nat, caller: Caller, comps: map<nat, Completion>)
    requires FireOk(ws, caller, comps) && i < |ws| && Fires(ws[i], t)
    ensures t in comps
  {
  }

  lemma HeldAt(caller: Caller, comps: map<nat, Completion>, subs: map<nat, Submission>)
    requires RefsOk(caller, comps, subs) && caller.Holding?
    ensures caller.ticket in comps
  {
  }

  lemma ReplaceErrors(sp: Spec, subs: map<nat, Submission>, id: nat, s: Submission)
    requires ErrorsOk(sp, subs) && ErrorOk(sp, id, s)
    ensures ErrorsOk(sp, subs[id := s])
  {
  }

  lemma Unsound(fails: nat -> nat, id: nat)
    requires fails(id) != 0
    ensures !Sound(fails)
  {
  }

  // ---------------------------------------------------------------- moves inside the pool

  lemma EnterPool(p: Pool, i: nat, f: Phase)
    requires PoolOk(p) && i < |p.workers| && p.workers[i].Busy?
    ensures PoolOk(Enter(p, i, f))
  {
    ActiveWakeful(p, i, Busy(p.workers[i].job, f));
  }

  lemma EnterWork(p: Pool, i: nat, f: Phase)
    requires i < |p.workers| && p.workers[i].Busy? && PhaseWork(f) < PhaseWork(p.workers[i].phase)
    ensures Work(Enter(p, i, f)) < Work(p)
  {
    WorkUpdate(p.workers, i, Busy(p.workers[i].job, f));
  }

  /** A change of phase leaves every job where it is. */
  lemma EnterJobs(p: Pool, subs: map<nat, Submission>, subs': map<nat, Submission>, i: nat, f: Phase)
    requires JobsOk(p, subs) && i < |p.workers| && p.workers[i].Busy?
    requires subs'.Keys == subs.Keys && forall id :: id in subs ==> subs'[id].completed == subs[id].completed
    ensures JobsOk(Enter(p, i, f), subs')
  {
    forall id: nat
      ensures HeldCount(Enter(p, i, f), id) == One(id in subs' && !subs'[id].completed)
    {
      BecomeHeld(p, i, Busy(p.workers[i].job, f), id);
    }
  }

  /** The submission a worker handles is not queued and no other worker has it. */
  lemma HandledAlone(p: Pool, subs: map<nat, Submission>, i: nat)
    requires JobsOk(p, subs) && i < |p.workers| && p.workers[i].Busy?
    ensures Job(p.workers[i].job) !in p.queue
    ensures forall j :: 0 <= j < |p.workers| && j != i ==> !Holds(p.workers[j], p.workers[i].job)
  {
    assert HeldCount(p, p.workers[i].job) <= 1;
    SoleHolder(p, i);
  }

  /** A worker may change its submission as long as its new phase fits. */
  lemma EnterPhase(p: Pool, subs: map<nat, Submission>, i: nat, s: Submission, f: Phase)
    requires JobsOk(p, subs) && PhaseOk(p, subs) && i < |p.workers| && p.workers[i].Busy?
    requires !s.completed && WorkerOk(subs[p.workers[i].job := s], p.workers[i].job, f)
    ensures PhaseOk(Enter(p, i, f), subs[p.workers[i].job := s])
  {
    HandledAlone(p, subs, i);
    var id, p', subs' := p.workers[i].job, Enter(p, i, f), subs[p.workers[i].job := s];
    forall j | 0 <= j < |p'.workers| && p'.workers[j].Busy?
      ensures WorkerOk(subs', p'.workers[j].job, p'.workers[j].phase)
    {
      if j != i {
        assert !Holds(p.workers[j], id);
        assert WorkerOk(subs, p.workers[j].job, p.workers[j].phase);
      }
    }
  }

  lemma NoFireNoNotify(ws: seq<Worker>, i: nat, v: Worker, caller: Caller, comps: map<nat, Completion>)
    requires i < |ws| && FireOk(ws, caller, comps)
    requires forall t: nat :: !Fires(ws[i], t) && !Fires(v, t)
    ensures FireOk(ws[i := v], caller, comps)
  {
    var ws' := ws[i := v];
    forall t | t in comps && comps[t].refs == 0
      ensures SomeoneFires(ws', caller, t)
    {
      assert SomeoneFires(ws, caller, t);
      if caller != CallerFiring(t) {
        var j :| 0 <= j < |ws| && Fires(ws[j], t);
        assert Fires(ws'[j], t);
      }
    }
  }

  lemma KeepsNotifying(ws: seq<Worker>, i: nat, v: Worker, caller: Caller, cq: seq<Record>, announced: bool)
    requires i < |ws| && NotifyOk(ws, caller, cq, announced) && !Notifies(ws[i])
    ensures NotifyOk(ws[i := v], caller, cq, announced)
  {
    if j :| 0 <= j < |ws| && Notifies(ws[j]) {
      assert Notifies(ws[i := v][j]);
    }
  }

  lemma KeepsNotice(ws: seq<Worker>, i: nat, v: Worker, caller: Caller, cq: seq<Record>, event: bool, draining: bool)
    requires i < |ws| && FirstNotice(ws, caller, cq, event, draining) && !Notifies(v)
    ensures FirstNotice(ws[i := v], caller, cq, event, draining)
  {
    var ws' := ws[i := v];
    if j :| 0 <= j < |ws'| && Notifies(ws'[j]) {
      assert Notifies(ws[j]);
    }
  }

  lemma QuietMove(sp: Spec, w: World, i: nat, v: Worker)
    requires Inv(sp, w) && i < |w.pool.workers| && !Notifies(v)
    ensures NoticeOk(sp.issued, sp.live, w.pool.workers[i := v], w.caller, w.cq, w.event, w.draining)
  {
    if Untouched(sp.issued, sp.live) {
      KeepsNotice(w.pool.workers, i, v, w.caller, w.cq, w.event, w.draining);
    }
  }

  // ---------------------------------------------------------------- start, take, wake up

  /** The worker handles nothing and goes to sleep, wakes up, or takes the head of the queue. */
  lemma PoolMove(sp: Spec, w: World, p: Pool, i: nat)
    requires Inv(sp, w) && i < |w.pool.workers| && !w.pool.workers[i].Busy?
    requires |p.workers| == |w.pool.workers| && p.workers == w.pool.workers[i := p.workers[i]]
    requires p.workers[i].Busy? ==> p.workers[i].phase.Got?
    requires PoolOk(p) && JobsOk(p, w.subs) && PhaseOk(p, w.subs)
    requires p.size == w.pool.size && Work(p) <= Work(w.pool)
    ensures Inv(sp, w.(pool := p)) && Rely(w, w.(pool := p))
  {
    hide PoolOk, JobsOk, PhaseOk, DataOk, LinkOk, RefsOk, FireOk, TicketOk, FaultOk, NotifyOk, NoticeOk, ErrorsOk;
    hide BlameOk;
    NoFireNoNotify(w.pool.workers, i, p.workers[i], w.caller, w.comps);
    KeepsNotifying(w.pool.workers, i, p.workers[i], w.caller, w.cq, w.event || w.draining);
    QuietMove(sp, w, i, p.workers[i]);
  }

  lemma StartInv(sp: Spec, w: World, i: nat)
    requires Inv(sp, w) && i < |w.pool.workers| && w.pool.workers[i] == Starting
    ensures var w' := w.(pool := Become(w.pool, i, Ready));
            Inv(sp, w') && Rely(w, w') && Work(w'.pool) < Work(w.pool)
  {
    IdleBecome(w.pool, w.subs, i, Ready);
    ActiveWakeful(w.pool, i, Ready);
    WorkUpdate(w.pool.workers, i, Ready);
    PoolMove(sp, w, Become(w.pool, i, Ready), i);
  }

  lemma SpuriousInv(sp: Spec, w: World, i: nat)
    requires Inv(sp, w) && i < |w.pool.workers| && w.pool.workers[i] == Waiting
    ensures var w' := w.(pool := Become(w.pool, i, Signalled)); Inv(sp, w') && Rely(w, w')
  {
    IdleBecome(w.pool, w.subs, i, Signalled);
    SpuriousWakeful(w.pool, i);
    WorkUpdate(w.pool.workers, i, Signalled);
    PoolMove(sp, w, Become(w.pool, i, Signalled), i);
  }

  lemma IdleBecome(p: Pool, subs: map<nat, Submission>, i: nat, v: Worker)
    requires JobsOk(p, subs) && PhaseOk(p, subs) && i < |p.workers| && !p.workers[i].Busy? && !v.Busy?
    ensures JobsOk(Become(p, i, v), subs) && PhaseOk(Become(p, i, v), subs)
  {
    forall id: nat
      ensures HeldCount(Become(p, i, v), id) == One(id in subs && !subs[id].completed)
    {
      BecomeHeld(p, i, v, id);
    }
  }

  lemma TakeInv(sp: Spec, w: World, i: nat)
    requires Inv(sp, w) && i < |w.pool.workers|
    requires w.pool.workers[i] == Ready || w.pool.workers[i] == Signalled
    ensures w.pool.workers[i] == Signalled ==> w.pool.idle > 0
    ensures var w' := w.(pool := TakeWork(w.pool, i)); Inv(sp, w') && Rely(w, w')
    ensures w.pool.queue != [] ==> Work(TakeWork(w.pool, i)) < Work(w.pool)
  {
    var p := w.pool;
    if p.workers[i] == Signalled { SignalledCounted(p, i); }
    TakePool(p, i);
    TakeJobs(p, w.subs, i);
    PoolMove(sp, w, TakeWork(p, i), i);
  }

  lemma TakePool(p: Pool, i: nat)
    requires PoolOk(p) && i < |p.workers| && (p.workers[i] == Ready || p.workers[i] == Signalled)
    requires p.workers[i] == Signalled ==> p.idle > 0
    ensures PoolOk(TakeWork(p, i)) && Work(TakeWork(p, i)) <= Work(p)
    ensures p.queue != [] ==> p.queue[0].Job? && Work(TakeWork(p, i)) < Work(p)
  {
    if p.queue != [] {
      assert p.queue[0] in p.queue;
      assert forall x :: x in p.queue[1..] ==> x in p.queue;
    }
    TakeWakeful(p, i);
    WorkUpdate(p.workers, i, TakeWork(p, i).workers[i]);
  }

  lemma TakeJobs(p: Pool, subs: map<nat, Submission>, i: nat)
    requires PoolOk(p) && JobsOk(p, subs) && PhaseOk(p, subs)
    requires i < |p.workers| && (p.workers[i] == Ready || p.workers[i] == Signalled)
    requires p.workers[i] == Signalled ==> p.idle > 0
    ensures JobsOk(TakeWork(p, i), subs) && PhaseOk(TakeWork(p, i), subs)
  {
    if p.queue != [] {
      assert p.queue[0] in p.queue;
      assert forall x :: x in p.queue[1..] ==> x in p.queue;
    }
    forall id: nat
      ensures HeldCount(TakeWork(p, i), id) == One(id in subs && !subs[id].completed)
    {
      TakeHeld(p, i, id);
    }
  }

  // ---------------------------------------------------------------- store the result

  lemma FaultAppend(faults: seq<Fault>, x: Fault, t: nat)
    ensures FirstFault(faults + [x], t)
         == if FirstFault(faults, t) == 0 && x.ticket == t then x.error else FirstFault(faults, t)
  {
  }

  /** Completions that differ only in their error are the same to everything but the errors. */
  ghost predicate SameComps(comps: map<nat, Completion>, comps': map<nat, Completion>) {
    comps'.Keys == comps.Keys && forall t :: t in comps ==> comps'[t] == comps[t].(error := comps'[t].error)
  }

  lemma SameCompsOk(sp: Spec, w: World, comps': map<nat, Completion>)
    requires LinkOk(w.comps, w.subs) && RefsOk(w.caller, w.comps, w.subs)
    requires FireOk(w.pool.workers, w.caller, w.comps) && TicketOk(sp, w.comps, w.cq)
    requires SameComps(w.comps, comps')
    ensures LinkOk(comps', w.subs) && RefsOk(w.caller, comps', w.subs)
    ensures FireOk(w.pool.workers, w.caller, comps') && TicketOk(sp, comps', w.cq)
  {
  }

  lemma SetFaultFaults(sp: Spec, w: World, ticket: nat, error: nat)
    requires TicketOk(sp, w.comps, w.cq) && FaultOk(w.comps, w.cq, w.faults) && ticket in w.comps
    ensures var w' := SetFault(w, ticket, error);
            FaultOk(w'.comps, w'.cq, w'.faults) && SameFaults(w.comps, w.faults, w'.faults)
  {
  }

  /** Storing an error for an unfinished update. */
  lemma SetFaultInv(sp: Spec, w: World, ticket: nat, error: nat)
    requires Base(sp, w) && ticket in w.comps
    ensures Base(sp, SetFault(w, ticket, error)) && Rely(w, SetFault(w, ticket, error))
  {
    hide PoolOk, JobsOk, PhaseOk, DataOk, LinkOk, RefsOk, FireOk, TicketOk, FaultOk, NotifyOk, NoticeOk, ErrorsOk;
    hide BlameOk, SameFaults, SameComps, Rely;
    SameCompsOk(sp, w, SetFault(w, ticket, error).comps);
    SetFaultFaults(sp, w, ticket, error);
    SetFaultRely(w, ticket, error);
  }

  lemma SetFaultRely(w: World, ticket: nat, error: nat)
    requires ticket in w.comps && SameFaults(w.comps, w.faults, SetFault(w, ticket, error).faults)
    ensures Rely(w, SetFault(w, ticket, error))
  {
    hide SameFaults;
  }

  lemma ResultSub(sp: Spec, mem: map<nat, seq<byte>>, id: nat, s: Submission)
    requires sp.bs >= 16 && SubOk(sp, mem, s) && !s.computed
    ensures SubOk(sp, mem, Result(sp.D, sp.bs, s, Content(mem, s), sp.fails(id)))
    ensures ErrorOk(sp, id, Result(sp.D, sp.bs, s, Content(mem, s), sp.fails(id)))
  {
    var bytes := Content(mem, s);
    if |bytes| == sp.bs {
      IsZeroExact(bytes);
    }
  }

  /** A submission may be replaced by one with the same link, whatever else changes. */
  lemma SameLinks(caller: Caller, comps: map<nat, Completion>, subs: map<nat, Submission>, id: nat, s: Submission)
    requires RefsOk(caller, comps, subs) && id in subs && s.link == subs[id].link
    ensures RefsOk(caller, comps, subs[id := s])
  {
    forall t | t in comps
      ensures Holders(subs[id := s], t) == Holders(subs, t)
    {
    }
  }

  /** A submission may change its result and its flags, as long as what it stands for stays right. */
  lemma ReplaceSub(sp: Spec, w: World, id: nat, s: Submission)
    requires DataOk(sp, w.mem, w.subs) && LinkOk(w.comps, w.subs) && RefsOk(w.caller, w.comps, w.subs)
    requires id in w.subs && SubOk(sp, w.mem, s) && (s.computed || s == w.subs[id])
    requires SameSubmission(w.subs[id], s) && s.link == w.subs[id].link
    ensures DataOk(sp, w.mem, w.subs[id := s]) && LinkOk(w.comps, w.subs[id := s])
    ensures RefsOk(w.caller, w.comps, w.subs[id := s]) && SameSubs(w.subs, w.subs[id := s])
  {
    assert LentOk(w.comps, w.subs[id]) && LentOk(w.comps, s);
    SameLinks(w.caller, w.comps, w.subs, id, s);
  }

  lemma StoreInv(sp: Spec, w: World, i: nat)
    requires Inv(sp, w) && BusyWith(w, i, Got)
    ensures var id := Handling(w, i);
            var s := Result(sp.D, sp.bs, w.subs[id], Content(w.mem, w.subs[id]), sp.fails(id));
            var w' := w.(subs := w.subs[id := s], pool := Enter(w.pool, i, Computed));
            Base(sp, w') && Rely(w, w') && Work(w'.pool) < Work(w.pool)
  {
    hide PoolOk, JobsOk, PhaseOk, DataOk, LinkOk, RefsOk, FireOk, TicketOk, FaultOk, NotifyOk, NoticeOk, ErrorsOk;
    hide BlameOk;
    var id, p := Handling(w, i), w.pool;
    WorkerAt(p, w.subs, i);
    SubAt(sp, w, id);
    var s := Result(sp.D, sp.bs, w.subs[id], Content(w.mem, w.subs[id]), sp.fails(id));
    ResultSub(sp, w.mem, id, w.subs[id]);
    EnterPool(p, i, Computed);
    EnterWork(p, i, Computed);
    EnterJobs(p, w.subs, w.subs[id := s], i, Computed);
    NotCompleted(p, w.subs, i);
    EnterPhase(p, w.subs, i, s, Computed);
    ReplaceSub(sp, w, id, s);
    ReplaceErrors(sp, w.subs, id, s);
    NoFireNoNotify(p.workers, i, Busy(id, Computed), w.caller, w.comps);
    KeepsNotifying(p.workers, i, Busy(id, Computed), w.caller, w.cq, w.event || w.draining);
    QuietMove(sp, w, i, Busy(id, Computed));
  }

  lemma ComputeInv(sp: Spec, w: World, i: nat)
    requires Inv(sp, w) && BusyWith(w, i, Got)
    ensures var s := w.subs[Handling(w, i)]; s.link.Link? ==> s.link.ticket in w.comps
    ensures var w' := Compute(sp.D, sp.bs, w, i, sp.fails(Handling(w, i)));
            Inv(sp, w') && Rely(w, w') && Work(w'.pool) < Work(w.pool)
  {
    hide PoolOk, JobsOk, PhaseOk, DataOk, LinkOk, RefsOk, FireOk, TicketOk, FaultOk, NotifyOk, NoticeOk, ErrorsOk;
    hide BlameOk;
    var id := Handling(w, i);
    SubAt(sp, w, id);
    StoreInv(sp, w, i);
    var s := Result(sp.D, sp.bs, w.subs[id], Content(w.mem, w.subs[id]), sp.fails(id));
    var w1 := w.(subs := w.subs[id := s], pool := Enter(w.pool, i, Computed));
    if s.error != 0 && s.link.Link? {
      SetFaultInv(sp, w1, s.link.ticket, s.error);
    }
    WorkerAt(w.pool, w.subs, i);
    ComputeBlame(sp.broken, w.subs, w.faults, id, s);
  }

  /** What an update heard of is still explained when one more submission is computed. */
  lemma StillExplained(broken: set<nat>, subs: map<nat, Submission>, faults: seq<Fault>, id: nat, s: Submission)
    requires BlameOk(broken, subs, faults) && id in subs && s.origin == subs[id].origin
    requires subs[id].error == s.error || subs[id].error == 0
    ensures forall k :: 0 <= k < |faults| ==> Explained(broken, subs[id := s], faults[k])
  {
    forall k | 0 <= k < |faults|
      ensures Explained(broken, subs[id := s], faults[k])
    {
      assert Explained(broken, subs, faults[k]);
      var j :| Explains(broken, subs, faults[k], j);
      assert Explains(broken, subs[id := s], faults[k], j);
    }
  }

  /** A submission may change anything but its error and the update it was made for. */
  lemma SameBlame(broken: set<nat>, subs: map<nat, Submission>, faults: seq<Fault>, id: nat, s: Submission)
    requires BlameOk(broken, subs, faults) && id in subs && s.computed
    requires s.origin == subs[id].origin && s.error == subs[id].error
    ensures BlameOk(broken, subs[id := s], faults)
  {
    StillExplained(broken, subs, faults, id, s);
    assert Heard(subs[id], faults);
  }

  /** A result is stored: an error is told to the update the submission was made for. */
  lemma ComputeBlame(broken: set<nat>, subs: map<nat, Submission>, faults: seq<Fault>, id: nat, s: Submission)
    requires BlameOk(broken, subs, faults) && id in subs && !subs[id].computed && subs[id].error == 0
    requires s.computed && s.origin == subs[id].origin && s.link == subs[id].link
    ensures var faults' := if s.error != 0 && s.link.Link? then faults + [Fault(s.link.ticket, s.error)] else faults;
            BlameOk(broken, subs[id := s], faults')
  {
    assert Heard(subs[id], faults);
    StillExplained(broken, subs, faults, id, s);
    if s.error != 0 && s.link.Link? {
      AddBlame(broken, subs[id := s], faults, Fault(s.link.ticket, s.error), id);
    }
  }

  lemma AddBlame(broken: set<nat>, subs: map<nat, Submission>, faults: seq<Fault>, f: Fault, id: nat)
    requires forall k :: 0 <= k < |faults| ==> Explained(broken, subs, faults[k])
    requires forall j :: j in subs && j != id ==> Heard(subs[j], faults)
    requires forall t :: t in broken && t != f.ticket ==> FirstFault(faults, t) != 0
    requires f.error != 0 && Explains(broken, subs, f, id)
    requires subs[id].computed
    requires subs[id].origin.Link? ==> Heard(subs[id], faults) || subs[id].origin == Link(f.ticket)
    ensures BlameOk(broken, subs, faults + [f])
  {
    hide FirstFault;
    forall t: nat
      ensures FirstFault(faults, t) != 0 || t == f.ticket ==> FirstFault(faults + [f], t) != 0
    {
      FaultAppend(faults, f, t);
    }
    forall j | j in subs
      ensures Heard(subs[j], faults + [f])
    {
      if j != id { assert Heard(subs[j], faults); }
    }
  }

  // ---------------------------------------------------------------- drop the reference

  lemma HolderLeaves(subs: map<nat, Submission>, id: nat, s: Submission, t: nat)
    requires id in subs && subs[id].link == Link(t) && s.link == NoLink
    ensures Holders(subs[id := s], t) == Holders(subs, t) - {id} && id in Holders(subs, t)
    ensures |Holders(subs[id := s], t)| == |Holders(subs, t)| - 1
    ensures forall u :: u != t ==> Holders(subs[id := s], u) == Holders(subs, u)
  {
  }

  lemma UnrefRefs(w: World, id: nat)
    requires RefsOk(w.caller, w.comps, w.subs) && id in w.subs && w.subs[id].link.Link?
    requires w.subs[id].link.ticket in w.comps
    ensures var t := w.subs[id].link.ticket;
            && w.comps[t].refs > 0
            && RefsOk(w.caller, w.comps[t := w.comps[t].(refs := w.comps[t].refs - 1)],
                      w.subs[id := w.subs[id].(link := NoLink)])
  {
    var t := w.subs[id].link.ticket;
    HolderLeaves(w.subs, id, w.subs[id].(link := NoLink), t);
  }

  lemma UnrefFire(ws: seq<Worker>, i: nat, job: nat, caller: Caller, comps: map<nat, Completion>, t: nat)
    requires i < |ws| && FireOk(ws, caller, comps) && t in comps && comps[t].refs > 0
    requires forall u: nat :: !Fires(ws[i], u)
    ensures var c := comps[t].(refs := comps[t].refs - 1);
            FireOk(ws[i := Busy(job, if c.refs == 0 then Firing(t) else Publishing)], caller, comps[t := c])
  {
    var c := comps[t].(refs := comps[t].refs - 1);
    var v := Busy(job, if c.refs == 0 then Firing(t) else Publishing);
    var ws', comps' := ws[i := v], comps[t := c];
    forall u | u in comps' && comps'[u].refs == 0
      ensures SomeoneFires(ws', caller, u)
    {
      if u == t {
        assert Fires(ws'[i], t);
      } else {
        assert SomeoneFires(ws, caller, u);
        if caller != CallerFiring(u) {
          var j :| 0 <= j < |ws| && Fires(ws[j], u);
          assert Fires(ws'[j], u);
        }
      }
    }
  }

  lemma UnrefNoLink(sp: Spec, w: World, i: nat)
    requires Inv(sp, w) && BusyWith(w, i, Computed) && w.subs[Handling(w, i)].link.NoLink?
    ensures var w' := Unref(w, i); Inv(sp, w') && Rely(w, w') && Work(w'.pool) < Work(w.pool)
  {
    hide PoolOk, JobsOk, PhaseOk, DataOk, LinkOk, RefsOk, FireOk, TicketOk, FaultOk, NotifyOk, NoticeOk, ErrorsOk;
    hide BlameOk;
    var id, p := Handling(w, i), w.pool;
    WorkerAt(p, w.subs, i);
    assert w.subs[id := w.subs[id]] == w.subs;
    NotCompleted(p, w.subs, i);
    EnterPool(p, i, Publishing);
    EnterWork(p, i, Publishing);
    EnterJobs(p, w.subs, w.subs, i, Publishing);
    EnterPhase(p, w.subs, i, w.subs[id], Publishing);
    NoFireNoNotify(p.workers, i, Busy(id, Publishing), w.caller, w.comps);
    KeepsNotifying(p.workers, i, Busy(id, Publishing), w.caller, w.cq, w.event || w.draining);
    QuietMove(sp, w, i, Busy(id, Publishing));
  }

  lemma NotCompleted(p: Pool, subs: map<nat, Submission>, i: nat)
    requires JobsOk(p, subs) && i < |p.workers| && p.workers[i].Busy?
    ensures p.workers[i].job in subs && !subs[p.workers[i].job].completed
  {
    var id := p.workers[i].job;
    BusyMember(p.workers, id);
    assert Holds(p.workers[i], id);
    assert HeldCount(p, id) > 0;
  }

  lemma UnrefInv(sp: Spec, w: World, i: nat)
    requires Inv(sp, w) && BusyWith(w, i, Computed)
    ensures var s := w.subs[Handling(w, i)];
            s.link.Link? ==> s.link.ticket in w.comps && w.comps[s.link.ticket].refs > 0
    ensures var w' := Unref(w, i); Inv(sp, w') && Rely(w, w') && Work(w'.pool) < Work(w.pool)
  {
    hide PoolOk, JobsOk, PhaseOk, DataOk, LinkOk, RefsOk, FireOk, TicketOk, FaultOk, NotifyOk, NoticeOk, ErrorsOk;
    hide BlameOk;
    var id := Handling(w, i);
    SubAt(sp, w, id);
    if w.subs[id].link.NoLink? {
      UnrefNoLink(sp, w, i);
    } else {
      UnrefRefs(w, id);
      UnrefLink(sp, w, i);
    }
  }

  lemma UnrefLink(sp: Spec, w: World, i: nat)
    requires Inv(sp, w) && BusyWith(w, i, Computed) && w.subs[Handling(w, i)].link.Link?
    requires var t := w.subs[Handling(w, i)].link.ticket; t in w.comps && w.comps[t].refs > 0
    ensures var w' := Unref(w, i); Inv(sp, w') && Rely(w, w') && Work(w'.pool) < Work(w.pool)
  {
    hide PoolOk, JobsOk, PhaseOk, DataOk, LinkOk, RefsOk, FireOk, TicketOk, FaultOk, NotifyOk, NoticeOk, ErrorsOk;
    hide BlameOk, SameFaults, SameSubs, Rely;
    var id, p, w' := Handling(w, i), w.pool, Unref(w, i);
    UnrefPool(w, i);
    UnrefRely(w, i);
    UnrefRefs(w, id);
    UnrefFire(p.workers, i, id, w.caller, w.comps, w.subs[id].link.ticket);
    KeepsNotifying(p.workers, i, w'.pool.workers[i], w.caller, w.cq, w.event || w.draining);
    QuietMove(sp, w, i, w'.pool.workers[i]);
    UnrefErrors(sp, w.subs, id);
    UnrefComps(sp, w, id);
    SameBlame(sp.broken, w.subs, w.faults, id, w'.subs[id]);
  }

  lemma UnrefRely(w: World, i: nat)
    requires BusyWith(w, i, Computed) && w.subs[Handling(w, i)].link.Link?
    requires var t := w.subs[Handling(w, i)].link.ticket; t in w.comps && w.comps[t].refs > 0
    requires SameSubs(w.subs, Unref(w, i).subs) && Work(Unref(w, i).pool) < Work(w.pool)
    ensures Rely(w, Unref(w, i))
  {
    hide SameSubs, Work;
  }

  lemma UnrefErrors(sp: Spec, subs: map<nat, Submission>, id: nat)
    requires ErrorsOk(sp, subs) && id in subs
    ensures ErrorsOk(sp, subs[id := subs[id].(link := NoLink)])
  {
    assert ErrorOk(sp, id, subs[id]);
  }

  lemma UnrefPool(w: World, i: nat)
    requires PoolOk(w.pool) && JobsOk(w.pool, w.subs) && PhaseOk(w.pool, w.subs)
    requires BusyWith(w, i, Computed) && w.subs[Handling(w, i)].link.Link?
    requires var t := w.subs[Handling(w, i)].link.ticket; t in w.comps && w.comps[t].refs > 0
    ensures var w' := Unref(w, i);
            && PoolOk(w'.pool) && Work(w'.pool) < Work(w.pool) && JobsOk(w'.pool, w'.subs)
            && PhaseOk(w'.pool, w'.subs) && SameSubs(w.subs, w'.subs)
            && w.subs[Handling(w, i)].computed
  {
    var id, p, w' := Handling(w, i), w.pool, Unref(w, i);
    var f := w'.pool.workers[i].phase;
    assert WorkerOk(w.subs, id, Computed);
    NotCompleted(p, w.subs, i);
    EnterPool(p, i, f);
    EnterWork(p, i, f);
    EnterJobs(p, w.subs, w'.subs, i, f);
    EnterPhase(p, w.subs, i, w'.subs[id], f);
  }

  lemma UnrefComps(sp: Spec, w: World, id: nat)
    requires DataOk(sp, w.mem, w.subs) && LinkOk(w.comps, w.subs)
    requires TicketOk(sp, w.comps, w.cq) && FaultOk(w.comps, w.cq, w.faults)
    requires id in w.subs && w.subs[id].computed && w.subs[id].link.Link?
    requires w.subs[id].link.ticket in w.comps && w.comps[w.subs[id].link.ticket].refs > 0
    ensures var t := w.subs[id].link.ticket;
            var comps' := w.comps[t := w.comps[t].(refs := w.comps[t].refs - 1)];
            var subs' := w.subs[id := w.subs[id].(link := NoLink)];
            && DataOk(sp, w.mem, subs') && LinkOk(comps', subs')
            && TicketOk(sp, comps', w.cq) && FaultOk(comps', w.cq, w.faults)
            && comps'.Keys == w.comps.Keys
  {
  }

  // ---------------------------------------------------------------- run the callback

  lemma TicketsAppend(cq: seq<Record>, r: Record)
    ensures Tickets(cq + [r]) == Tickets(cq) + {r.ticket}
  {
    var cq' := cq + [r];
    forall t | t in Tickets(cq) + {r.ticket}
      ensures t in Tickets(cq')
    {
      if t == r.ticket {
        assert cq'[|cq|].ticket == t;
      } else {
        var k :| 0 <= k < |cq| && cq[k].ticket == t;
        assert cq'[k].ticket == t;
      }
    }
  }

  /** The record takes over the ticket of the completion that goes away. */
  lemma RecordTickets(sp: Spec, w: World, t: nat)
    requires TicketOk(sp, w.comps, w.cq) && FaultOk(w.comps, w.cq, w.faults) && t in w.comps
    ensures TicketOk(sp, w.comps - {t}, w.cq + [Finished(w, t)])
    ensures FaultOk(w.comps - {t}, w.cq + [Finished(w, t)], w.faults)
  {
    TicketsAppend(w.cq, Finished(w, t));
    assert (w.comps - {t}).Keys == w.comps.Keys - {t};
    forall k | 0 <= k < |w.cq|
      ensures w.cq[k].ticket != t
    {
      assert w.cq[k].ticket in Tickets(w.cq);
    }
  }

  /** Nothing points at a completion without references. */
  lemma Unreferenced(caller: Caller, comps: map<nat, Completion>, subs: map<nat, Submission>, t: nat)
    requires RefsOk(caller, comps, subs) && LinkOk(comps, subs) && t in comps && comps[t].refs == 0
    ensures caller != Holding(t) && forall id :: id in subs ==> subs[id].link != Link(t)
    ensures RefsOk(caller, comps - {t}, subs) && LinkOk(comps - {t}, subs)
  {
    assert Holders(subs, t) == {};
    forall id | id in subs
      ensures subs[id].link != Link(t) && LentOk(comps - {t}, subs[id])
    {
      assert id !in Holders(subs, t);
      assert LentOk(comps, subs[id]);
    }
  }

  lemma FireGone(ws: seq<Worker>, i: nat, v: Worker, caller: Caller, comps: map<nat, Completion>, t: nat)
    requires i < |ws| && FireOk(ws, caller, comps) && Fires(ws[i], t) && forall u: nat :: !Fires(v, u)
    ensures FireOk(ws[i := v], caller, comps - {t})
  {
    var ws', comps' := ws[i := v], comps - {t};
    assert forall u: nat :: Fires(ws[i], u) ==> u == t;
    forall u | u in comps' && comps'[u].refs == 0
      ensures SomeoneFires(ws', caller, u)
    {
      assert SomeoneFires(ws, caller, u);
      if caller != CallerFiring(u) {
        var j :| 0 <= j < |ws| && Fires(ws[j], u);
        assert Fires(ws'[j], u);
      }
    }
    forall j | 0 <= j < |ws| && j != i
      ensures !Fires(ws[j], t)
    {
      var lo, hi := if j < i then j else i, if j < i then i else j;
      assert !(Fires(ws[lo], t) && Fires(ws[hi], t));
    }
  }

  /** The callback moves one update from the completions to the records. */
  lemma FireComps(sp: Spec, w: World, i: nat, v: Worker, t: nat)
    requires LinkOk(w.comps, w.subs) && RefsOk(w.caller, w.comps, w.subs)
    requires FireOk(w.pool.workers, w.caller, w.comps)
    requires TicketOk(sp, w.comps, w.cq) && FaultOk(w.comps, w.cq, w.faults)
    requires i < |w.pool.workers| && Fires(w.pool.workers[i], t) && forall u: nat :: !Fires(v, u)
    ensures t in w.comps
    ensures LinkOk(w.comps - {t}, w.subs) && RefsOk(w.caller, w.comps - {t}, w.subs)
    ensures FireOk(w.pool.workers[i := v], w.caller, w.comps - {t})
    ensures TicketOk(sp, w.comps - {t}, w.cq + [Finished(w, t)])
    ensures FaultOk(w.comps - {t}, w.cq + [Finished(w, t)], w.faults)
  {
    Unreferenced(w.caller, w.comps, w.subs, t);
    FireGone(w.pool.workers, i, v, w.caller, w.comps, t);
    RecordTickets(sp, w, t);
  }

  lemma FireNotify(ws: seq<Worker>, i: nat, job: nat, caller: Caller, cq: seq<Record>, r: Record, announced: bool)
    requires i < |ws| && !Notifies(ws[i]) && NotifyOk(ws, caller, cq, announced)
    ensures NotifyOk(ws[i := Busy(job, if cq == [] then Notifying else Publishing)], caller, cq + [r], announced)
  {
    var ws' := ws[i := Busy(job, if cq == [] then Notifying else Publishing)];
    if cq == [] {
      assert Notifies(ws'[i]);
    } else {
      KeepsNotifying(ws, i, ws'[i], caller, cq, announced);
    }
  }

  /** The first record makes the one announcement due; later ones make none. */
  lemma FireNotice(sp: Spec, ws: seq<Worker>, i: nat, job: nat, caller: Caller, cq: seq<Record>, r: Record,
                   event: bool, draining: bool)
    requires i < |ws| && NoticeOk(sp.issued, sp.live, ws, caller, cq, event, draining)
    ensures NoticeOk(sp.issued, sp.live, ws[i := Busy(job, if cq == [] then Notifying else Publishing)], caller,
                     cq + [r], event, draining)
  {
    if Untouched(sp.issued, sp.live) && cq != [] {
      KeepsNotice(ws, i, Busy(job, Publishing), caller, cq, event, draining);
    }
  }

  lemma FireInv(sp: Spec, w: World, i: nat)
    requires Inv(sp, w) && i < |w.pool.workers| && w.pool.workers[i].Busy? && w.pool.workers[i].phase.Firing?
    ensures w.pool.workers[i].phase.ticket in w.comps
    ensures var w' := Fire(w, i); Inv(sp, w') && Rely(w, w') && Work(w'.pool) < Work(w.pool)
  {
    hide PoolOk, JobsOk, PhaseOk, DataOk, LinkOk, RefsOk, FireOk, TicketOk, FaultOk, NotifyOk, NoticeOk, ErrorsOk;
    hide BlameOk;
    var f := if w.cq == [] then Notifying else Publishing;
    FiresAt(w.pool.workers, i, w.pool.workers[i].phase.ticket, w.caller, w.comps);
    FirePool(w, i, f);
    FireParts(w, i, f);
    FireKeeps(sp, w, i, f);
  }

  lemma FireKeeps(sp: Spec, w: World, i: nat, f: Phase)
    requires Inv(sp, w) && i < |w.pool.workers| && w.pool.workers[i].Busy? && w.pool.workers[i].phase.Firing?
    requires w.pool.workers[i].phase.ticket in w.comps && f == if w.cq == [] then Notifying else Publishing
    ensures Inv(sp, Fire(w, i))
  {
    hide PoolOk, JobsOk, PhaseOk, DataOk, LinkOk, RefsOk, FireOk, TicketOk, FaultOk, NotifyOk, NoticeOk, ErrorsOk;
    hide BlameOk;
    var id, p, t := Handling(w, i), w.pool, w.pool.workers[i].phase.ticket;
    FireComps(sp, w, i, Busy(id, f), t);
    FirePool(w, i, f);
    FireNotify(p.workers, i, id, w.caller, w.cq, Finished(w, t), w.event || w.draining);
    FireNotice(sp, p.workers, i, id, w.caller, w.cq, Finished(w, t), w.event, w.draining);
    FireParts(w, i, f);
  }

  lemma FireParts(w: World, i: nat, f: Phase)
    requires i < |w.pool.workers| && w.pool.workers[i].Busy? && w.pool.workers[i].phase.Firing?
    requires w.pool.workers[i].phase.ticket in w.comps && f == if w.cq == [] then Notifying else Publishing
    ensures var w', t := Fire(w, i), w.pool.workers[i].phase.ticket;
            && w'.pool == Enter(w.pool, i, f) && w'.subs == w.subs && w'.comps == w.comps - {t}
            && w'.cq == w.cq + [Finished(w, t)] && w'.faults == w.faults && w'.caller == w.caller
            && w'.event == w.event && w'.draining == w.draining && w'.mem == w.mem
    ensures Work(Enter(w.pool, i, f)) < Work(w.pool) ==> Rely(w, Fire(w, i))
  {
  }

  /** The last steps of a worker touch neither its submission nor the others. */
  lemma FirePool(w: World, i: nat, f: Phase)
    requires PoolOk(w.pool) && JobsOk(w.pool, w.subs) && PhaseOk(w.pool, w.subs)
    requires i < |w.pool.workers| && w.pool.workers[i].Busy?
    requires PhaseWork(f) < PhaseWork(w.pool.workers[i].phase) <= 3 && PhaseWork(f) < 3
    ensures PoolOk(Enter(w.pool, i, f)) && Work(Enter(w.pool, i, f)) < Work(w.pool)
    ensures JobsOk(Enter(w.pool, i, f), w.subs) && PhaseOk(Enter(w.pool, i, f), w.subs)
  {
    var id, p := Handling(w, i), w.pool;
    assert WorkerOk(w.subs, id, p.workers[i].phase);
    assert w.subs[id := w.subs[id]] == w.subs;
    NotCompleted(p, w.subs, i);
    EnterPool(p, i, f);
    EnterWork(p, i, f);
    EnterJobs(p, w.subs, w.subs, i, f);
    EnterPhase(p, w.subs, i, w.subs[id], f);
  }

  // ---------------------------------------------------------------- signal and publish

  lemma NotifyInv(sp: Spec, w: World, i: nat)
    requires Inv(sp, w) && i < |w.pool.workers| && Notifies(w.pool.workers[i])
    ensures var w' := Notify(w, i); Inv(sp, w') && Rely(w, w') && Work(w'.pool) < Work(w.pool)
  {
    hide PoolOk, JobsOk, PhaseOk, DataOk, LinkOk, RefsOk, FireOk, TicketOk, FaultOk, NotifyOk, NoticeOk, ErrorsOk;
    hide BlameOk;
    FirePool(w, i, Publishing);
    NoFireNoNotify(w.pool.workers, i, Busy(Handling(w, i), Publishing), w.caller, w.comps);
    MadeNotice(sp, w.pool.workers, i, Busy(Handling(w, i), Publishing), w.caller, w.cq, w.event, w.draining);
  }

  lemma MadeNotice(sp: Spec, ws: seq<Worker>, i: nat, v: Worker, caller: Caller, cq: seq<Record>, event: bool,
                   draining: bool)
    requires i < |ws| && NoticeOk(sp.issued, sp.live, ws, caller, cq, event, draining) && Notifies(ws[i])
    requires !Notifies(v)
    ensures NoticeOk(sp.issued, sp.live, ws[i := v], caller, cq, true, draining)
    ensures NotifyOk(ws[i := v], caller, cq, true)
  {
    if Untouched(sp.issued, sp.live) {
      KeepsNotice(ws, i, v, caller, cq, event, draining);
      forall j | 0 <= j < |ws| && j != i
        ensures !Notifies(ws[j])
      {
        var lo, hi := if j < i then j else i, if j < i then i else j;
        assert !(Notifies(ws[lo]) && Notifies(ws[hi]));
      }
    }
  }

  lemma PublishJobs(p: Pool, subs: map<nat, Submission>, i: nat)
    requires JobsOk(p, subs) && PhaseOk(p, subs) && i < |p.workers|
    requires p.workers[i].Busy? && p.workers[i].phase.Publishing?
    ensures p.workers[i].job in subs
    ensures var subs' := subs[p.workers[i].job := subs[p.workers[i].job].(completed := true)];
            JobsOk(Become(p, i, Ready), subs') && PhaseOk(Become(p, i, Ready), subs')
  {
    var id, p' := p.workers[i].job, Become(p, i, Ready);
    assert WorkerOk(subs, id, Publishing);
    var subs' := subs[id := subs[id].(completed := true)];
    HandledAlone(p, subs, i);
    NotCompleted(p, subs, i);
    forall j: nat
      ensures HeldCount(p', j) == One(j in subs' && !subs'[j].completed)
    {
      BecomeHeld(p, i, Ready, j);
    }
    forall j | 0 <= j < |p'.workers| && p'.workers[j].Busy?
      ensures WorkerOk(subs', p'.workers[j].job, p'.workers[j].phase)
    {
      assert WorkerOk(subs, p.workers[j].job, p.workers[j].phase);
    }
  }

  lemma PublishInv(sp: Spec, w: World, i: nat)
    requires Inv(sp, w) && BusyWith(w, i, Publishing)
    ensures var w' := Publish(w, i); Inv(sp, w') && Rely(w, w') && Work(w'.pool) < Work(w.pool)
  {
    hide PoolOk, JobsOk, PhaseOk, DataOk, LinkOk, RefsOk, FireOk, TicketOk, FaultOk, NotifyOk, NoticeOk, ErrorsOk;
    hide BlameOk;
    var id, p := Handling(w, i), w.pool;
    WorkerAt(p, w.subs, i);
    PublishJobs(p, w.subs, i);
    NotCompleted(p, w.subs, i);
    ReadyPool(p, i);
    SubAt(sp, w, id);
    ReplaceSub(sp, w, id, w.subs[id].(completed := true));
    NoFireNoNotify(p.workers, i, Ready, w.caller, w.comps);
    KeepsNotifying(p.workers, i, Ready, w.caller, w.cq, w.event || w.draining);
    QuietMove(sp, w, i, Ready);
    ReplaceErrors(sp, w.subs, id, w.subs[id].(completed := true));
    SameBlame(sp.broken, w.subs, w.faults, id, w.subs[id].(completed := true));
  }

  lemma ReadyPool(p: Pool, i: nat)
    requires PoolOk(p) && i < |p.workers| && p.workers[i].Busy?
    ensures PoolOk(Become(p, i, Ready)) && Work(Become(p, i, Ready)) < Work(p)
  {
    ActiveWakeful(p, i, Ready);
    WorkUpdate(p.workers, i, Ready);
  }

  // ---------------------------------------------------------------- any step of any worker

  lemma {:induction false} TicketsSize(cq: seq<Record>)
    requires forall j, k :: 0 <= j < k < |cq| ==> cq[j].ticket != cq[k].ticket
    ensures |Tickets(cq)| == |cq|
  {
    if cq != [] {
      var init, last := cq[..|cq| - 1], cq[|cq| - 1];
      TicketsSize(init);
      TicketsAppend(init, last);
      assert cq == init + [last];
      forall k | 0 <= k < |init|
        ensures init[k].ticket != last.ticket
      {
        assert cq[k].ticket != cq[|cq| - 1].ticket;
      }
    }
  }

  /** Records and unfinished updates together are the undelivered ones, so a bound on those bounds the array. */
  lemma Capacity(sp: Spec, w: World)
    requires TicketOk(sp, w.comps, w.cq)
    ensures |w.comps| + |w.cq| == |sp.live|
  {
    TicketsSize(w.cq);
    assert |w.comps.Keys| + |Tickets(w.cq)| == |w.comps.Keys + Tickets(w.cq)|;
  }

  /** The completion array has room for the record of every unfinished update. */
  lemma RecordFits(sp: Spec, w: World, t: nat)
    requires Inv(sp, w) && t in w.comps
    ensures |w.cq| < sp.depth
  {
    Capacity(sp, w);
    assert |w.comps| > 0;
  }

  /** The next step of worker i. */
  function RunWorker(D: seq<byte> -> seq<byte>, fails: nat -> nat, bs: nat, depth: nat, w: World, i: nat): World
    requires Runnable(bs, depth, w, i)
  {
    match w.pool.workers[i]
    case Starting => w.(pool := Become(w.pool, i, Ready))
    case Ready => w.(pool := TakeWork(w.pool, i))
    case Signalled => w.(pool := TakeWork(w.pool, i))
    case Waiting => w.(pool := Become(w.pool, i, Signalled))
    case Busy(id, Got) => Compute(D, bs, w, i, fails(id))
    case Busy(_, Computed) => Unref(w, i)
    case Busy(_, Firing(_)) => Fire(w, i)
    case Busy(_, Notifying) => Notify(w, i)
    case Busy(_, Publishing) => Publish(w, i)
    case Exited(_) => w
  }

  /** No step of a worker touches freed memory or an absent completion, or overflows the completion array. */
  predicate Runnable(bs: nat, depth: nat, w: World, i: nat) {
    && bs >= 16 && i < |w.pool.workers|
    && (w.pool.workers[i] == Signalled ==> w.pool.idle > 0)
    && match w.pool.workers[i]
       case Busy(id, Got) => id in w.subs && (w.subs[id].link.Link? ==> w.subs[id].link.ticket in w.comps)
       case Busy(id, Computed) =>
         && id in w.subs
         && (w.subs[id].link.Link? ==> w.subs[id].link.ticket in w.comps && w.comps[w.subs[id].link.ticket].refs > 0)
       case Busy(_, Firing(t)) => t in w.comps && |w.cq| < depth
       case Busy(id, _) => id in w.subs
       case _ => true
  }

  lemma PoolWakeful(p: Pool)
    requires PoolOk(p)
    ensures Wakeful(p)
  {
  }

  lemma InvRunnable(sp: Spec, w: World, i: nat)
    requires Inv(sp, w) && i < |w.pool.workers|
    ensures Runnable(sp.bs, sp.depth, w, i)
  {
    hide PoolOk, JobsOk, PhaseOk, DataOk, LinkOk, RefsOk, FireOk, TicketOk, FaultOk, NotifyOk, NoticeOk, ErrorsOk;
    hide BlameOk;
    match w.pool.workers[i]
    case Signalled => assert Wakeful(w.pool) by { PoolWakeful(w.pool); } SignalledCounted(w.pool, i);
    case Busy(id, f) =>
      WorkerAt(w.pool, w.subs, i);
      SubAt(sp, w, id);
      if f.Computed? && w.subs[id].link.Link? { UnrefRefs(w, id); }
      if f.Firing? {
        FiresAt(w.pool.workers, i, f.ticket, w.caller, w.comps);
        RecordFits(sp, w, f.ticket);
      }
    case _ =>
  }

  /** A step that gets something done, as opposed to going to sleep or waking for nothing. */
  predicate CanProgress(p: Pool, i: nat) {
    i < |p.workers| &&
      match p.workers[i]
      case Starting => true
      case Busy(_, _) => true
      case Ready => p.queue != []
      case Signalled => p.queue != []
      case _ => false
  }

  ghost predicate GoodStep(sp: Spec, w: World, w': World) {
    Inv(sp, w') && Rely(w, w') && Work(w'.pool) < Work(w.pool)
  }

  lemma BusyWorkerInv(sp: Spec, w: World, i: nat)
    requires Inv(sp, w) && i < |w.pool.workers| && w.pool.workers[i].Busy? && Runnable(sp.bs, sp.depth, w, i)
    ensures GoodStep(sp, w, RunWorker(sp.D, sp.fails, sp.bs, sp.depth, w, i))
  {
    match w.pool.workers[i].phase
    case Got => ComputeInv(sp, w, i);
    case Computed => UnrefInv(sp, w, i);
    case Firing(_) => FireInv(sp, w, i);
    case Notifying => NotifyInv(sp, w, i);
    case Publishing => PublishInv(sp, w, i);
  }

  lemma IdleWorkerInv(sp: Spec, w: World, i: nat)
    requires Inv(sp, w) && i < |w.pool.workers| && !w.pool.workers[i].Busy? && Runnable(sp.bs, sp.depth, w, i)
    ensures var w' := RunWorker(sp.D, sp.fails, sp.bs, sp.depth, w, i); Inv(sp, w') && Rely(w, w')
    ensures CanProgress(w.pool, i) ==> GoodStep(sp, w, RunWorker(sp.D, sp.fails, sp.bs, sp.depth, w, i))
  {
    match w.pool.workers[i]
    case Starting => StartInv(sp, w, i);
    case Waiting => SpuriousInv(sp, w, i);
    case _ => TakeInv(sp, w, i);
  }

  /** Every interleaving is a sequence of these steps: each keeps the invariant, each leaves alone what
      the caller relies on, and each that gets something done brings the end nearer. */
  lemma RunWorkerInv(sp: Spec, w: World, i: nat)
    requires Inv(sp, w) && i < |w.pool.workers|
    ensures Runnable(sp.bs, sp.depth, w, i)
    ensures var w' := RunWorker(sp.D, sp.fails, sp.bs, sp.depth, w, i); Inv(sp, w') && Rely(w, w')
    ensures CanProgress(w.pool, i) ==> Effort(RunWorker(sp.D, sp.fails, sp.bs, sp.depth, w, i)) < Effort(w)
  {
    InvRunnable(sp, w, i);
    if w.pool.workers[i].Busy? {
      BusyWorkerInv(sp, w, i);
    } else {
      IdleWorkerInv(sp, w, i);
    }
  }

  lemma RelyTransitive(w1: World, w2: World, w3: World)
    requires Rely(w1, w2) && Rely(w2, w3)
    ensures Rely(w1, w3)
  {
  }

  /** A submission that is not completed always has a worker that can move it on. */
  lemma ProgressExists(sp: Spec, w: World, id: nat)
    requires Inv(sp, w) && id in w.subs && !w.subs[id].completed
    ensures exists i :: CanProgress(w.pool, i)
  {
    var p := w.pool;
    assert HeldCount(p, id) == 1;
    if BusyCount(p.workers, id) > 0 {
      BusyMember(p.workers, id);
      var i :| 0 <= i < |p.workers| && Holds(p.workers[i], id);
      assert CanProgress(p, i);
    } else {
      assert Job(id) in p.queue;
      CountMember(p.workers, KFailed);
      CountMember(p.workers, KStopped);
      QueueIsServed(p);
      var i :| 0 <= i < |p.workers| && Alert(p.workers[i]);
      assert CanProgress(p, i);
    }
  }

  /** While an update is undelivered and the event is silent, some worker is on its way to signal it. */
  lemma EventComes(sp: Spec, w: World)
    requires Inv(sp, w) && w.caller.Quiet? && sp.live != {} && !w.event && !w.draining
    ensures exists i :: CanProgress(w.pool, i)
  {
    var p := w.pool;
    if w.cq != [] {
      var i :| 0 <= i < |p.workers| && Notifies(p.workers[i]);
      assert CanProgress(p, i);
    } else {
      var t :| t in sp.live;
      assert t !in Tickets(w.cq);
      CallbackComes(sp, w, t);
    }
  }

  /** An unfinished update is held by a submission some worker can move on, or its callback is due. */
  lemma CallbackComes(sp: Spec, w: World, t: nat)
    requires Inv(sp, w) && w.caller.Quiet? && t in w.comps
    ensures exists i :: CanProgress(w.pool, i)
  {
    hide PoolOk, DataOk, TicketOk, FaultOk, NotifyOk, NoticeOk, ErrorsOk;
    var p := w.pool;
    if w.comps[t].refs == 0 {
      assert SomeoneFires(p.workers, w.caller, t);
      var i :| 0 <= i < |p.workers| && Fires(p.workers[i], t);
      assert CanProgress(p, i);
    } else {
      assert |Holders(w.subs, t)| > 0;
      var id :| id in Holders(w.subs, t);
      ProgressExists(sp, w, id);
    }
  }
}
