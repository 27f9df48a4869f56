/** Everything the calling thread and the workers share, and what a worker does to it.

    A worker handles a submission in five steps: store its result, drop its reference to the update
    it belongs to, run the callback if that was the last reference, signal the event if the callback
    queued the first record, and publish the submission as completed. */
module Shared {
  import opened Streams
  import opened ZeroDetect
  import opened Pools

  /** The bytes of a submission: a private copy, or a range of a buffer the application lent. */
  datatype Data = NoData | Own(bytes: seq<byte>) | User(buf: nat, off: nat, len: nat)

  datatype Link = NoLink | Link(ticket: nat)

  /** `computed` marks that md, zero or error were stored, and `origin` is the update the submission was made for,
      which `link` forgets; neither has a field of its own in the code. */
  datatype Submission = Submission(index: nat, data: Data, link: Link, origin: Link, md: seq<byte>,
                                   zero: bool, error: nat, computed: bool, completed: bool)

  datatype Completion = Completion(refs: nat, error: nat, userData: nat, buf: nat)

  /** A completion record; `ticket` tells apart updates that share their user data. */
  datatype Record = Record(ticket: nat, userData: nat, error: nat)

  datatype Fault = Fault(ticket: nat, error: nat)

  /** What the calling thread owes to the completion of the update it is running. */
  datatype Caller = Quiet | Holding(ticket: nat) | CallerFiring(ticket: nat) | CallerNotifying

  /** The update that a submission made now is made for. */
  function Made(caller: Caller): Link {
    if caller.Holding? then Link(caller.ticket) else NoLink
  }

  datatype World = World(pool: Pool, subs: map<nat, Submission>, comps: map<nat, Completion>,
                         cq: seq<Record>, event: bool, draining: bool, caller: Caller,
                         mem: map<nat, seq<byte>>, faults: seq<Fault>)

  /** An update that was started: what its record must carry, and the buffer it was lent. */
  datatype Issue = Issue(userData: nat, buf: nat)

  /** What the world is measured against: the blocks consumed, the updates started, and those whose call failed.
      `fails` says of every submission with which error its digest calls fail, or 0. */
  datatype Spec = Spec(D: seq<byte> -> seq<byte>, fails: nat -> nat, bs: nat, depth: nat,
                       blocks: seq<seq<byte>>, issued: seq<Issue>, live: set<nat>, broken: set<nat>)

  /** No digest call ever fails. */
  ghost predicate Sound(fails: nat -> nat) {
    forall id: nat :: fails(id) == 0
  }

  function Content(mem: map<nat, seq<byte>>, s: Submission): seq<byte> {
    match s.data
    case NoData => []
    case Own(bytes) => bytes
    case User(buf, off, len) =>
      if buf in mem && off + len <= |mem[buf]| then mem[buf][off..off + len] else []
  }

  /** The first error stored for an update, or 0. */
  function FirstFault(faults: seq<Fault>, ticket: nat): nat {
    if faults == [] then 0
    else
      var e := FirstFault(faults[..|faults| - 1], ticket);
      var last := faults[|faults| - 1];
      if e == 0 && last.ticket == ticket then last.error else e
  }

  function Holders(subs: map<nat, Submission>, ticket: nat): set<nat> {
    set id | id in subs && subs[id].link == Link(ticket)
  }

  function Tickets(cq: seq<Record>): set<nat> {
    set k | 0 <= k < |cq| :: cq[k].ticket
  }

  // ---------------------------------------------------------------- steps of a worker

  function Handling(w: World, i: nat): nat
    requires i < |w.pool.workers| && w.pool.workers[i].Busy?
  {
    w.pool.workers[i].job
  }

  predicate BusyWith(w: World, i: nat, f: Phase) {
    && i < |w.pool.workers| && w.pool.workers[i].Busy? && w.pool.workers[i].phase == f
    && w.pool.workers[i].job in w.subs
  }

  function Enter(p: Pool, i: nat, f: Phase): Pool
    requires i < |p.workers| && p.workers[i].Busy?
  {
    Become(p, i, Busy(p.workers[i].job, f))
  }

  /** Keeps the first error only. */
  function SetFault(w: World, ticket: nat, error: nat): World
    requires ticket in w.comps
  {
    var c := w.comps[ticket];
    w.(comps := w.comps[ticket := c.(error := if c.error == 0 then error else c.error)],
       faults := w.faults + [Fault(ticket, error)])
  }

  /** The result of looking at a block: zeros are looked for only in full blocks that were not copied. */
  function Result(D: seq<byte> -> seq<byte>, bs: nat, s: Submission, bytes: seq<byte>, err: nat): Submission
    requires bs >= 16
  {
    if !s.data.Own? && IsZeroBlock(bytes, bs) then s.(zero := true, computed := true)
    else if err == 0 then s.(md := D(bytes), computed := true)
    else s.(error := err, computed := true)
  }

  function Compute(D: seq<byte> -> seq<byte>, bs: nat, w: World, i: nat, err: nat): World
    requires bs >= 16 && BusyWith(w, i, Got)
    requires var s := w.subs[Handling(w, i)]; s.link.Link? ==> s.link.ticket in w.comps
  {
    var id := Handling(w, i);
    var s := Result(D, bs, w.subs[id], Content(w.mem, w.subs[id]), err);
    var w' := w.(subs := w.subs[id := s], pool := Enter(w.pool, i, Computed));
    if s.error != 0 && s.link.Link? then SetFault(w', s.link.ticket, s.error) else w'
  }

  function Unref(w: World, i: nat): World
    requires BusyWith(w, i, Computed)
    requires var s := w.subs[Handling(w, i)];
             s.link.Link? ==> s.link.ticket in w.comps && w.comps[s.link.ticket].refs > 0
  {
    var id := Handling(w, i);
    var s := w.subs[id];
    if s.link.NoLink? then w.(pool := Enter(w.pool, i, Publishing))
    else
      var t := s.link.ticket;
      var c := w.comps[t].(refs := w.comps[t].refs - 1);
      w.(subs := w.subs[id := s.(link := NoLink)], comps := w.comps[t := c],
         pool := Enter(w.pool, i, if c.refs == 0 then Firing(t) else Publishing))
  }

  function Finished(w: World, ticket: nat): Record
    requires ticket in w.comps
  {
    Record(ticket, w.comps[ticket].userData, w.comps[ticket].error)
  }

  function Fire(w: World, i: nat): World
    requires i < |w.pool.workers| && w.pool.workers[i].Busy? && w.pool.workers[i].phase.Firing?
    requires w.pool.workers[i].phase.ticket in w.comps
  {
    var t := w.pool.workers[i].phase.ticket;
    w.(cq := w.cq + [Finished(w, t)], comps := w.comps - {t},
       pool := Enter(w.pool, i, if w.cq == [] then Notifying else Publishing))
  }

  function Notify(w: World, i: nat): World
    requires i < |w.pool.workers| && w.pool.workers[i].Busy?
  {
    w.(event := true, pool := Enter(w.pool, i, Publishing))
  }

  function Publish(w: World, i: nat): World
    requires BusyWith(w, i, Publishing)
  {
    var id := Handling(w, i);
    w.(subs := w.subs[id := w.subs[id].(completed := true)], pool := Become(w.pool, i, Ready))
  }

  // ---------------------------------------------------------------- invariant

  ghost predicate PoolOk(p: Pool) {
    && Wakeful(p) && !p.stopped && p.error == 0 && |p.workers| > 0
    && Stop !in p.queue
    && forall i :: 0 <= i < |p.workers| ==> !p.workers[i].Exited?
  }

  /** Exactly the submissions that are not completed are queued or in the hands of one worker. */
  ghost predicate JobsOk(p: Pool, subs: map<nat, Submission>) {
    forall id: nat :: HeldCount(p, id) == One(id in subs && !subs[id].completed)
  }

  ghost predicate PhaseOk(p: Pool, subs: map<nat, Submission>) {
    && (forall id: nat :: Job(id) in p.queue ==> id in subs && !subs[id].computed)
    && (forall i :: 0 <= i < |p.workers| && p.workers[i].Busy? ==>
          WorkerOk(subs, p.workers[i].job, p.workers[i].phase))
    && (forall id :: id in subs && subs[id].completed ==> subs[id].computed && subs[id].link.NoLink?)
  }

  ghost predicate WorkerOk(subs: map<nat, Submission>, id: nat, f: Phase) {
    && id in subs && (f.Got? <==> !subs[id].computed)
    && (!f.Got? && !f.Computed? ==> subs[id].link.NoLink?)
  }

  /** A submission stands for block `index`: before the worker looked at it through the bytes it refers
      to, afterwards through its digest or its zero flag. */
  ghost predicate SubOk(sp: Spec, mem: map<nat, seq<byte>>, s: Submission) {
    if s.data.NoData? then
      s.index <= |sp.blocks| && s.completed && s.computed && s.zero && s.error == 0 && s.link.NoLink?
    else
      && s.index < |sp.blocks|
      && if s.computed then s.error != 0 || ResultOk(sp, s, sp.blocks[s.index])
         else !s.zero && s.error == 0 && Content(mem, s) == sp.blocks[s.index]
  }

  ghost predicate ResultOk(sp: Spec, s: Submission, block: seq<byte>) {
    if s.zero then block == Zeros(sp.bs) else s.md == sp.D(block)
  }

  /** The error a submission will carry: none for a marker or a borrowed zero block, for which no digest is
      computed, and otherwise the outcome of its digest calls. */
  function Due(sp: Spec, id: nat, s: Submission): nat {
    if s.data.NoData? || s.index >= |sp.blocks| || (s.data.User? && sp.blocks[s.index] == Zeros(sp.bs)) then 0
    else sp.fails(id)
  }

  ghost predicate ErrorsOk(sp: Spec, subs: map<nat, Submission>) {
    forall id :: id in subs ==> ErrorOk(sp, id, subs[id])
  }

  ghost predicate ErrorOk(sp: Spec, id: nat, s: Submission) {
    s.error == if s.computed then Due(sp, id, s) else 0
  }

  ghost predicate DataOk(sp: Spec, mem: map<nat, seq<byte>>, subs: map<nat, Submission>) {
    forall id :: id in subs ==> SubOk(sp, mem, subs[id])
  }

  /** A submission that reads application memory belongs to a live update of that very buffer. */
  ghost predicate LinkOk(comps: map<nat, Completion>, subs: map<nat, Submission>) {
    forall id :: id in subs ==> LentOk(comps, subs[id])
  }

  ghost predicate LentOk(comps: map<nat, Completion>, s: Submission) {
    && (s.link.Link? ==> s.link.ticket in comps)
    && (!s.computed && s.data.User? ==> s.link.Link? && comps[s.link.ticket].buf == s.data.buf)
  }

  /** References: the caller's own, and one for every submission that still points at the update. */
  ghost predicate RefsOk(caller: Caller, comps: map<nat, Completion>, subs: map<nat, Submission>) {
    && (forall t :: t in comps ==> comps[t].refs == One(caller == Holding(t)) + |Holders(subs, t)|)
    && (caller.Holding? ==> caller.ticket in comps)
  }

  predicate Fires(w: Worker, t: nat) {
    w.Busy? && w.phase == Firing(t)
  }

  ghost predicate SomeoneFires(ws: seq<Worker>, caller: Caller, t: nat) {
    caller == CallerFiring(t) || exists i :: 0 <= i < |ws| && Fires(ws[i], t)
  }

  /** An update without references has exactly one thread about to run its callback. */
  ghost predicate FireOk(ws: seq<Worker>, caller: Caller, comps: map<nat, Completion>) {
    && (forall i, t :: 0 <= i < |ws| && Fires(ws[i], t) ==>
          t in comps && comps[t].refs == 0 && caller != CallerFiring(t))
    && (forall i, j, t | 0 <= i < j < |ws| :: !(Fires(ws[i], t) && Fires(ws[j], t)))
    && (caller.CallerFiring? ==> caller.ticket in comps && comps[caller.ticket].refs == 0)
    && (forall t :: t in comps && comps[t].refs == 0 ==> SomeoneFires(ws, caller, t))
  }

  /** Every started update that was not delivered is either unfinished or has exactly one record. */
  ghost predicate TicketOk(sp: Spec, comps: map<nat, Completion>, cq: seq<Record>) {
    && comps.Keys !! Tickets(cq)
    && comps.Keys + Tickets(cq) == sp.live
    && (forall j, k :: 0 <= j < k < |cq| ==> cq[j].ticket != cq[k].ticket)
    && (forall t :: t in sp.live ==> t < |sp.issued|)
    && (forall t :: t in comps && t < |sp.issued| ==> sp.issued[t] == Issue(comps[t].userData, comps[t].buf))
    && (forall k :: 0 <= k < |cq| && cq[k].ticket < |sp.issued| ==>
          cq[k].userData == sp.issued[cq[k].ticket].userData)
  }

  predicate Notifies(w: Worker) {
    w.Busy? && w.phase == Notifying
  }

  ghost predicate SomeoneNotifies(ws: seq<Worker>, caller: Caller) {
    caller.CallerNotifying? || exists i :: 0 <= i < |ws| && Notifies(ws[i])
  }

  /** No lost notification: a record that is waiting has been or is about to be announced. */
  ghost predicate NotifyOk(ws: seq<Worker>, caller: Caller, cq: seq<Record>, announced: bool) {
    cq != [] ==> announced || SomeoneNotifies(ws, caller)
  }

  /** Nothing was delivered yet. */
  ghost predicate Untouched(issued: seq<Issue>, live: set<nat>) {
    forall t: nat :: t < |issued| ==> t in live
  }

  /** Before the first delivery there was one announcement: it is to be made, or made, or read. */
  ghost predicate FirstNotice(ws: seq<Worker>, caller: Caller, cq: seq<Record>, event: bool, draining: bool) {
    && !(event && draining)
    && (event || draining ==> !SomeoneNotifies(ws, caller))
    && (event || draining || SomeoneNotifies(ws, caller) ==> cq != [])
    && (caller.CallerNotifying? ==> forall i :: 0 <= i < |ws| ==> !Notifies(ws[i]))
    && (forall i, j :: 0 <= i < j < |ws| ==> !(Notifies(ws[i]) && Notifies(ws[j])))
  }

  ghost predicate NoticeOk(issued: seq<Issue>, live: set<nat>, ws: seq<Worker>, caller: Caller, cq: seq<Record>,
                           event: bool, draining: bool) {
    Untouched(issued, live) ==> FirstNotice(ws, caller, cq, event, draining)
  }

  ghost predicate FaultOk(comps: map<nat, Completion>, cq: seq<Record>, faults: seq<Fault>) {
    && (forall t :: t in comps ==> comps[t].error == FirstFault(faults, t))
    && (forall k :: 0 <= k < |cq| ==> cq[k].error == FirstFault(faults, cq[k].ticket))
  }

  /** A submission whose digest failed and that explains an error stored for update `ticket`: it was made for that
      update, or the call that started the update met it and failed. */
  ghost predicate Explains(broken: set<nat>, subs: map<nat, Submission>, f: Fault, id: nat) {
    id in subs && subs[id].error == f.error && (subs[id].origin == Link(f.ticket) || f.ticket in broken)
  }

  ghost predicate Explained(broken: set<nat>, subs: map<nat, Submission>, f: Fault) {
    f.error != 0 && exists id :: Explains(broken, subs, f, id)
  }

  /** The update a submission was made for hears of its error. */
  ghost predicate Heard(s: Submission, faults: seq<Fault>) {
    && (!s.computed ==> s.link == s.origin)
    && (s.error != 0 && s.origin.Link? ==> FirstFault(faults, s.origin.ticket) != 0)
  }

  /** The errors stored for updates are exactly those they have to hear of. */
  ghost predicate BlameOk(broken: set<nat>, subs: map<nat, Submission>, faults: seq<Fault>) {
    && (forall k :: 0 <= k < |faults| ==> Explained(broken, subs, faults[k]))
    && (forall id :: id in subs ==> Heard(subs[id], faults))
    && (forall t :: t in broken ==> FirstFault(faults, t) != 0)
  }

  ghost predicate Inv(sp: Spec, w: World) {
    Base(sp, w) && BlameOk(sp.broken, w.subs, w.faults)
  }

  ghost predicate Base(sp: Spec, w: World) {
    match w
    case World(pool, subs, comps, cq, event, draining, caller, mem, faults) =>
      && sp.bs >= 16
      && PoolOk(pool) && JobsOk(pool, subs) && PhaseOk(pool, subs)
      && DataOk(sp, mem, subs) && LinkOk(comps, subs)
      && RefsOk(caller, comps, subs) && FireOk(pool.workers, caller, comps)
      && TicketOk(sp, comps, cq) && FaultOk(comps, cq, faults)
      && NotifyOk(pool.workers, caller, cq, event || draining)
      && NoticeOk(sp.issued, sp.live, pool.workers, caller, cq, event, draining)
      && ErrorsOk(sp, subs) && |sp.live| <= sp.depth
  }

  // ---------------------------------------------------------------- what workers leave alone

  ghost predicate SameSubmission(s: Submission, s': Submission) {
    s'.index == s.index && s'.data == s.data && s'.origin == s.origin && (s.completed ==> s' == s)
  }

  ghost predicate SameSubs(subs: map<nat, Submission>, subs': map<nat, Submission>) {
    subs'.Keys == subs.Keys && forall id :: id in subs ==> SameSubmission(subs[id], subs'[id])
  }

  /** An error once stored stays the first one, and finished updates get no more errors. */
  ghost predicate SameFaults(comps: map<nat, Completion>, faults: seq<Fault>, faults': seq<Fault>) {
    && (forall t: nat :: t !in comps ==> FirstFault(faults', t) == FirstFault(faults, t))
    && (forall t: nat :: FirstFault(faults, t) != 0 ==> FirstFault(faults', t) == FirstFault(faults, t))
  }

  /** What the caller may rely on while workers run. */
  ghost predicate Rely(w: World, w': World) {
    match w'
    case World(pool, subs, comps, cq, event, draining, caller, mem, faults) =>
      && mem == w.mem && caller == w.caller && draining == w.draining
      && pool.size == w.pool.size && |pool.workers| == |w.pool.workers|
      && SameSubs(w.subs, subs)
      && comps.Keys <= w.comps.Keys && w.cq <= cq
      && (w.event ==> event)
      && SameFaults(w.comps, w.faults, faults)
      && Effort(w') <= Effort(w)
  }

  /** Work left; a signalled event counts as work for the application. */
  function Effort(w: World): nat {
    2 * Work(w.pool) + One(w.event)
  }
}
