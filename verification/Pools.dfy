/** The worker pool as a transition system.

    Every section that the pool mutex protects is one step.  `idle` is the counter the code keeps:
    a worker that was signalled but has not taken the mutex back is still counted idle. */
module Pools {

  /** Where a worker stands with the submission it took from the queue. */
  datatype Phase =
    | Got                    // taken from the queue, not looked at
    | Computed               // digest, zero flag or error stored
    | Firing(ticket: nat)    // dropped the last reference of an update, callback not run
    | Notifying              // queued the first completion record, event not signalled
    | Publishing             // only the completed flag is left to store

  datatype Worker =
    | Starting
    | Ready
    | Waiting
    | Signalled
    | Busy(job: nat, phase: Phase)
    | Exited(failed: bool)

  datatype Item = Job(id: nat) | Stop

  datatype Pool = Pool(queue: seq<Item>, size: nat, workers: seq<Worker>,
                       idle: nat, stopped: bool, error: nat)

  const EPERM: nat := 1
  const EIO: nat := 5
  const ENOBUFS: nat := 105

  datatype Kind = KActive | KWaiting | KSignalled | KStopped | KFailed

  function KindOf(w: Worker): Kind {
    match w
    case Waiting => KWaiting
    case Signalled => KSignalled
    case Exited(failed) => if failed then KFailed else KStopped
    case _ => KActive
  }

  function Count(ws: seq<Worker>, k: Kind): nat {
    if ws == [] then 0 else (if KindOf(ws[0]) == k then 1 else 0) + Count(ws[1..], k)
  }

  function One(b: bool): nat {
    if b then 1 else 0
  }

  lemma {:induction false} CountUpdate(ws: seq<Worker>, i: nat, w: Worker, k: Kind)
    requires i < |ws|
    ensures Count(ws[i := w], k) + One(KindOf(ws[i]) == k) == Count(ws, k) + One(KindOf(w) == k)
  {
    if i == 0 {
      assert ws[0 := w][1..] == ws[1..];
    } else {
      CountUpdate(ws[1..], i - 1, w, k);
      assert ws[i := w][1..] == ws[1..][i - 1 := w];
    }
  }

  lemma {:induction false} CountTotal(ws: seq<Worker>)
    ensures Count(ws, KActive) + Count(ws, KWaiting) + Count(ws, KSignalled)
          + Count(ws, KStopped) + Count(ws, KFailed) == |ws|
  {
    if ws != [] {
      CountTotal(ws[1..]);
    }
  }

  lemma {:induction false} CountMember(ws: seq<Worker>, k: Kind)
    ensures Count(ws, k) > 0 <==> exists i :: 0 <= i < |ws| && KindOf(ws[i]) == k
  {
    if ws != [] {
      CountMember(ws[1..], k);
      if i :| 0 <= i < |ws[1..]| && KindOf(ws[1..][i]) == k {
        assert KindOf(ws[i + 1]) == k;
      }
      if i :| 0 <= i < |ws| && KindOf(ws[i]) == k {
        assert i == 0 || KindOf(ws[1..][i - 1]) == k;
      }
    }
  }

  // ---------------------------------------------------------------- condition variable

  function Wake(ws: seq<Worker>, woken: set<nat>): (r: seq<Worker>)
    ensures |r| == |ws|
  {
    seq(|ws|, i requires 0 <= i < |ws| => if i in woken && ws[i] == Waiting then Signalled else ws[i])
  }

  function WaitingSet(ws: seq<Worker>): set<nat> {
    set i: nat | i < |ws| && ws[i] == Waiting
  }

  function Shift(woken: set<nat>): set<nat> {
    set j | j in woken && j > 0 :: j - 1
  }

  lemma WakeTail(ws: seq<Worker>, woken: set<nat>)
    requires ws != []
    ensures Wake(ws, woken)[1..] == Wake(ws[1..], Shift(woken))
  {
  }

  /** Waking moves workers from waiting to signalled and touches nothing else. */
  lemma {:induction false} WakeCounts(ws: seq<Worker>, woken: set<nat>)
    ensures forall k :: k != KWaiting && k != KSignalled ==> Count(Wake(ws, woken), k) == Count(ws, k)
    ensures Count(Wake(ws, woken), KWaiting) + Count(Wake(ws, woken), KSignalled)
         == Count(ws, KWaiting) + Count(ws, KSignalled)
    ensures Count(Wake(ws, woken), KSignalled)
         >= Count(ws, KSignalled) + One(exists i :: i in woken && i < |ws| && ws[i] == Waiting)
  {
    var r := Wake(ws, woken);
    if ws != [] {
      var rest := Shift(woken);
      WakeCounts(ws[1..], rest);
      WakeTail(ws, woken);
      if i :| i in woken && i < |ws| && ws[i] == Waiting {
        if i > 0 {
          assert i - 1 in rest && ws[1..][i - 1] == Waiting;
        }
      }
    }
  }

  // ---------------------------------------------------------------- critical sections

  predicate NeedWakeup(p: Pool) {
    p.idle > 0 && |p.queue| > |p.workers| - p.idle
  }

  function SubmitError(p: Pool): nat {
    if p.stopped then EPERM
    else if p.error != 0 then p.error
    else if |p.queue| == p.size then ENOBUFS
    else 0
  }

  /** POSIX: at least one of the threads blocked on the condition variable is unblocked. */
  predicate SignalChoice(p: Pool, woken: set<nat>) {
    if NeedWakeup(p) then woken <= WaitingSet(p.workers) && (WaitingSet(p.workers) != {} ==> woken != {})
    else woken == {}
  }

  function Queued(p: Pool, id: nat): Pool {
    p.(queue := p.queue + [Job(id)])
  }

  /** A successful submit: queue the job, then signal only when the queue outgrew the active workers. */
  function Submit(p: Pool, id: nat, woken: set<nat>): Pool
    requires SubmitError(p) == 0 && SignalChoice(Queued(p, id), woken)
  {
    var q := Queued(p, id);
    q.(workers := Wake(q.workers, woken))
  }

  /** One turn of the wait loop with the mutex held: go (back) to sleep, or pop the head. */
  function TakeWork(p: Pool, i: nat): Pool
    requires i < |p.workers| && (p.workers[i] == Ready || p.workers[i] == Signalled)
    requires p.workers[i] == Signalled ==> p.idle > 0
  {
    var awake := if p.workers[i] == Signalled then p.idle - 1 else p.idle;
    if p.queue == [] then
      p.(workers := p.workers[i := Waiting], idle := awake + 1)
    else
      var next := match p.queue[0] case Job(id) => Busy(id, Got) case Stop => Exited(false);
      p.(queue := p.queue[1..], workers := p.workers[i := next], idle := awake)
  }

  function Become(p: Pool, i: nat, w: Worker): Pool
    requires i < |p.workers|
  {
    p.(workers := p.workers[i := w])
  }

  /** Stopping: fail what is queued, queue one STOP per worker, wake everybody. */
  function StopAll(p: Pool): Pool {
    p.(stopped := true, queue := seq(|p.workers|, _ => Stop), workers := Wake(p.workers, WaitingSet(p.workers)))
  }

  // ---------------------------------------------------------------- wake-up invariant

  /** The idle counter is exact, and whenever somebody sleeps unsignalled the queue is no longer
      than the number of workers that are not asleep. */
  ghost predicate Wakeful(p: Pool) {
    && p.idle == Count(p.workers, KWaiting) + Count(p.workers, KSignalled)
    && (Count(p.workers, KWaiting) > 0 ==>
          |p.queue| <= |p.workers| - p.idle + Count(p.workers, KSignalled))
  }

  lemma SubmitWakeful(p: Pool, id: nat, woken: set<nat>)
    requires Wakeful(p) && SubmitError(p) == 0 && SignalChoice(Queued(p, id), woken)
    ensures Wakeful(Submit(p, id, woken))
  {
    var q := Queued(p, id);
    WakeCounts(q.workers, woken);
    CountMember(q.workers, KWaiting);
    if NeedWakeup(q) && Count(q.workers, KWaiting) > 0 {
      var i :| 0 <= i < |q.workers| && KindOf(q.workers[i]) == KWaiting;
      assert i in WaitingSet(q.workers);
      var j :| j in woken;
      assert j in WaitingSet(q.workers);
      assert exists i :: i in woken && i < |q.workers| && q.workers[i] == Waiting;
    }
  }

  lemma WorkerMoves(p: Pool, i: nat, w: Worker)
    requires i < |p.workers|
    ensures forall k :: Count(p.workers[i := w], k) + One(KindOf(p.workers[i]) == k)
                     == Count(p.workers, k) + One(KindOf(w) == k)
  {
    forall k { CountUpdate(p.workers, i, w, k); }
  }

  lemma SignalledCounted(p: Pool, i: nat)
    requires Wakeful(p) && i < |p.workers| && p.workers[i] == Signalled
    ensures p.idle > 0
  {
    CountMember(p.workers, KSignalled);
    assert KindOf(p.workers[i]) == KSignalled;
  }

  lemma TakeWakeful(p: Pool, i: nat)
    requires Wakeful(p) && i < |p.workers| && (p.workers[i] == Ready || p.workers[i] == Signalled)
    requires p.workers[i] == Signalled ==> p.idle > 0
    ensures Wakeful(TakeWork(p, i))
  {
    WorkerMoves(p, i, TakeWork(p, i).workers[i]);
    CountTotal(p.workers);
  }

  /** A move inside the active states changes nothing the invariant looks at. */
  lemma ActiveWakeful(p: Pool, i: nat, w: Worker)
    requires Wakeful(p) && i < |p.workers| && KindOf(p.workers[i]) == KActive
    requires KindOf(w) == KActive || KindOf(w) == KFailed
    ensures Wakeful(Become(p, i, w))
  {
    WorkerMoves(p, i, w);
  }

  lemma SpuriousWakeful(p: Pool, i: nat)
    requires Wakeful(p) && i < |p.workers| && p.workers[i] == Waiting
    ensures Wakeful(Become(p, i, Signalled))
  {
    WorkerMoves(p, i, Signalled);
  }

  /** A worker that can still take or finish work. */
  predicate Alert(w: Worker) {
    w.Starting? || w.Ready? || w.Signalled? || w.Busy?
  }

  /** With no failed worker, a non-empty queue always has somebody awake to empty it. */
  lemma QueueIsServed(p: Pool)
    requires Wakeful(p) && !p.stopped && p.queue != [] && |p.workers| > 0
    requires Count(p.workers, KFailed) == 0 && Count(p.workers, KStopped) == 0
    ensures exists i :: 0 <= i < |p.workers| && Alert(p.workers[i])
  {
    CountTotal(p.workers);
    CountMember(p.workers, KActive);
    CountMember(p.workers, KSignalled);
    var k := if Count(p.workers, KActive) > 0 then KActive else KSignalled;
    var i :| 0 <= i < |p.workers| && KindOf(p.workers[i]) == k;
    assert Alert(p.workers[i]);
  }

  // ---------------------------------------------------------------- held jobs

  predicate Holds(w: Worker, id: nat) {
    w.Busy? && w.job == id
  }

  function BusyCount(ws: seq<Worker>, id: nat): nat {
    if ws == [] then 0 else One(Holds(ws[0], id)) + BusyCount(ws[1..], id)
  }

  /** How often a job is held: still queued, or in the hands of a worker. */
  function HeldCount(p: Pool, id: nat): nat {
    multiset(p.queue)[Job(id)] + BusyCount(p.workers, id)
  }

  lemma {:induction false} BusyUpdate(ws: seq<Worker>, i: nat, w: Worker, id: nat)
    requires i < |ws|
    ensures BusyCount(ws[i := w], id) + One(Holds(ws[i], id)) == BusyCount(ws, id) + One(Holds(w, id))
  {
    if i == 0 {
      assert ws[0 := w][1..] == ws[1..];
    } else {
      BusyUpdate(ws[1..], i - 1, w, id);
      assert ws[i := w][1..] == ws[1..][i - 1 := w];
    }
  }

  lemma {:induction false} WakeBusy(ws: seq<Worker>, woken: set<nat>, id: nat)
    ensures BusyCount(Wake(ws, woken), id) == BusyCount(ws, id)
  {
    if ws != [] {
      WakeBusy(ws[1..], Shift(woken), id);
      WakeTail(ws, woken);
    }
  }

  lemma {:induction false} BusyMember(ws: seq<Worker>, id: nat)
    ensures BusyCount(ws, id) > 0 <==> exists i :: 0 <= i < |ws| && Holds(ws[i], id)
  {
    if ws != [] {
      BusyMember(ws[1..], id);
      if i :| 0 <= i < |ws[1..]| && Holds(ws[1..][i], id) {
        assert Holds(ws[i + 1], id);
      }
      if i :| 0 <= i < |ws| && Holds(ws[i], id) {
        assert i == 0 || Holds(ws[1..][i - 1], id);
      }
    }
  }

  /** A job held once is in the hands of at most one worker, and then not in the queue. */
  lemma SoleHolder(p: Pool, i: nat)
    requires i < |p.workers| && p.workers[i].Busy?
    requires HeldCount(p, p.workers[i].job) <= 1
    ensures Job(p.workers[i].job) !in p.queue
    ensures forall j :: 0 <= j < |p.workers| && j != i ==> !Holds(p.workers[j], p.workers[i].job)
  {
    var id := p.workers[i].job;
    BusyUpdate(p.workers, i, Ready, id);
    BusyMember(p.workers[i := Ready], id);
    forall j | 0 <= j < |p.workers| && j != i
      ensures !Holds(p.workers[j], id)
    {
      assert p.workers[i := Ready][j] == p.workers[j];
    }
  }

  lemma BecomeHeld(p: Pool, i: nat, w: Worker, id: nat)
    requires i < |p.workers|
    ensures HeldCount(Become(p, i, w), id) + One(Holds(p.workers[i], id)) == HeldCount(p, id) + One(Holds(w, id))
  {
    BusyUpdate(p.workers, i, w, id);
  }

  lemma TakeHeld(p: Pool, i: nat, id: nat)
    requires i < |p.workers| && (p.workers[i] == Ready || p.workers[i] == Signalled)
    requires p.workers[i] == Signalled ==> p.idle > 0
    ensures HeldCount(TakeWork(p, i), id) == HeldCount(p, id)
  {
    BusyUpdate(p.workers, i, TakeWork(p, i).workers[i], id);
    if p.queue != [] {
      assert p.queue == [p.queue[0]] + p.queue[1..];
    }
  }

  lemma SubmitHeld(p: Pool, job: nat, woken: set<nat>, id: nat)
    requires SubmitError(p) == 0 && SignalChoice(Queued(p, job), woken)
    ensures HeldCount(Submit(p, job, woken), id) == HeldCount(p, id) + One(id == job)
  {
    WakeBusy(p.workers, woken, id);
  }

  // ---------------------------------------------------------------- remaining work

  function PhaseWork(f: Phase): nat {
    match f
    case Got => 5
    case Computed => 4
    case Firing(_) => 3
    case Notifying => 2
    case Publishing => 1
  }

  function WorkerWork(w: Worker): nat {
    match w
    case Starting => 1
    case Busy(_, f) => PhaseWork(f)
    case _ => 0
  }

  function WorkSum(ws: seq<Worker>): nat {
    if ws == [] then 0 else WorkerWork(ws[0]) + WorkSum(ws[1..])
  }

  /** Work left before every job is finished; no step of a worker raises it. */
  function Work(p: Pool): nat {
    6 * |p.queue| + WorkSum(p.workers)
  }

  lemma {:induction false} WorkUpdate(ws: seq<Worker>, i: nat, w: Worker)
    requires i < |ws|
    ensures WorkSum(ws[i := w]) + WorkerWork(ws[i]) == WorkSum(ws) + WorkerWork(w)
  {
    if i == 0 {
      assert ws[0 := w][1..] == ws[1..];
    } else {
      WorkUpdate(ws[1..], i - 1, w);
      assert ws[i := w][1..] == ws[1..][i - 1 := w];
    }
  }
}
