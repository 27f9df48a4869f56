/** Whole runs of the pool: every interleaving of one submitter, the workers and the shutdown. */
module PoolRuns {
  import opened Pools
  import opened Config

  datatype Action =
    | Accept(id: nat, woken: set<nat>)
    | Start(i: nat)
    | StartFail(i: nat, err: nat)
    | Take(i: nat)
    | Spurious(i: nat)
    | Advance(i: nat, phase: Phase)
    | Finish(i: nat)
    | Shutdown

  /** The pool with the submissions it accepted, those its workers finished, and those a shutdown failed. */
  datatype Run = Run(pool: Pool, accepted: multiset<nat>, done: multiset<nat>, failed: multiset<nat>)

  function Init(n: nat, size: nat): Run {
    Run(Pool([], size, seq(n, _ => Starting), 0, false, 0), multiset{}, multiset{}, multiset{})
  }

  function JobIds(queue: seq<Item>): seq<nat> {
    if queue == [] then []
    else (if queue[0].Job? then [queue[0].id] else []) + JobIds(queue[1..])
  }

  lemma {:induction false} JobIdsCount(queue: seq<Item>, id: nat)
    ensures multiset(JobIds(queue))[id] == multiset(queue)[Job(id)]
  {
    if queue != [] {
      JobIdsCount(queue[1..], id);
      assert queue == [queue[0]] + queue[1..];
    }
  }

  predicate WorkerIs(p: Pool, i: nat, w: Worker) {
    i < |p.workers| && p.workers[i] == w
  }

  /** `mayFail` are the workers whose digest_create() may fail. */
  predicate Enabled(r: Run, a: Action, mayFail: set<nat>) {
    var p := r.pool;
    match a
    case Accept(id, woken) => id !in r.accepted && SubmitError(p) == 0 && SignalChoice(Queued(p, id), woken)
    case Start(i) => WorkerIs(p, i, Starting)
    case StartFail(i, err) => WorkerIs(p, i, Starting) && i in mayFail && err != 0
    case Take(i) => WorkerIs(p, i, Ready) || (WorkerIs(p, i, Signalled) && p.idle > 0)
    case Spurious(i) => WorkerIs(p, i, Waiting)
    case Advance(i, f) => i < |p.workers| && p.workers[i].Busy? && PhaseWork(f) < PhaseWork(p.workers[i].phase)
    case Finish(i) => i < |p.workers| && p.workers[i].Busy? && p.workers[i].phase == Publishing
    case Shutdown => !p.stopped
  }

  function Next(r: Run, a: Action, mayFail: set<nat>): Run
    requires Enabled(r, a, mayFail)
  {
    var p := r.pool;
    match a
    case Accept(id, woken) => r.(pool := Submit(p, id, woken), accepted := r.accepted + multiset{id})
    case Start(i) => r.(pool := Become(p, i, Ready))
    case StartFail(i, err) =>
      r.(pool := Become(p, i, Exited(true)).(error := if p.error == 0 then err else p.error))
    case Take(i) => r.(pool := TakeWork(p, i))
    case Spurious(i) => r.(pool := Become(p, i, Signalled))
    case Advance(i, f) => r.(pool := Become(p, i, p.workers[i].(phase := f)))
    case Finish(i) => r.(pool := Become(p, i, Ready), done := r.done + multiset{p.workers[i].job})
    case Shutdown => r.(pool := StopAll(p), failed := r.failed + multiset(JobIds(p.queue)))
  }

  ghost predicate Legal(r: Run, acts: seq<Action>, mayFail: set<nat>)
    decreases acts
  {
    acts == [] || (Enabled(r, acts[0], mayFail) && Legal(Next(r, acts[0], mayFail), acts[1..], mayFail))
  }

  function Exec(r: Run, acts: seq<Action>, mayFail: set<nat>): Run
    requires Legal(r, acts, mayFail)
    decreases acts
  {
    if acts == [] then r else Exec(Next(r, acts[0], mayFail), acts[1..], mayFail)
  }

  // ---------------------------------------------------------------- invariant of every run

  /** Every accepted submission is in exactly one place: held, finished, or failed. */
  ghost predicate Conserved(r: Run) {
    forall id: nat :: ConservedAt(r, id)
  }

  ghost predicate ConservedAt(r: Run, id: nat) {
    r.accepted[id] == HeldCount(r.pool, id) + r.done[id] + r.failed[id] <= 1
  }

  /** After a shutdown the queue holds one STOP for every worker that has not taken one. */
  ghost predicate Tokens(p: Pool) {
    if p.stopped then
      && (forall k :: 0 <= k < |p.queue| ==> p.queue[k] == Stop)
      && |p.queue| + Count(p.workers, KStopped) == |p.workers|
      && Count(p.workers, KWaiting) == 0
    else
      && Stop !in p.queue
      && Count(p.workers, KStopped) == 0
  }

  ghost predicate Failures(p: Pool, mayFail: set<nat>) {
    forall i :: 0 <= i < |p.workers| && p.workers[i] == Exited(true) ==> i in mayFail
  }

  /** The ring is not overfull, unless there are more STOP tokens than slots. */
  ghost predicate Fits(p: Pool) {
    |p.queue| <= p.size || (p.stopped && |p.queue| <= |p.workers|)
  }

  ghost predicate RunInv(r: Run, mayFail: set<nat>) {
    Wakeful(r.pool) && Conserved(r) && Tokens(r.pool) && Failures(r.pool, mayFail) && Fits(r.pool)
  }

  lemma {:induction false} AllStarting(n: nat, k: Kind)
    ensures Count(seq(n, _ => Starting), k) == if k == KActive then n else 0
  {
    if n > 0 {
      AllStarting(n - 1, k);
      assert seq(n, _ => Starting)[1..] == seq(n - 1, _ => Starting);
    }
  }

  lemma InitInv(n: nat, size: nat, mayFail: set<nat>)
    ensures RunInv(Init(n, size), mayFail)
  {
    forall k
      ensures Count(Init(n, size).pool.workers, k) == if k == KActive then n else 0
    {
      AllStarting(n, k);
    }
    forall id: nat
      ensures HeldCount(Init(n, size).pool, id) == 0
    {
      BusyMember(Init(n, size).pool.workers, id);
    }
  }

  lemma NextConservedAt(r: Run, a: Action, mayFail: set<nat>, id: nat)
    requires ConservedAt(r, id) && Enabled(r, a, mayFail)
    ensures ConservedAt(Next(r, a, mayFail), id)
  {
    var p := r.pool;
    match a
    case Accept(job, woken) => SubmitHeld(p, job, woken, id);
    case Start(i) => BecomeHeld(p, i, Ready, id);
    case StartFail(i, err) => BecomeHeld(p, i, Exited(true), id);
    case Take(i) => TakeHeld(p, i, id);
    case Spurious(i) => BecomeHeld(p, i, Signalled, id);
    case Advance(i, f) => BecomeHeld(p, i, p.workers[i].(phase := f), id);
    case Finish(i) => BecomeHeld(p, i, Ready, id);
    case Shutdown =>
      WakeBusy(p.workers, WaitingSet(p.workers), id);
      JobIdsCount(p.queue, id);
  }

  lemma NextConserved(r: Run, a: Action, mayFail: set<nat>)
    requires Conserved(r) && Enabled(r, a, mayFail)
    ensures Conserved(Next(r, a, mayFail))
  {
    forall id: nat
      ensures ConservedAt(Next(r, a, mayFail), id)
    {
      NextConservedAt(r, a, mayFail, id);
    }
  }

  lemma WakeEverybody(ws: seq<Worker>)
    ensures Count(Wake(ws, WaitingSet(ws)), KWaiting) == 0
  {
    CountMember(Wake(ws, WaitingSet(ws)), KWaiting);
  }

  /** A live worker never finds the queue of a stopped pool empty. */
  lemma TokenLeft(p: Pool, i: nat)
    requires Tokens(p) && p.stopped && i < |p.workers| && !p.workers[i].Exited?
    ensures p.queue != [] && p.queue[0] == Stop
  {
    CountTotal(p.workers);
    var k := KindOf(p.workers[i]);
    CountMember(p.workers, k);
    assert Count(p.workers, k) > 0;
  }

  lemma MoveTokens(p: Pool, i: nat, w: Worker)
    requires Tokens(p) && i < |p.workers| && KindOf(p.workers[i]) == KActive
    requires KindOf(w) == KActive || KindOf(w) == KFailed
    ensures Tokens(Become(p, i, w))
  {
    WorkerMoves(p, i, w);
  }

  lemma TakeTokens(p: Pool, i: nat)
    requires Tokens(p) && i < |p.workers| && (p.workers[i] == Ready || p.workers[i] == Signalled)
    requires p.workers[i] == Signalled ==> p.idle > 0
    ensures Tokens(TakeWork(p, i))
  {
    WorkerMoves(p, i, TakeWork(p, i).workers[i]);
    if p.stopped {
      TokenLeft(p, i);
    } else if p.queue != [] {
      assert p.queue[0] in p.queue;
    }
  }

  lemma NextTokens(r: Run, a: Action, mayFail: set<nat>)
    requires Tokens(r.pool) && Enabled(r, a, mayFail)
    ensures Tokens(Next(r, a, mayFail).pool)
  {
    var p := r.pool;
    match a
    case Accept(job, woken) => WakeCounts(p.workers, woken);
    case Start(i) => MoveTokens(p, i, Ready);
    case StartFail(i, err) => MoveTokens(p, i, Exited(true));
    case Take(i) => TakeTokens(p, i);
    case Spurious(i) =>
      WorkerMoves(p, i, Signalled);
      CountMember(p.workers, KWaiting);
      assert KindOf(p.workers[i]) == KWaiting;
    case Advance(i, f) => MoveTokens(p, i, p.workers[i].(phase := f));
    case Finish(i) => MoveTokens(p, i, Ready);
    case Shutdown =>
      WakeCounts(p.workers, WaitingSet(p.workers));
      WakeEverybody(p.workers);
  }

  lemma NextFailures(r: Run, a: Action, mayFail: set<nat>)
    requires Failures(r.pool, mayFail) && Enabled(r, a, mayFail)
    ensures Failures(Next(r, a, mayFail).pool, mayFail)
  {
  }

  lemma NextFits(r: Run, a: Action, mayFail: set<nat>)
    requires Fits(r.pool) && Enabled(r, a, mayFail)
    ensures Fits(Next(r, a, mayFail).pool)
  {
  }

  lemma NextWakeful(r: Run, a: Action, mayFail: set<nat>)
    requires RunInv(r, mayFail) && Enabled(r, a, mayFail)
    ensures Wakeful(Next(r, a, mayFail).pool)
  {
    var p := r.pool;
    match a
    case Accept(job, woken) => SubmitWakeful(p, job, woken);
    case Start(i) => ActiveWakeful(p, i, Ready);
    case StartFail(i, err) => ActiveWakeful(p, i, Exited(true));
    case Take(i) => TakeWakeful(p, i);
    case Spurious(i) => SpuriousWakeful(p, i);
    case Advance(i, f) => ActiveWakeful(p, i, p.workers[i].(phase := f));
    case Finish(i) => ActiveWakeful(p, i, Ready);
    case Shutdown =>
      WakeCounts(p.workers, WaitingSet(p.workers));
      WakeEverybody(p.workers);
  }

  lemma NextInv(r: Run, a: Action, mayFail: set<nat>)
    requires RunInv(r, mayFail) && Enabled(r, a, mayFail)
    ensures RunInv(Next(r, a, mayFail), mayFail)
  {
    NextWakeful(r, a, mayFail);
    NextConserved(r, a, mayFail);
    NextTokens(r, a, mayFail);
    NextFailures(r, a, mayFail);
    NextFits(r, a, mayFail);
  }

  /** The invariant holds after every run from every state that satisfies it. */
  lemma {:induction false} ExecInv(r: Run, acts: seq<Action>, mayFail: set<nat>)
    requires RunInv(r, mayFail) && Legal(r, acts, mayFail)
    ensures RunInv(Exec(r, acts, mayFail), mayFail)
    decreases acts
  {
    if acts != [] {
      NextInv(r, acts[0], mayFail);
      ExecInv(Next(r, acts[0], mayFail), acts[1..], mayFail);
    }
  }

  // ---------------------------------------------------------------- wake-up safety

  /** Work is queued and nothing the code does brings a worker to it: all sleep unsignalled or are gone, and
      unless one wakes for no reason or more work is submitted, nobody looks. */
  ghost predicate Stuck(p: Pool) {
    && !p.stopped && p.queue != []
    && forall i :: 0 <= i < |p.workers| ==> !Alert(p.workers[i])
  }

  ghost predicate NeverStuck(n: nat, size: nat, mayFail: set<nat>) {
    forall acts :: Legal(Init(n, size), acts, mayFail) ==> !Stuck(Exec(Init(n, size), acts, mayFail).pool)
  }

  lemma {:induction false} ExecWorkers(r: Run, acts: seq<Action>, mayFail: set<nat>)
    requires Legal(r, acts, mayFail)
    ensures |Exec(r, acts, mayFail).pool.workers| == |r.pool.workers|
    ensures Exec(r, acts, mayFail).pool.size == r.pool.size
    decreases acts
  {
    if acts != [] {
      ExecWorkers(Next(r, acts[0], mayFail), acts[1..], mayFail);
    }
  }

  lemma NoFailureNotStuck(n: nat, size: nat, acts: seq<Action>)
    requires n > 0 && Legal(Init(n, size), acts, {})
    ensures !Stuck(Exec(Init(n, size), acts, {}).pool)
  {
    var r := Init(n, size);
    InitInv(n, size, {});
    ExecInv(r, acts, {});
    ExecWorkers(r, acts, {});
    var p := Exec(r, acts, {}).pool;
    CountMember(p.workers, KFailed);
    if !p.stopped && p.queue != [] {
      QueueIsServed(p);
    }
  }

  /** All workers below k, except f, sleep; the others have not started. */
  function Asleep(n: nat, size: nat, f: nat, k: nat): Run
    requires f < n && k <= n
  {
    Run(Pool([], size, seq(n, i => if i < k && i != f then Waiting else Starting),
             if f < k then k - 1 else k, false, 0), multiset{}, multiset{}, multiset{})
  }

  lemma {:induction false} ExecAppend(r: Run, a: seq<Action>, b: seq<Action>, mayFail: set<nat>)
    requires Legal(r, a, mayFail) && Legal(Exec(r, a, mayFail), b, mayFail)
    ensures Legal(r, a + b, mayFail)
    ensures Exec(r, a + b, mayFail) == Exec(Exec(r, a, mayFail), b, mayFail)
    decreases a
  {
    hide Next, Enabled;
    if a == [] {
      assert a + b == b;
    } else {
      var c, r' := a + b, Next(r, a[0], mayFail);
      assert c[0] == a[0] && c[1..] == a[1..] + b;
      assert Legal(r', a[1..], mayFail) && Exec(r, a, mayFail) == Exec(r', a[1..], mayFail);
      ExecAppend(r', a[1..], b, mayFail);
      assert Legal(r', c[1..], mayFail);
    }
  }

  lemma ExecTwo(r: Run, a: Action, b: Action, mayFail: set<nat>)
    requires Enabled(r, a, mayFail) && Enabled(Next(r, a, mayFail), b, mayFail)
    ensures Legal(r, [a, b], mayFail)
    ensures Exec(r, [a, b], mayFail) == Next(Next(r, a, mayFail), b, mayFail)
  {
    var r' := Next(r, a, mayFail);
    assert [a, b][1..] == [b] && [b][1..] == [];
    assert Legal(Next(r', b, mayFail), [], mayFail);
    assert Legal(r', [b], mayFail);
    assert Exec(r', [b], mayFail) == Exec(Next(r', b, mayFail), [], mayFail);
  }

  lemma SleepOne(n: nat, size: nat, f: nat, k: nat, mayFail: set<nat>)
    requires f < n && k < n && k != f
    ensures Legal(Asleep(n, size, f, k), [Start(k), Take(k)], mayFail)
    ensures Exec(Asleep(n, size, f, k), [Start(k), Take(k)], mayFail) == Asleep(n, size, f, k + 1)
  {
    var r0 := Asleep(n, size, f, k);
    var r1 := Next(r0, Start(k), mayFail);
    var r2 := Next(r1, Take(k), mayFail);
    assert r2.pool.workers == Asleep(n, size, f, k + 1).pool.workers;
    ExecTwo(r0, Start(k), Take(k), mayFail);
  }

  lemma {:induction false} PutToSleep(n: nat, size: nat, f: nat, k: nat, mayFail: set<nat>)
      returns (acts: seq<Action>)
    requires f < n && k <= n
    ensures Legal(Init(n, size), acts, mayFail)
    ensures Exec(Init(n, size), acts, mayFail) == Asleep(n, size, f, k)
  {
    hide Next, Enabled;
    if k == 0 {
      acts := [];
      assert Init(n, size).pool.workers == Asleep(n, size, f, 0).pool.workers;
    } else {
      acts := PutToSleep(n, size, f, k - 1, mayFail);
      if k - 1 == f {
        assert Asleep(n, size, f, k - 1).pool.workers == Asleep(n, size, f, k).pool.workers;
      } else {
        SleepOne(n, size, f, k - 1, mayFail);
        ExecAppend(Init(n, size), acts, [Start(k - 1), Take(k - 1)], mayFail);
        acts := acts + [Start(k - 1), Take(k - 1)];
      }
    }
  }

  /** One late failure strands a submission: the failing worker still counted as active when the job
      was queued, so nobody was signalled. */
  lemma FailureStrands(n: nat, size: nat, f: nat, mayFail: set<nat>) returns (acts: seq<Action>)
    requires f < n && size > 0 && f in mayFail
    ensures Legal(Init(n, size), acts, mayFail)
    ensures Stuck(Exec(Init(n, size), acts, mayFail).pool)
  {
    acts := PutToSleep(n, size, f, n, mayFail);
    var r := Asleep(n, size, f, n);
    var last := [Accept(0, {}), StartFail(f, 1)];
    var r1 := Next(r, last[0], mayFail);
    assert r1.pool.workers == r.pool.workers;
    var r2 := Next(r1, last[1], mayFail);
    ExecTwo(r, last[0], last[1], mayFail);
    ExecAppend(Init(n, size), acts, last, mayFail);
    acts := acts + last;
    assert Stuck(r2.pool);
  }

  /** The lazy signalling rule never strands a submission, on any interleaving, exactly when every
      worker gets past digest_create(). */
  lemma NeverStuckExactly(n: nat, size: nat, mayFail: set<nat>)
    requires n > 0 && size > 0 && forall i :: i in mayFail ==> i < n
    ensures NeverStuck(n, size, mayFail) <==> mayFail == {}
  {
    if mayFail == {} {
      forall acts | Legal(Init(n, size), acts, mayFail)
        ensures !Stuck(Exec(Init(n, size), acts, mayFail).pool)
      {
        NoFailureNotStuck(n, size, acts);
      }
    } else {
      var f :| f in mayFail;
      var acts := FailureStrands(n, size, f, mayFail);
    }
  }

  // ---------------------------------------------------------------- shutdown

  function Live(p: Pool): nat {
    Count(p.workers, KActive) + Count(p.workers, KWaiting) + Count(p.workers, KSignalled)
  }

  /** Steps left after a shutdown. */
  function Rank(p: Pool): nat {
    WorkSum(p.workers) + Live(p)
  }

  ghost predicate AllExited(p: Pool) {
    forall i :: 0 <= i < |p.workers| ==> p.workers[i].Exited?
  }

  /** The step a live worker of a stopped pool can take. */
  function NextStep(p: Pool, i: nat): Action
    requires i < |p.workers| && !p.workers[i].Exited?
  {
    match p.workers[i]
    case Starting => Start(i)
    case Busy(_, Publishing) => Finish(i)
    case Busy(_, _) => Advance(i, Publishing)
    case _ => Take(i)
  }

  lemma NoneWaiting(p: Pool)
    requires Count(p.workers, KWaiting) == 0
    ensures forall i :: 0 <= i < |p.workers| ==> p.workers[i] != Waiting
  {
    CountMember(p.workers, KWaiting);
    forall i | 0 <= i < |p.workers|
      ensures p.workers[i] != Waiting
    {
      assert KindOf(p.workers[i]) != KWaiting;
    }
  }

  lemma StoppedTake(p: Pool, i: nat)
    requires Tokens(p) && p.stopped && i < |p.workers| && (p.workers[i] == Ready || p.workers[i] == Signalled)
    requires p.workers[i] == Signalled ==> p.idle > 0
    ensures Rank(TakeWork(p, i)) < Rank(p) && TakeWork(p, i).stopped
  {
    TokenLeft(p, i);
    WorkerMoves(p, i, Exited(false));
    WorkUpdate(p.workers, i, Exited(false));
  }

  /** After a shutdown no worker waits, every live worker can move, and every move counts down. */
  lemma StoppedStep(r: Run, a: Action, mayFail: set<nat>)
    requires RunInv(r, mayFail) && r.pool.stopped && Enabled(r, a, mayFail)
    ensures Rank(Next(r, a, mayFail).pool) < Rank(r.pool)
    ensures Next(r, a, mayFail).pool.stopped && Next(r, a, mayFail).failed == r.failed
    ensures Next(r, a, mayFail).accepted == r.accepted
  {
    hide Conserved, Failures, Fits, TakeWork;
    var p := r.pool;
    NoneWaiting(p);
    match a
    case Start(i) => WorkerMoves(p, i, Ready); WorkUpdate(p.workers, i, Ready);
    case StartFail(i, err) => WorkerMoves(p, i, Exited(true)); WorkUpdate(p.workers, i, Exited(true));
    case Take(i) => StoppedTake(p, i);
    case Spurious(i) => assert false;
    case Advance(i, f) =>
      WorkerMoves(p, i, p.workers[i].(phase := f));
      WorkUpdate(p.workers, i, p.workers[i].(phase := f));
    case Finish(i) => WorkerMoves(p, i, Ready); WorkUpdate(p.workers, i, Ready);
  }

  lemma LiveWorkerMoves(r: Run, i: nat, mayFail: set<nat>)
    requires RunInv(r, mayFail) && r.pool.stopped && i < |r.pool.workers| && !r.pool.workers[i].Exited?
    ensures r.pool.workers[i] != Waiting
    ensures Enabled(r, NextStep(r.pool, i), mayFail)
  {
    var p := r.pool;
    NoneWaiting(p);
    if p.workers[i] == Signalled {
      SignalledCounted(p, i);
    }
  }

  lemma {:induction false} ExitedTotal(ws: seq<Worker>)
    requires forall i :: 0 <= i < |ws| ==> ws[i].Exited?
    ensures Count(ws, KStopped) + Count(ws, KFailed) == |ws|
  {
    if ws != [] {
      ExitedTotal(ws[1..]);
    }
  }

  /** Every schedule after a shutdown is finite; a schedule that cannot go on has every worker gone,
      one STOP left for each that had failed, and every accepted submission finished or failed exactly once. */
  lemma {:induction false} ShutdownEnds(r: Run, acts: seq<Action>, mayFail: set<nat>)
    requires RunInv(r, mayFail) && r.pool.stopped && Legal(r, acts, mayFail)
    ensures |acts| <= Rank(r.pool)
    ensures var e := Exec(r, acts, mayFail);
            (forall a :: !Enabled(e, a, mayFail)) ==>
              && AllExited(e.pool) && |e.pool.queue| == Count(e.pool.workers, KFailed)
              && e.failed == r.failed && e.accepted == r.accepted
              && forall id: nat :: e.accepted[id] == e.done[id] + e.failed[id] <= 1
    decreases acts
  {
    if acts == [] {
      if forall a :: !Enabled(r, a, mayFail) {
        forall i | 0 <= i < |r.pool.workers|
          ensures r.pool.workers[i].Exited?
        {
          if !r.pool.workers[i].Exited? {
            LiveWorkerMoves(r, i, mayFail);
          }
        }
        ExitedTotal(r.pool.workers);
        forall id: nat
          ensures r.accepted[id] == r.done[id] + r.failed[id] <= 1
        {
          assert ConservedAt(r, id);
          BusyMember(r.pool.workers, id);
        }
      }
    } else {
      StoppedStep(r, acts[0], mayFail);
      NextInv(r, acts[0], mayFail);
      ShutdownEnds(Next(r, acts[0], mayFail), acts[1..], mayFail);
    }
  }

  ghost predicate NeverOverflows(n: nat, size: nat, mayFail: set<nat>) {
    forall acts :: Legal(Init(n, size), acts, mayFail) ==> |Exec(Init(n, size), acts, mayFail).pool.queue| <= size
  }

  /** The STOP tokens are pushed without a look at the room left: no run overfills the ring exactly when it has a
      slot for every worker. */
  lemma OverflowsExactly(n: nat, size: nat, mayFail: set<nat>)
    ensures NeverOverflows(n, size, mayFail) <==> n <= size
  {
    if n <= size {
      forall acts | Legal(Init(n, size), acts, mayFail)
        ensures |Exec(Init(n, size), acts, mayFail).pool.queue| <= size
      {
        InitInv(n, size, mayFail);
        ExecInv(Init(n, size), acts, mayFail);
        ExecWorkers(Init(n, size), acts, mayFail);
      }
    } else {
      var acts := [Shutdown];
      assert acts[1..] == [] && Legal(Next(Init(n, size), Shutdown, mayFail), [], mayFail);
      assert |Exec(Init(n, size), acts, mayFail).pool.queue| == n;
    }
  }

  /** With the size the configuration computes, the tokens fit in every run, as long as the depth is within the
      width of the multiplication. */
  lemma TokensFit(depth: nat, n: nat, mayFail: set<nat>)
    requires depth < 0x4000_0000 && n <= MAX_THREADS
    ensures NeverOverflows(n, MaxSubmissions(depth, n), mayFail)
  {
    RingsAreLargeEnough(depth, n);
    OverflowsExactly(n, MaxSubmissions(depth, n), mayFail);
  }

  /** One step beyond that width the size wraps around, and a shutdown of more workers than slots overfills the ring. */
  lemma TokensOverflow(mayFail: set<nat>)
    ensures MaxSubmissions(0x4000_0000, MAX_THREADS) == 32
    ensures !NeverOverflows(MAX_THREADS, MaxSubmissions(0x4000_0000, MAX_THREADS), mayFail)
  {
    OverflowsExactly(MAX_THREADS, MaxSubmissions(0x4000_0000, MAX_THREADS), mayFail);
  }

  /** From any reachable pool: exactly the queued submissions are failed, there is one STOP for every worker, no
      worker ever waits again, and every worker that had not failed takes exactly one token. */
  lemma ShutdownExact(r: Run, acts: seq<Action>, mayFail: set<nat>)
    requires RunInv(r, mayFail) && Enabled(r, Shutdown, mayFail)
    requires Legal(Next(r, Shutdown, mayFail), acts, mayFail)
    ensures var s := Next(r, Shutdown, mayFail);
            var e := Exec(s, acts, mayFail);
            && |s.pool.queue| == |r.pool.workers|
            && s.failed == r.failed + multiset(JobIds(r.pool.queue))
            && (forall i :: 0 <= i < |s.pool.workers| ==> s.pool.workers[i] != Waiting)
            && |e.pool.queue| + Count(e.pool.workers, KStopped) == |e.pool.workers|
            && (forall i :: 0 <= i < |e.pool.workers| ==> e.pool.workers[i] != Waiting)
            && |acts| <= Rank(s.pool)
  {
    var s := Next(r, Shutdown, mayFail);
    NextInv(r, Shutdown, mayFail);
    ShutdownEnds(s, acts, mayFail);
    ExecInv(s, acts, mayFail);
    ExecStopped(s, acts, mayFail);
    var e := Exec(s, acts, mayFail);
    NoneWaiting(s.pool);
    NoneWaiting(e.pool);
  }

  lemma {:induction false} ExecStopped(r: Run, acts: seq<Action>, mayFail: set<nat>)
    requires RunInv(r, mayFail) && r.pool.stopped && Legal(r, acts, mayFail)
    ensures Exec(r, acts, mayFail).pool.stopped
    decreases acts
  {
    if acts != [] {
      StoppedStep(r, acts[0], mayFail);
      NextInv(r, acts[0], mayFail);
      ExecStopped(Next(r, acts[0], mayFail), acts[1..], mayFail);
    }
  }
}
