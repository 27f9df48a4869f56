/** The pool's own code: a ring, a counter and two flags changed with the mutex held.

    Each method is one critical section, and leaves the pool in the state that the transition system
    gives for it.  Where the workers stand is not stored anywhere, so it is a ghost. */
module HashPools {
  import opened Streams
  import opened Pools
  import opened PoolRuns
  import opened Config

  function Failed(ids: seq<nat>): seq<(nat, nat)> {
    seq(|ids|, i requires 0 <= i < |ids| => (ids[i], EIO))
  }

  lemma FailFirst(done: seq<(nat, nat)>, item: Item, rest: seq<Item>)
    ensures done + Failed(JobIds([item] + rest))
         == (done + if item.Job? then [(item.id, EIO)] else []) + Failed(JobIds(rest))
  {
    assert ([item] + rest)[1..] == rest;
    if item.Job? {
      assert Failed(JobIds([item] + rest)) == [(item.id, EIO)] + Failed(JobIds(rest));
    }
  }

  lemma FailNone(done: seq<(nat, nat)>)
    ensures done + Failed(JobIds([])) == done
  {
  }

  /** The slot `k` places behind `head`. */
  function Slot(head: nat, k: nat, size: nat): (at: nat)
    requires size > 0
    ensures at < size && (head + k < size ==> at == head + k)
  {
    (head + k) % size
  }

  lemma SlotSum(head: nat, j: nat, k: nat, size: nat)
    requires size > 0
    ensures Slot(Slot(head, j, size), k, size) == Slot(head, j + k, size)
  {
    var x := head + j;
    var q, r := x / size, x % size;
    var q', r' := (r + k) / size, (r + k) % size;
    assert x + k == size * (q + q') + r';
    Remainder(q + q', size, r');
  }

  /** Less than a whole turn apart are different slots. */
  lemma SlotsApart(head: nat, j: nat, k: nat, size: nat)
    requires j < k < j + size
    ensures Slot(head, j, size) != Slot(head, k, size)
  {
    var x, y := head + j, head + k;
    var a, b := x / size, y / size;
    assert y - x == size * (b - a) + (y % size - x % size);
    if b > a {
      Scaled(b - a, size);
    } else if b < a {
      Scaled(a - b, size);
    }
  }

  /** The ring of the pool.  Nothing keeps a push from going round and overwriting the oldest entries. */
  class JobRing {
    const slots: array<Item>
    var len: nat
    var head: nat
    var tail: nat

    ghost predicate Valid()
      reads this
    {
      0 < slots.Length && head < slots.Length && tail == Slot(head, len, slots.Length)
    }

    /** What successive pops will return. */
    ghost function Contents(): (s: seq<Item>)
      reads this, slots
      requires Valid()
      ensures |s| == len
    {
      seq(len, k requires 0 <= k < len reads this, slots => slots[Slot(head, k, slots.Length)])
    }

    constructor (size: nat)
      requires size > 0
      ensures Valid() && fresh(slots) && slots.Length == size && Contents() == []
    {
      slots := new Item[size](_ => Stop);
      len, head, tail := 0, 0, 0;
    }

    /** Appends, unless it overwrites an entry with another one. */
    method Push(x: Item)
      requires Valid()
      modifies this, slots
      ensures Valid() && len == old(len) + 1
      ensures old(len < slots.Length || forall y :: y in Contents() ==> y == x) ==> Contents() == old(Contents()) + [x]
    {
      hide Slot;
      ghost var before, size := Contents(), slots.Length;
      forall k | 0 <= k < len && len < size
        ensures Slot(head, k, size) != tail
      {
        SlotsApart(head, k, len, size);
      }
      assert forall k :: 0 <= k < len ==> before[k] in before && slots[Slot(head, k, size)] == before[k];
      SlotSum(head, len, 1, size);
      slots[tail] := x;
      tail := Slot(tail, 1, slots.Length);
      len := len + 1;
    }

    method Pop() returns (x: Item)
      requires Valid() && len > 0
      modifies this
      ensures Valid() && old(Contents()) == [x] + Contents()
    {
      hide Slot;
      ghost var before, at, size := Contents(), head, slots.Length;
      x := slots[head];
      head := Slot(head, 1, slots.Length);
      len := len - 1;
      forall k | 0 <= k <= len
        ensures Slot(head, k, size) == Slot(at, 1 + k, size)
      {
        SlotSum(at, 1, k, size);
      }
      assert before == [x] + Contents();
    }
  }

  class HashPool {
    const queue: JobRing
    const workersCount: nat
    var idle: nat
    var stopped: bool
    var error: nat
    ghost var workers: seq<Worker>

    // submissions that the pool itself completed, with the error it gave them
    var refused: seq<(nat, nat)>

    ghost predicate Valid()
      reads this, queue
    {
      && queue.Valid() && workersCount == |workers| && idle <= workersCount
      && (stopped || queue.len <= queue.slots.Length)
    }

    ghost function State(): Pool
      reads this, queue, queue.slots
      requires Valid()
    {
      Pool(queue.Contents(), queue.slots.Length, workers, idle, stopped, error)
    }

    /** An empty pool, of any depth and any number of workers. */
    constructor (queueDepth: nat, count: nat)
      ensures Valid() && fresh(queue) && fresh(queue.slots) && refused == []
      ensures State() == PoolRuns.Init(count, MaxSubmissions(queueDepth, count)).pool
    {
      hide MaxSubmissions;
      queue := new JobRing(MaxSubmissions(queueDepth, count));
      workersCount, idle, stopped, error, refused := count, 0, false, 0, [];
      workers := seq(count, _ => Starting);
    }

    /** Keeps the first error only. */
    method SetError(err: nat)
      requires Valid()
      modifies this`error
      ensures Valid() && State() == old(State()).(error := if old(error) == 0 then err else old(error))
    {
      if error == 0 {
        error := err;
      }
    }

    predicate WakeupNeeded()
      reads this, queue
    {
      idle > 0 && queue.len > workersCount - idle
    }

    /** Queues the submission, or completes it with the error that says why not; sleeping workers are signalled
        only when the queue outgrew the active ones, and then whichever the scheduler picks. */
    method Submit(id: nat, ghost chosen: set<nat>) returns (err: nat, ghost woken: set<nat>)
      requires Valid()
      modifies this`workers, this`refused, queue, queue.slots
      ensures Valid() && err == SubmitError(old(State()))
      ensures err != 0 ==> State() == old(State()) && refused == old(refused) + [(id, err)]
      ensures err == 0 ==> SignalChoice(Queued(old(State()), id), woken) && refused == old(refused)
      ensures err == 0 ==> State() == Pools.Submit(old(State()), id, woken)
      ensures err == 0 && SignalChoice(Queued(old(State()), id), chosen) ==> woken == chosen
    {
      hide Wake, WaitingSet;
      woken := {};
      err := if stopped then EPERM
             else if error != 0 then error
             else if queue.len == queue.slots.Length then ENOBUFS
             else 0;
      if err != 0 {
        refused := refused + [(id, err)];
        return;
      }
      queue.Push(Job(id));
      assert State() == Queued(old(State()), id);
      if WakeupNeeded() {
        woken := if SignalChoice(State(), chosen) then chosen else WaitingSet(workers);
      } else {
        assert SignalChoice(State(), {});
      }
      workers := Wake(workers, woken);
    }

    /** One turn of worker `i` in the wait loop, from taking the mutex to giving it up: the head of the
        queue, or back to sleep with the idle counter raised. */
    method TakeTurn(ghost i: nat, slept: bool) returns (found: bool, item: Item)
      requires Valid() && Wakeful(State()) && i < |workers| && workers[i] == if slept then Signalled else Ready
      requires slept ==> idle > 0
      modifies this`idle, this`workers, queue
      ensures Valid() && State() == TakeWork(old(State()), i)
      ensures found <==> old(State().queue) != []
      ensures found ==> item == old(State().queue[0])
    {
      item := Stop;
      ghost var before := queue.Contents();
      Counted(i);
      if slept {
        idle := idle - 1;
      }
      if queue.len == 0 {
        idle := idle + 1;
        workers := workers[i := Waiting];
        return false, item;
      }
      item := queue.Pop();
      assert before[1..] == queue.Contents();
      found := true;
      workers := workers[i := match item case Job(id) => Busy(id, Got) case Stop => Exited(false)];
    }

    /** The idle counter leaves room for a worker that is awake, and counts one that was signalled. */
    lemma Counted(i: nat)
      requires Valid() && Wakeful(State()) && i < |workers|
      ensures workers[i] == Signalled ==> idle > 0
      ensures workers[i] == Ready ==> idle < workersCount
    {
      CountTotal(workers);
      CountMember(workers, KSignalled);
      CountMember(workers, KActive);
      assert KindOf(workers[i]) == if workers[i] == Signalled then KSignalled else KindOf(workers[i]);
    }

    /** Fails everything that is queued, queues a STOP for every worker, and wakes them all.  Tokens are all the
        same, so it does no harm when there are more of them than slots. */
    method StopWorkers()
      requires Valid()
      modifies this`stopped, this`workers, this`refused, queue, queue.slots
      ensures Valid() && State() == StopAll(old(State()))
      ensures refused == old(refused) + Failed(JobIds(old(State().queue)))
    {
      hide Failed;
      stopped := true;
      FailQueued();
      PushStops();
      workers := Wake(workers, WaitingSet(workers));
    }

    method FailQueued()
      requires Valid()
      modifies this`refused, queue
      ensures Valid() && queue.len == 0 && refused == old(refused) + Failed(JobIds(old(queue.Contents())))
    {
      hide JobRing.Contents, JobIds, Failed;
      ghost var left := queue.Contents();
      while queue.len > 0
        invariant Valid() && queue.Contents() == left
        invariant refused + Failed(JobIds(left)) == old(refused) + Failed(JobIds(old(queue.Contents())))
        decreases queue.len
      {
        var item := queue.Pop();
        left := queue.Contents();
        FailFirst(refused, item, left);
        refused := refused + (if item.Job? then [(item.id, EIO)] else []);
      }
      FailNone(refused);
    }

    method PushStops()
      requires Valid() && stopped && queue.len == 0
      modifies queue, queue.slots
      ensures Valid() && queue.Contents() == seq(workersCount, _ => Stop)
    {
      assert queue.Contents() == seq(0, _ => Stop);
      for i := 0 to workersCount
        invariant Valid() && queue.Contents() == seq(i, _ => Stop)
      {
        queue.Push(Stop);
        assert seq(i, _ => Stop) + [Stop] == seq(i + 1, _ => Stop);
      }
    }
  }
}
