/** The block engine: the object behind the blkhash API.

    The calling thread runs the methods below; before every access to shared state it may be preempted,
    and `Interfere` lets any number of worker steps happen. */
module Engine {
  import opened Streams
  import opened ZeroDetect
  import opened Rings
  import opened Buffers
  import opened Pools
  import opened Shared
  import opened SharedSteps
  import opened SharedCalls
  import opened Ordering
  import opened Views
  import opened Flows
  import opened Courses
  import opened Config

  const EAGAIN: nat := 11
  const EINVAL: nat := 22

  class Blkhash {
    // configuration
    const D: seq<byte> -> seq<byte>
    const bs: nat
    const queueDepth: nat
    const batch: nat
    const zeroMd: seq<byte>
    const fails: nat -> nat     // with which error the digest calls of a submission fail, or 0

    // partial block
    const pending: Buffer

    // submission queue, and everything shared with the workers
    const sq: Ring<nat>
    var world: World
    var nextId: nat
    var nextTicket: nat

    // outer digest and counters
    var outer: seq<byte>
    var blockIndex: nat
    var submittedIndex: nat
    var hashedIndex: nat
    var messageLength: nat
    var inflight: nat
    var error: nat
    var finalized: bool

    // history
    ghost var blocks: seq<seq<byte>>
    ghost var carriers: seq<int>              // the submission of every block, or -1
    ghost var standing: seq<seq<byte>>        // what every block is to the outer digest
    ghost var issued: seq<Issue>
    ghost var live: set<nat>
    ghost var broken: set<nat>                // the updates whose call failed
    ghost var makers: seq<Link>               // the update that every submission was made for
    ghost var delivered: seq<Record>
    ghost var sealed: bool

    ghost function Sp(): Spec
      reads this
    {
      Spec(D, fails, bs, queueDepth, blocks, issued, live, broken)
    }

    ghost predicate Setting()
      reads this`world, sq
    {
      && bs >= 16 && batch > 1 && zeroMd == D(Zeros(bs))
      && sq.Valid() && sq.slots.Length == world.pool.size
    }

    /** The engine as it would be with queue `ids`. */
    ghost function With(ids: seq<nat>): View
      reads this
    {
      View(Sp(), world, ids, nextId, error, !sealed, submittedIndex, hashedIndex, outer, carriers, standing, makers)
    }

    ghost function Ids(): seq<nat>
      reads sq, sq.slots
    {
      if sq.Valid() then sq.Contents() else []
    }

    ghost function Now(): View
      reads this, sq, sq.slots
    {
      With(Ids())
    }

    ghost function Terms(): Rules {
      Rules(fails, bs, batch)
    }

    /** Where the stream stands. */
    ghost function Here(): Course
      reads this, sq, sq.slots
    {
      Course(blockIndex, submittedIndex, nextId, Bad(Now()) == {})
    }

    /** Holds at every point of every call. */
    ghost predicate Core()
      reads this, sq, sq.slots
    {
      Setting() && blockIndex == |blocks| && Good(Now())
    }

    /** A hash with its workers not yet started, an empty queue and nothing pending. */
    constructor (D: seq<byte> -> seq<byte>, fails: nat -> nat, blockSize: nat, threads: nat, queueDepth: nat,
                 batch: nat)
      requires blockSize >= 16 && blockSize % 2 == 0 && 1 <= threads <= MAX_THREADS && batch > 1
      ensures Valid() && this.D == D && this.fails == fails && bs == blockSize && this.queueDepth == queueDepth
      ensures this.batch == batch
      ensures fresh(pending) && fresh(pending.data) && fresh(sq) && fresh(sq.slots)
      ensures error == 0 && !finalized && Message() == [] && issued == [] && live == {} && delivered == []
      ensures !world.draining && world.mem == map[] && pending.len == 0 && inflight == 0 && Here() == START
    {
      hide Good, HistoryOk, Fed, MaxSubmissions, Settled, InitWorld, Core, Ring.Contents;
      var size := MaxSubmissions(queueDepth, threads);
      this.D, this.fails, bs, this.queueDepth, this.batch := D, fails, blockSize, queueDepth, batch;
      zeroMd := D(Zeros(blockSize));
      pending := new Buffer(blockSize);
      sq := new Ring<nat>(size);
      world := InitWorld(size, threads);
      nextId, nextTicket, outer, blockIndex, submittedIndex, hashedIndex := 0, 0, [], 0, 0, 0;
      messageLength, inflight, error, finalized := 0, 0, 0, false;
      blocks, carriers, standing, issued, live, delivered, sealed := [], [], [], [], {}, [], false;
      broken, makers := {}, [];
      new;
      InitParts(size, threads);
      FreshHash(size, threads);
    }

    lemma FreshHash(size: nat, threads: nat)
      requires bs >= 16 && batch > 1 && zeroMd == D(Zeros(bs)) && threads > 0
      requires sq.Valid() && sq.Contents() == [] && sq.slots.Length == size && world == InitWorld(size, threads)
      requires nextId == nextTicket == blockIndex == submittedIndex == hashedIndex == 0
      requires messageLength == inflight == error == 0
      requires blocks == standing == [] && carriers == [] && outer == [] && issued == [] && live == {}
      requires delivered == [] && broken == {} && makers == []
      requires !finalized && !sealed && PendingOk() && pending.len == 0
      ensures Valid() && Message() == [] && Here() == START
    {
      hide Ring.Contents, Good, HistoryOk, Fed, Settled, InitWorld, Bad;
      InitGood(Sp(), size, threads);
      InitParts(size, threads);
      assert Ids() == [];
      assert Now() == InitView(Sp(), size, threads);
      NoneQueued(Now());
      FedFresh();
      Settle();
    }

    lemma FedFresh()
      requires PendingOk() && bs > 0 && pending.len == 0 && blocks == []
      requires blockIndex == submittedIndex == nextId == 0 && batch > 0
      ensures Fed(Message()) && Message() == []
    {
    }

    /** Any number of worker steps, in any order. */
    method Interfere()
      requires Inv(Sp(), world)
      modifies this`world
      ensures Inv(Sp(), world) && Rely(old(world), world) && Lost(world) == old(Lost(world))
    {
      hide Inv, Rely, RunWorker, Runnable, Effort, Lost;
      var steps: nat := *;
      RelyRefl(world);
      while steps > 0
        invariant Inv(Sp(), world) && Rely(old(world), world) && Lost(world) == old(Lost(world))
      {
        var i: nat := *;
        if i < |world.pool.workers| {
          RunWorkerInv(Sp(), world, i);
          LossKept(Sp(), world, i);
          ghost var before := world;
          world := RunWorker(D, fails, bs, queueDepth, world, i);
          RelyTransitive(old(world), before, world);
        }
        steps := steps - 1;
      }
    }

    /** Some worker that has something to do gets to run. */
    method Schedule()
      requires Inv(Sp(), world) && exists i :: CanProgress(world.pool, i)
      modifies this`world
      ensures Inv(Sp(), world) && Rely(old(world), world) && Effort(world) < old(Effort(world))
    {
      var i: nat :| i < |world.pool.workers| && CanProgress(world.pool, i);
      RunWorkerInv(Sp(), world, i);
      world := RunWorker(D, fails, bs, queueDepth, world, i);
    }

    /** Spins until the submission is completed; the wake-up invariant makes the loop end. */
    method Wait(id: nat)
      requires Inv(Sp(), world) && id in world.subs
      modifies this`world
      ensures Inv(Sp(), world) && Rely(old(world), world)
      ensures id in world.subs && world.subs[id].completed
    {
      hide Lost;
      Interfere();
      while !world.subs[id].completed
        invariant Inv(Sp(), world) && Rely(old(world), world) && id in world.subs
        decreases Effort(world)
      {
        ProgressExists(Sp(), world, id);
        label turn:
        Schedule();
        RelyTransitive(old(world), old@turn(world), world);
        label rest:
        Interfere();
        RelyTransitive(old(world), old@rest(world), world);
      }
    }

    method SetError(err: nat)
      modifies this`error
      ensures error == if old(error) == 0 then err else old(error)
    {
      if error == 0 {
        error := err;
      }
    }

    /** Feeds the digest of a zero block for every block up to `index`. */
    method FillZeros(index: nat)
      modifies this`outer, this`hashedIndex
      ensures hashedIndex == if old(hashedIndex) < index then index else old(hashedIndex)
      ensures zeroMd == D(Zeros(bs)) && old(hashedIndex) <= index
              && ZeroRange(standing, bs, old(hashedIndex), index) && old(outer == DigestCat(D, standing[..hashedIndex]))
              ==> outer == DigestCat(D, standing[..index])
    {
      ghost var exact := zeroMd == D(Zeros(bs)) && hashedIndex <= index
                         && ZeroRange(standing, bs, hashedIndex, index)
                         && outer == DigestCat(D, standing[..hashedIndex]);
      while hashedIndex < index
        invariant old(hashedIndex) <= hashedIndex && (hashedIndex <= index || hashedIndex == old(hashedIndex))
        invariant exact ==> hashedIndex <= index && outer == DigestCat(D, standing[..hashedIndex])
      {
        if exact {
          DigestCatNext(D, standing, hashedIndex);
        }
        outer := outer + zeroMd;
        hashedIndex := hashedIndex + 1;
      }
    }

    /** Adds the zero blocks before a completed submission and then the submission itself.
        `rest` is what the queue holds behind it. */
    method HashSubmission(id: nat, ghost rest: seq<nat>) returns (ok: bool)
      requires HeadReady(With([id] + rest), id, rest) && zeroMd == D(Zeros(bs))
      modifies this`outer, this`hashedIndex, this`error
      ensures ok <==> world.subs[id].error == 0
      ensures ok ==> error == old(error) && HeadHashed(old(With([id] + rest)), id, rest, hashedIndex, outer)
      ensures !ok ==> error == if old(error) == 0 then world.subs[id].error else old(error)
      ensures !ok ==> outer == old(outer) && hashedIndex == old(hashedIndex)
    {
      hide HeadHashed, Covers, DigestCat, SubOk;
      ghost var v := With([id] + rest);
      var s := world.subs[id];
      if s.error != 0 {
        SetError(s.error);
        return false;
      }
      FillZeros(s.index);
      HashedHead(v, id, rest, outer);
      if !s.zero {
        outer := outer + s.md;
        hashedIndex := hashedIndex + 1;
      }
      if sealed { ClosedHead(v, id, rest, hashedIndex, outer); }
      ok := true;
    }

    /** Workers run. */
    method Yield()
      requires Core()
      modifies this`world
      ensures Core() && Rely(old(world), world) && Moved(old(Now()), Now(), true) && Bad(Now()) == old(Bad(Now()))
      ensures SameEnd(old(Now()), Now())
    {
      hide Ring.Contents, Good, Inv, IsTight, IsShort, Rely, Moved, Bad, Lost;
      ghost var v := Now();
      GoodInv(v);
      Interfere();
      RelyParts(v.world, world);
      RelyGood(v, world);
      RelyMoved(v, world);
      assert Now() == v.(world := world);
    }

    /** Hashes a completed submission that was taken off the queue, and frees it; a failed one stays allocated
        and its block reads as zeros from now on. */
    method Retire(id: nat, ghost rest: seq<nat>) returns (ok: bool)
      requires Setting() && blockIndex == |blocks| && Ids() == rest && Good(With([id] + rest))
      requires id in world.subs && world.subs[id].completed
      modifies this`world, this`outer, this`hashedIndex, this`error, this`standing
      ensures Core() && world == old(world).(subs := world.subs) && Moved(old(With([id] + rest)), Now(), ok)
      ensures Bad(Now()) == old(Bad(With([id] + rest))) - {id} && (ok <==> id !in old(Bad(With([id] + rest))))
      ensures (ok <==> old(world.subs[id].error) == 0) && (old(Overdue(With([id] + rest))) ==> !ok)
      ensures ok ==> error == old(error) && SameEnd(old(With([id] + rest)), Now())
      ensures !ok ==> error != 0 && (old(error) != 0 ==> error == old(error))
    {
      hide Ring.Contents, Good, Inv, Moved, Bad, Overdue, HeadHashed, HeadReady, IsTight, IsShort;
      ghost var v := With([id] + rest);
      GoodHead(v, id, rest);
      ok := HashSubmission(id, rest);
      if ok {
        FreeHead(id, rest, v);
      } else {
        SkipHead(id, rest, v);
      }
      RetireMoved(v, Now(), id, rest, ok);
    }

    method FreeHead(id: nat, ghost rest: seq<nat>, ghost v: View)
      requires Setting() && blockIndex == |blocks| && Ids() == rest && Good(v) && v.ids == [id] + rest
      requires With(v.ids) == v.(h := hashedIndex, outer := outer) && HeadHashed(v, id, rest, hashedIndex, outer)
      requires id in world.subs && world.subs[id].completed && world.subs[id].error == 0
      modifies this`world
      ensures Core() && Now() == v.(world := Free(v.world, id), ids := rest, h := hashedIndex, outer := outer)
      ensures SameEnd(v, Now())
    {
      hide Ring.Contents, Good, Inv, HeadHashed, IsTight, IsShort;
      RetireGood(v, id, rest, hashedIndex, outer);
      world := Free(world, id);
      assert Now() == v.(world := Free(v.world, id), ids := rest, h := hashedIndex, outer := outer);
    }

    method SkipHead(id: nat, ghost rest: seq<nat>, ghost v: View)
      requires Setting() && blockIndex == |blocks| && Ids() == rest && Good(v) && v.ids == [id] + rest
      requires With(v.ids) == v.(error := error) && error == if v.error == 0 then world.subs[id].error else v.error
      requires id in world.subs && world.subs[id].completed && world.subs[id].error != 0
      modifies this`standing
      ensures Core() && Now() == FailView(v, id, rest)
    {
      hide Ring.Contents, Good, Inv;
      FailGood(v, id, rest);
      standing := FailView(v, id, rest).standing;
      assert Now() == FailView(v, id, rest);
    }

    /** Makes room: when the queue is full, waits for its head and hashes it; fails exactly when the queue is
        full and its head is doomed. */
    method MaybeHashFirst() returns (ok: bool)
      requires Core()
      modifies this`world, this`outer, this`hashedIndex, this`error, this`standing, sq
      ensures Core() && Moved(old(Now()), Now(), ok)
      ensures ok <==> !(old(sq.Full()) && old(HeadDoomed(Now())))
      ensures ok ==> error == old(error) && !sq.Full()
      ensures !ok ==> error != 0 && (old(error) != 0 ==> error == old(error))
      ensures !old(sq.Full()) ==> world == old(world) && sq.len == old(sq.len)
    {
      hide Good, Moved;
      if sq.Full() {
        ok := HashFirst();
      } else {
        ok := true;
        MovedRefl(Now());
      }
    }

    /** Waits for the head of the queue and hashes it; fails exactly when it is doomed. */
    method HashFirst() returns (ok: bool)
      requires Core() && sq.len > 0
      modifies this`world, this`outer, this`hashedIndex, this`error, this`standing, sq
      ensures Core() && Moved(old(Now()), Now(), ok) && sq.len == old(sq.len) - 1
      ensures ok <==> !old(HeadDoomed(Now()))
      ensures ok ==> error == old(error) && SameEnd(old(Now()), Now())
      ensures !ok ==> error != 0 && (old(error) != 0 ==> error == old(error))
    {
      hide Ring.Contents, Inv, Good, IsTight, IsShort, QueueOk, Moved, Rely;
      ghost var v := Now();
      GoodFirst(v);
      var status, id := sq.Pop();
      ghost var rest := sq.Contents();
      GoodInv(v);
      Wait(id);
      RelyParts(v.world, world);
      RelyGood(v, world);
      RelyMoved(v, world);
      assert With([id] + rest) == v.(world := world);
      label done:
      ok := Retire(id, rest);
      MovedThen(v, v.(world := old@done(world)), Now(), ok);
    }

    ghost predicate HeadUnfinished()
      reads this, sq, sq.slots
    {
      Ids() != [] && Ids()[0] in world.subs && !world.subs[Ids()[0]].completed
    }

    /** Hashes completed submissions from the head of the queue until one is not completed. */
    method HashCompleted() returns (ok: bool)
      requires Core()
      modifies this`world, this`outer, this`hashedIndex, this`error, this`standing, sq
      ensures Core() && Moved(old(Now()), Now(), ok) && (old(Overdue(Now())) ==> !ok)
      ensures ok ==> error == old(error) && SameEnd(old(Now()), Now())
      ensures ok ==> sq.len == 0 || HeadUnfinished()
      ensures !ok ==> error != 0 && (old(error) != 0 ==> error == old(error))
    {
      hide Ring.Contents, Good, Inv, Moved, Bad, IsTight, IsShort, Overdue;
      ok := true;
      ghost var v0 := Now();
      MovedRefl(v0);
      while ok && sq.len > 0
        invariant Core() && Moved(v0, Now(), ok)
        invariant ok ==> error == old(error) && SameEnd(old(Now()), Now())
        invariant !ok ==> error != 0 && (old(error) != 0 ==> error == old(error))
        decreases sq.len, ok
      {
        ghost var v := Now();
        var went;
        ok, went := HashHead();
        MovedThen(v0, v, Now(), ok);
        if !went {
          NotOverdue(Now());
          break;
        }
      }
      if ok {
        MovedOverdue(v0, Now());
        OverdueQueued(Now());
      }
    }

    /** Hashes the head of the queue if it is completed. */
    method HashHead() returns (ok: bool, went: bool)
      requires Core() && sq.len > 0
      modifies this`world, this`outer, this`hashedIndex, this`error, this`standing, sq
      ensures Core() && Moved(old(Now()), Now(), ok)
      ensures went ==> sq.len == old(sq.len) - 1
      ensures !went ==> ok && sq.len == old(sq.len) && HeadUnfinished()
      ensures ok ==> error == old(error) && SameEnd(old(Now()), Now())
      ensures !ok ==> error != 0 && (old(error) != 0 ==> error == old(error))
    {
      hide Ring.Contents, Good, Inv, Moved, Bad, IsTight, IsShort, Overdue;
      ghost var v0 := Now();
      Yield();
      ghost var v := Now();
      var id := sq.First();
      GoodFirst(v);
      if !world.subs[id].completed {
        return true, false;
      }
      var status, x := sq.Pop();
      assert With([id] + Ids()) == v;
      ok := Retire(id, Ids());
      went := true;
      MovedThen(v0, v, Now(), ok);
    }

    /** Waits for and hashes everything that is still queued; fails exactly when something in it is doomed. */
    method HashInflight() returns (ok: bool)
      requires Core()
      modifies this`world, this`outer, this`hashedIndex, this`error, this`standing, sq
      ensures Core() && Moved(old(Now()), Now(), ok) && (ok <==> old(Bad(Now())) == {})
      ensures ok ==> error == old(error) && Ids() == [] && SameEnd(old(Now()), Now())
      ensures !ok ==> error != 0 && (old(error) != 0 ==> error == old(error))
    {
      hide Ring.Contents, Good, Inv, Moved, Bad, IsTight, IsShort;
      ok := true;
      ghost var v0 := Now();
      MovedRefl(v0);
      while ok && sq.len > 0
        invariant Core() && Moved(v0, Now(), ok) && nextId == old(nextId)
        invariant ok ==> error == old(error) && SameEnd(old(Now()), Now())
        invariant !ok ==> error != 0 && (old(error) != 0 ==> error == old(error))
        decreases sq.len
      {
        ghost var v := Now();
        ok := HashFirst();
        MovedThen(v0, v, Now(), ok);
      }
      if ok {
        NoneQueued(Now());
      }
      DoomedExactly(v0, Now(), ok);
    }

    /** Queues a marker behind the zero blocks consumed so far. */
    method SubmitZeroBlock() returns (ok: bool)
      requires Core()
      modifies this`world, this`nextId, this`makers, this`submittedIndex, this`outer, this`hashedIndex, this`error,
               this`standing, sq, sq.slots
      ensures Core() && Moved(old(Now()), Now(), ok) && nextId <= old(nextId) + 1
      ensures Follows(old(Here()).(sent := blockIndex, next := old(nextId) + 1), Here(), ok)
      ensures ok ==> error == old(error) && submittedIndex == blockIndex && IsTight(Now())
      ensures !ok ==> error != 0 && (old(error) != 0 ==> error == old(error))
    {
      hide Ring.Contents, Good, Inv, Moved, Flowed, Bad, Overdue, IsTight, IsShort, HeadDoomed;
      ghost var v0 := Now();
      ok := MaybeHashFirst();
      ghost var v1 := Now();
      if !ok {
        FailedFlow(v0, v1);
        return;
      }
      PushMarker();
      ghost var v2 := Now();
      ok := HashCompleted();
      SubmitMoved(v0, v1, v2, Now(), ok);
      SubmitFine(v0, v1, v2, Now(), ok);
    }

    method PushMarker()
      requires Core() && !sq.Full()
      modifies this`world, this`nextId, this`makers, this`submittedIndex, sq, sq.slots
      ensures Core() && Flowed(old(Now()), Now(), true) && Bad(Now()) == old(Bad(Now())) && nextId == old(nextId) + 1
      ensures (old(Overdue(Now())) ==> Overdue(Now())) && submittedIndex == blockIndex && IsTight(Now())
    {
      hide Ring.Contents, Good, Inv, IsTight, IsShort, Flowed, Bad, Overdue;
      ghost var v := Now();
      MarkerGood(v);
      MarkerFlowed(v);
      ghost var v' := MarkerView(v);
      var id := nextId;
      nextId := nextId + 1;
      var status := sq.Push(id);
      assert status == Ok && Ids() == v'.ids;
      makers := makers + [Made(world.caller)];
      world := AddMarker(world, id, blockIndex);
      submittedIndex := blockIndex;
      assert Now() == v';
    }

    /** A block for the pool: `block` is what its submission will be hashed as. */
    ghost predicate Submittable(data: Data, link: Link, block: seq<byte>)
      reads this
    {
      && !data.NoData? && Content(world.mem, NewData(blockIndex, data, link)) == block
      && link == Made(world.caller)
      && (data.User? ==> link.Link? && link.ticket < |issued| && issued[link.ticket].buf == data.buf)
    }

    /** Queues one block and hands it to the workers. */
    method SubmitDataBlock(data: Data, link: Link, ghost block: seq<byte>) returns (ok: bool)
      requires Core() && Submittable(data, link, block)
      modifies this`world, this`nextId, this`makers, this`blockIndex, this`submittedIndex, this`blocks, this`carriers,
               this`standing, this`outer, this`hashedIndex, this`error, sq, sq.slots
      ensures Core() && Moved(old(Now()), Now(), ok) && nextId <= old(nextId) + 1
      ensures Follows(old(Course(blockIndex + 1, blockIndex, nextId + 1,
                                 Bad(Now()) == {} && BlockDue(Now(), data, block) == 0)), Here(), ok)
      ensures ok ==> error == old(error) && blocks == old(blocks) + [block] && submittedIndex + 1 == blockIndex
                     && (block != Zeros(bs) ==> IsTight(Now()))
      ensures !ok ==> error != 0 && (old(error) != 0 ==> error == old(error))
                      && GrewBy(old(blocks), blocks, block)
    {
      hide Core, Moved, Flowed, Bad, Overdue, Submittable, IsTight, IsShort;
      ghost var v0 := Now();
      ok := MakeRoom(data, link, block);
      ghost var v1 := Now();
      if !ok {
        FailedFlow(v0, v1);
        return;
      }
      PushData(data, link, block);
      ghost var v2 := Now();
      ok := HashCompleted();
      SubmitMoved(v0, v1, v2, Now(), ok);
      SubmitFine(v0, v1, v2, Now(), ok);
    }

    method MakeRoom(data: Data, link: Link, ghost block: seq<byte>) returns (ok: bool)
      requires Core() && Submittable(data, link, block)
      modifies this`world, this`outer, this`hashedIndex, this`error, this`standing, sq
      ensures Core() && Moved(old(Now()), Now(), ok)
      ensures ok ==> error == old(error) && !sq.Full() && Submittable(data, link, block)
      ensures !ok ==> error != 0 && (old(error) != 0 ==> error == old(error))
    {
      hide Core, Moved, Rely, Content, IsTight, IsShort, Bad, HeadDoomed;
      ghost var v0 := Now();
      ok := MaybeHashFirst();
      if !ok { return; }
      ghost var v1 := Now();
      Yield();
      MovedThen(v0, v1, Now(), true);
      MovedParts(v0, Now(), true);
    }

    method PushData(data: Data, link: Link, ghost block: seq<byte>)
      requires Core() && !sq.Full() && Submittable(data, link, block)
      modifies this`world, this`nextId, this`makers, this`blockIndex, this`submittedIndex, this`blocks, this`carriers,
               this`standing, sq, sq.slots
      ensures Core() && Flowed(old(Now()), Now(), true) && nextId == old(nextId) + 1
      ensures Bad(Now()) == old(Bad(Now()) + (if BlockDue(Now(), data, block) == 0 then {} else {nextId}))
      ensures (old(Overdue(Now())) ==> Overdue(Now())) && (block != Zeros(bs) ==> IsTight(Now()))
      ensures blocks == old(blocks) + [block] && submittedIndex + 1 == blockIndex == old(blockIndex) + 1
    {
      hide Ring.Contents, Good, Inv, IsTight, SignalChoice, SubmitError, SubmitData, Content, Flowed, Bad, Overdue;
      hide BlockDue, IsShort;
      ghost var v := Now();
      var s := NewData(blockIndex, data, link);
      GoodHasRoom(v);
      var woken := ChooseWoken(Queued(world.pool, nextId));
      DataGood(v, s, block, woken);
      DataFlowed(v, s, block, woken);
      var status := sq.Push(nextId);
      assert status == Ok && Ids() == v.ids + [nextId] && With(v.ids) == v;
      StoreData(s, woken, v.ids, block);
    }

    /** The queued submission goes to the pool, and the indices move on. */
    method StoreData(s: Submission, woken: set<nat>, ghost ids: seq<nat>, ghost block: seq<byte>)
      requires Setting() && blockIndex == |blocks| && Ids() == ids + [nextId]
      requires s.link.Link? ==> s.link.ticket in world.comps
      requires SubmitError(world.pool) == 0 && SignalChoice(Queued(world.pool, nextId), woken)
      modifies this`world, this`nextId, this`makers, this`blockIndex, this`submittedIndex, this`blocks, this`carriers,
               this`standing
      ensures Setting() && blockIndex == |blocks| && Now() == DataView(old(With(ids)), s, block, woken)
      ensures submittedIndex + 1 == blockIndex == old(blockIndex) + 1
      ensures nextId == old(nextId) + 1 && blocks == old(blocks) + [block]
    {
      hide Ids, SignalChoice, SubmitError, SubmitData, Kept, Queued;
      SubmitKept(world, nextId, s, woken);
      world := SubmitData(world, nextId, s, woken);
      Advance(ids, block, s.link);
    }

    method Advance(ghost ids: seq<nat>, ghost block: seq<byte>, ghost link: Link)
      requires blockIndex == |blocks|
      modifies this`nextId, this`makers, this`blockIndex, this`submittedIndex, this`blocks, this`carriers, this`standing
      ensures blockIndex == |blocks| && submittedIndex == old(blockIndex) && nextId == old(nextId) + 1
      ensures blocks == old(blocks) + [block]
      ensures With(ids) == old(With(ids)).(sp := old(Sp()).(blocks := blocks), nextId := nextId, sent := submittedIndex,
                                           carriers := old(carriers) + [old(nextId)],
                                           standing := old(standing) + [block], makers := old(makers) + [link])
    {
      Remember(ids, block, link);
      blocks := blocks + [block];
      nextId, submittedIndex, blockIndex := nextId + 1, blockIndex, blockIndex + 1;
    }

    ghost method Remember(ids: seq<nat>, block: seq<byte>, link: Link)
      modifies this`makers, this`carriers, this`standing
      ensures With(ids) == old(With(ids)).(carriers := old(carriers) + [nextId], standing := old(standing) + [block],
                                           makers := old(makers) + [link])
    {
      carriers, makers, standing := carriers + [nextId], makers + [link], standing + [block];
    }

    // -------------------------------------------------------------- consuming blocks

    /** Fewer zero blocks than a batch wait without a submission behind them. */
    ghost predicate Batched()
      reads this`blockIndex, this`submittedIndex
    {
      submittedIndex <= blockIndex < submittedIndex + batch
    }

    /** One more zero block would not complete a batch. */
    ghost predicate Loose()
      reads this`blockIndex, this`submittedIndex
    {
      blockIndex + 1 < submittedIndex + batch
    }

    /** Zero blocks only move the index, until a batch of them calls for a marker. */
    method ConsumeZeroBlocks(count: nat) returns (ok: bool)
      requires Core()
      modifies this`world, this`nextId, this`makers, this`blockIndex, this`submittedIndex, this`blocks, this`carriers,
               this`standing, this`outer, this`hashedIndex, this`error, sq, sq.slots
      ensures Core() && Moved(old(Now()), Now(), ok) && nextId <= old(nextId) + 1
      ensures Follows(SkipBlocks(old(Here()), Terms(), count), Here(), ok)
      ensures blocks == old(blocks) + seq(count, _ => Zeros(bs))
      ensures ok ==> error == old(error) && (old(submittedIndex <= blockIndex) ==> Batched())
                     && (if old(blockIndex) + count >= old(submittedIndex) + batch then IsTight(Now())
                         else count > 0 ==> IsShort(Now()))
      ensures !ok ==> error != 0 && (old(error) != 0 ==> error == old(error))
      ensures old(blockIndex) + count < old(submittedIndex) + batch ==> ok && world == old(world)
    {
      hide Core, Moved, Bad, IsTight, IsShort;
      ghost var v := Now();
      Positive();
      SkipIndices(count);
      if blockIndex - submittedIndex >= batch {
        ok := SubmitZeroBlock();
        MovedThen(v, ZerosView(v, count), Now(), ok);
      } else {
        ok := true;
      }
    }

    method SkipIndices(count: nat)
      requires Core()
      modifies this`blockIndex, this`blocks, this`carriers, this`standing
      ensures Core() && Now() == ZerosView(old(Now()), count) && Moved(old(Now()), Now(), true)
      ensures blockIndex == old(blockIndex) + count && blocks == old(blocks) + seq(count, _ => Zeros(bs))
      ensures Bad(Now()) == old(Bad(Now())) && (count > 0 ==> IsShort(Now()))
    {
      hide Ring.Contents, Good, Inv, Moved, Bad, IsShort;
      ghost var v := Now();
      ZerosGood(v, count);
      ZerosMoved(v, count);
      if count > 0 { ZerosShort(v, count); }
      blockIndex := blockIndex + count;
      blocks, carriers, standing :=
        ZerosView(v, count).sp.blocks, ZerosView(v, count).carriers, ZerosView(v, count).standing;
      assert Now() == ZerosView(v, count);
    }

    /** A block that is zero needs no digest; any other has the outcome of the next submission. */
    ghost function DueOf(block: seq<byte>): nat
      reads this
    {
      if block == Zeros(bs) then 0 else fails(nextId)
    }

    /** One block of data: a full zero block that would have to be copied is consumed without a submission. */
    method ConsumeDataBlock(bytes: seq<byte>, data: Data, link: Link) returns (ok: bool)
      requires Core() && Submittable(data, link, bytes)
      modifies this`world, this`nextId, this`makers, this`blockIndex, this`submittedIndex, this`blocks, this`carriers,
               this`standing, this`outer, this`hashedIndex, this`error, sq, sq.slots
      ensures Core() && Moved(old(Now()), Now(), ok) && nextId <= old(nextId) + 1
      ensures Follows(AddBlock(old(Here()), Terms(), bytes, data.Own?), Here(), ok)
      ensures ok ==> error == old(error) && blocks == old(blocks) + [bytes]
                     && (old(submittedIndex <= blockIndex) ==> Batched())
                     && (if bytes == Zeros(bs) && (data.User? || old(Loose())) then data.Own? ==> IsShort(Now())
                         else IsTight(Now()))
      ensures !ok ==> error != 0 && (old(error) != 0 ==> error == old(error)) && GrewBy(old(blocks), blocks, bytes)
      ensures data.Own? && bytes == Zeros(bs) && old(blockIndex) + 1 < old(submittedIndex) + batch ==>
                ok && world == old(world)
    {
      hide Ring.Contents, Good, Inv, Moved, Bad, IsTight, IsShort, Content;
      if |bytes| == bs { IsZeroExact(bytes); }
      if data.Own? && IsZeroBlock(bytes, bs) {
        assert seq(1, _ => Zeros(bs)) == [bytes];
        ok := ConsumeZeroBlocks(1);
      } else {
        ok := SubmitDataBlock(data, link, bytes);
      }
    }

    /** A block whose bytes are copied into its submission. */
    method ConsumeCopy(bytes: seq<byte>, link: Link) returns (ok: bool)
      requires Core() && link == Made(world.caller)
      modifies this`world, this`nextId, this`makers, this`blockIndex, this`submittedIndex, this`blocks, this`carriers,
               this`standing, this`outer, this`hashedIndex, this`error, sq, sq.slots
      ensures Core() && Moved(old(Now()), Now(), ok) && nextId <= old(nextId) + 1
      ensures Follows(AddBlock(old(Here()), Terms(), bytes, true), Here(), ok)
      ensures ok ==> error == old(error) && blocks == old(blocks) + [bytes]
                     && (old(submittedIndex <= blockIndex) ==> Batched())
                     && (if bytes == Zeros(bs) && old(Loose()) then IsShort(Now()) else IsTight(Now()))
      ensures !ok ==> error != 0 && (old(error) != 0 ==> error == old(error)) && GrewBy(old(blocks), blocks, bytes)
    {
      hide Ring.Contents, Good, Inv, Moved, Bad, IsTight, IsShort;
      ok := ConsumeDataBlock(bytes, Own(bytes), link);
    }

    ghost predicate PendingOk()
      reads pending
    {
      && pending.Valid() && pending.data.Length == bs
      && pending.data as object != sq.slots
    }

    /** Consumes the pending bytes, full block or not; pending data is always copied. */
    method ConsumePending(link: Link) returns (ok: bool)
      requires Core() && PendingOk() && link == Made(world.caller)
      modifies this`world, this`nextId, this`makers, this`blockIndex, this`submittedIndex, this`blocks, this`carriers,
               this`standing, this`outer, this`hashedIndex, this`error, pending, pending.data, sq, sq.slots
      ensures Core() && Moved(old(Now()), Now(), ok) && PendingOk() && nextId <= old(nextId) + 1
      ensures Follows(old(AddBlock(Here(), Terms(), pending.Bytes(), true)), Here(), ok)
      ensures ok ==> error == old(error) && blocks == old(blocks) + [old(pending.Bytes())] && pending.len == 0
                     && (old(submittedIndex <= blockIndex) ==> Batched())
                     && (if old(pending.Bytes() == Zeros(bs) && Loose()) then IsShort(Now()) else IsTight(Now()))
      ensures !ok ==> error != 0 && (old(error) != 0 ==> error == old(error))
    {
      hide Ring.Contents, Good, Inv, Moved, Bad, IsTight, IsShort;
      if pending.len == bs && pending.zero {
        assert seq(1, _ => Zeros(bs)) == [pending.Bytes()];
        ok := ConsumeZeroBlocks(1);
      } else {
        var bytes := pending.AsData();
        ok := ConsumeCopy(bytes, link);
      }
      if ok {
        pending.Clear();
      }
    }

    // -------------------------------------------------------------- the byte stream

    /** Everything consumed so far: the blocks, and the pending bytes behind them. */
    ghost function Message(): seq<byte>
      reads this`blocks, pending, pending.data
      requires PendingOk()
    {
      Concat(blocks) + pending.Bytes()
    }

    /** Between two steps of a call that has not failed. */
    ghost predicate Fed(m: seq<byte>)
      reads this`blocks, this`blockIndex, this`submittedIndex, this`nextId, this`finalized, pending, pending.data
    {
      && PendingOk() && pending.len < bs && Message() == m && Batched()
      && (finalized || (AllSized(blocks, bs) && nextId <= blockIndex))
    }

    /** As `Fed`, with a pending block that may be full. */
    ghost predicate Filled(m: seq<byte>)
      reads this`blocks, this`blockIndex, this`submittedIndex, this`nextId, this`finalized, pending, pending.data
    {
      PendingOk() && Message() == m && Batched() && (finalized || (AllSized(blocks, bs) && nextId <= blockIndex))
    }

    /** A pending block that became full is consumed. */
    method ConsumeFilled(link: Link, ghost m: seq<byte>) returns (ok: bool)
      requires Core() && Filled(m) && link == Made(world.caller)
      modifies this`world, this`nextId, this`makers, this`blockIndex, this`submittedIndex, this`blocks, this`carriers,
               this`standing, this`outer, this`hashedIndex, this`error, pending, pending.data, sq, sq.slots
      ensures Core() && Moved(old(Now()), Now(), ok) && PendingOk()
      ensures ok ==> error == old(error) && Fed(m) && (pending.len == 0 || pending.len == old(pending.len))
      ensures ok && old(pending.len) == bs ==> pending.len == 0
      ensures Follows(old(if pending.len == bs then AddBlock(Here(), Terms(), pending.Bytes(), true) else Here()),
                      Here(), ok)
      ensures !ok ==> error != 0 && (old(error) != 0 ==> error == old(error))
    {
      hide Ring.Contents, Good, Inv, Moved, IsTight, IsShort, Concat, Bad, AddBlock;
      MovedRefl(Now());
      ok := true;
      if pending.len == bs {
        ConcatSnoc(blocks, pending.Bytes());
        ok := ConsumePending(link);
        if ok {
          assert pending.Bytes() == [];
        }
      }
    }

    /** Completes the pending block from the front of `data` and consumes it when it is full. */
    method FillPending(data: seq<byte>, link: Link) returns (ok: bool, pos: nat)
      requires Core() && PendingOk() && Fed(Message()) && pending.len > 0
      requires link == Made(world.caller)
      modifies this`world, this`nextId, this`makers, this`blockIndex, this`submittedIndex, this`blocks, this`carriers,
               this`standing, this`outer, this`hashedIndex, this`error, pending, pending.data, sq, sq.slots
      ensures Core() && Moved(old(Now()), Now(), ok) && PendingOk() && pos <= |data|
      ensures ok ==> error == old(error) && Fed(old(Message()) + data[..pos]) && (pos < |data| ==> pending.len == 0)
      ensures pos == old(Taken(Terms(), pending.Bytes(), |data|))
      ensures Follows(old(Complete(Here(), Terms(), pending.Bytes(), data)), Here(), ok)
      ensures !ok ==> error != 0 && (old(error) != 0 ==> error == old(error))
    {
      hide Core, Moved, Fed, Filled, Concat, Bad, AddBlock;
      FedParts(Message());
      ghost var m := Message();
      pos := AddPending(data);
      ok := ConsumeFilled(link, m + data[..pos]);
    }

    method AddPending(data: seq<byte>) returns (pos: nat)
      requires Core() && PendingOk() && Fed(Message())
      modifies pending, pending.data
      ensures pos <= |data| && (pos < |data| ==> pending.len == bs) && Core() && Filled(old(Message()) + data[..pos])
      ensures pos == old(if |data| < bs - pending.len then |data| else bs - pending.len) && Here() == old(Here())
      ensures pending.Bytes() == old(pending.Bytes()) + data[..pos]
    {
      hide Ring.Contents, Good, Concat, Bad;
      ghost var m, before := Message(), Concat(blocks);
      pos := pending.AddData(data);
      assert before + pending.Bytes() == m + data[..pos];
    }

    method AddPendingZeros(len: nat) returns (n: nat)
      requires Core() && PendingOk() && Fed(Message())
      modifies pending, pending.data
      ensures Core() && Filled(old(Message()) + Zeros(n)) && n <= len && (n < len ==> pending.len == bs)
      ensures n == old(if len < bs - pending.len then len else bs - pending.len) && Here() == old(Here())
      ensures pending.Bytes() == old(pending.Bytes()) + Zeros(n)
    {
      hide Ring.Contents, Good, Concat, Bad;
      ghost var m, before := Message(), Concat(blocks);
      n := pending.AddZeros(len);
      assert before + pending.Bytes() == m + Zeros(n);
    }

    /** What a call may ask of the memory it was given: room for `len` bytes, and, for an update that is
        not copied, a live update that the buffer was lent to. */
    ghost predicate Lent(buf: nat, len: nat, link: Link, copy: bool)
      reads this
    {
      && buf in world.mem && len <= |world.mem[buf]|
      && link == Made(world.caller)
      && (!copy ==> link.Link? && link.ticket < |issued| && issued[link.ticket].buf == buf)
    }

    /** One full block of the caller's buffer, copied or by reference. */
    method ConsumeAt(buf: nat, pos: nat, link: Link, copy: bool) returns (ok: bool)
      requires Core() && Lent(buf, pos + bs, link, copy)
      modifies this`world, this`nextId, this`makers, this`blockIndex, this`submittedIndex, this`blocks, this`carriers,
               this`standing, this`outer, this`hashedIndex, this`error, sq, sq.slots
      ensures Core() && Moved(old(Now()), Now(), ok) && nextId <= old(nextId) + 1
      ensures Follows(AddBlock(old(Here()), Terms(), old(world.mem[buf])[pos..pos + bs], copy), Here(), ok)
      ensures ok ==> error == old(error) && blocks == old(blocks) + [old(world.mem[buf][pos..pos + bs])]
                     && (old(submittedIndex <= blockIndex) ==> Batched())
      ensures !ok ==> error != 0 && (old(error) != 0 ==> error == old(error))
    {
      hide Ring.Contents, Good, Inv, Moved, Bad, IsTight, IsShort, AddBlock, Here;
      var bytes := world.mem[buf][pos..pos + bs];
      if copy {
        ok := ConsumeCopy(bytes, link);
      } else {
        ok := ConsumeDataBlock(bytes, User(buf, pos, bs), link);
      }
    }

    /** The next full block of the stream; `data` is the input of the call and `m` what came before it. */
    method ConsumeNext(buf: nat, pos: nat, link: Link, copy: bool, ghost m: seq<byte>, ghost data: seq<byte>)
        returns (ok: bool)
      requires pos + bs <= |data| && pending.len == 0 && Fed(m + data[..pos])
      requires Core() && Lent(buf, |data|, link, copy) && data == world.mem[buf][..|data|]
      modifies this`world, this`nextId, this`makers, this`blockIndex, this`submittedIndex, this`blocks, this`carriers,
               this`standing, this`outer, this`hashedIndex, this`error, sq, sq.slots
      ensures Core() && Moved(old(Now()), Now(), ok) && Lent(buf, |data|, link, copy) && world.mem == old(world.mem)
      ensures ok ==> error == old(error) && Fed(m + data[..pos + bs])
      ensures Follows(AddBlock(old(Here()), Terms(), data[pos..pos + bs], copy), Here(), ok)
      ensures !ok ==> error != 0 && (old(error) != 0 ==> error == old(error))
    {
      hide Ring.Contents, Good, Moved, Concat, IsTight, IsShort, AddBlock, Here;
      ghost var block := data[pos..pos + bs];
      SliceOfPrefix(world.mem[buf], |data|, pos, bs);
      assert pending.Bytes() == [];
      assert Concat(blocks) == m + data[..pos];
      ConcatSnoc(blocks, block);
      TakeMore(m, data, pos, bs);
      ok := ConsumeAt(buf, pos, link, copy);
      MovedParts(old(Now()), Now(), ok);
    }

    /** All full blocks of the buffer from `start` on. */
    method ConsumeFull(buf: nat, len: nat, start: nat, link: Link, copy: bool, ghost m: seq<byte>,
                       ghost data: seq<byte>)
        returns (ok: bool, pos: nat)
      requires Core() && Lent(buf, len, link, copy) && start <= len == |data| && data == world.mem[buf][..len]
      requires Fed(m + data[..start]) && (start < len ==> pending.len == 0)
      modifies this`world, this`nextId, this`makers, this`blockIndex, this`submittedIndex, this`blocks, this`carriers,
               this`standing, this`outer, this`hashedIndex, this`error, sq, sq.slots
      ensures Core() && Moved(old(Now()), Now(), ok) && start <= pos <= len
      ensures ok ==> error == old(error) && len - pos < bs && (pos < len ==> pending.len == 0) && Fed(m + data[..pos])
      ensures Follows(AddFull(old(Here()), Terms(), data[start..], copy), Here(), ok)
      ensures !ok ==> error != 0 && (old(error) != 0 ==> error == old(error))
    {
      hide Core, Moved, Fed, Lent, AddBlock, Here, AddFull;
      ghost var plan := AddFull(Here(), Terms(), data[start..], copy);
      ok, pos := true, start;
      MovedRefl(Now());
      assert bs > 0 by { Positive(); }
      while ok && len - pos >= bs
        invariant Core() && Moved(old(Now()), Now(), ok) && Lent(buf, len, link, copy)
        invariant world.mem == old(world.mem) && start <= pos <= len
        invariant ok ==> error == old(error) && Fed(m + data[..pos])
        invariant if ok then AddFull(Here(), Terms(), data[pos..], copy) == plan else !plan.clear
        invariant !ok ==> error != 0 && (old(error) != 0 ==> error == old(error))
        decreases len - pos, ok
      {
        label turn:
        FullNext(Here(), Terms(), data, pos, copy);
        FullClear(AddBlock(Here(), Terms(), data[pos..pos + bs], copy), Terms(), data[pos + bs..], copy);
        ok := ConsumeNext(buf, pos, link, copy, m, data);
        MovedThen(old(Now()), old@turn(Now()), Now(), ok);
        if ok {
          pos := pos + bs;
        }
      }
      NoFull(Here(), Terms(), data[pos..], copy);
    }

    lemma Positive()
      requires Core()
      ensures bs > 0 && batch > 1
    {
      hide Ring.Contents, Good;
    }

    /** The course of an update, and of a call for zeros. */
    ghost function CourseOfUpdate(buf: nat, len: nat, copied: bool): Course
      reads this, pending, pending.data, sq, sq.slots
      requires PendingOk() && buf in world.mem && len <= |world.mem[buf]|
    {
      AddData(Here(), Terms(), pending.Bytes(), world.mem[buf][..len], copied)
    }

    ghost function CourseOfZeros(len: nat): Course
      reads this, pending, pending.data, sq, sq.slots
      requires PendingOk()
    {
      AddZeros(Here(), Terms(), pending.Bytes(), len)
    }

    /** The body of every update: fill the pending block, consume the full blocks, keep the rest. */
    method DoUpdate(buf: nat, len: nat, link: Link, copy: bool) returns (ok: bool)
      requires Core() && PendingOk() && Fed(Message()) && Lent(buf, len, link, copy)
      modifies this`world, this`nextId, this`makers, this`blockIndex, this`submittedIndex, this`blocks, this`carriers,
               this`standing, this`outer, this`hashedIndex, this`error, pending, pending.data, sq, sq.slots
      ensures Core() && Moved(old(Now()), Now(), ok) && PendingOk()
      ensures ok ==> error == old(error) && Fed(old(Message()) + old(world.mem[buf])[..len])
      ensures Follows(old(CourseOfUpdate(buf, len, copy)), Here(), ok)
      ensures !ok ==> error != 0 && (old(error) != 0 ==> error == old(error))
    {
      hide Core, Moved, Fed, Concat, Complete, AddFull, Here;
      var data := world.mem[buf][..len];
      ghost var m := Message();
      var pos: nat := 0;
      ok := true;
      MovedRefl(Now());
      assert m + data[..0] == m;
      if pending.len > 0 {
        ok, pos := FillPending(data, link);
        FullClear(old(Complete(Here(), Terms(), pending.Bytes(), data)), Terms(), data[pos..], copy);
        if !ok { return; }
      }
      MovedParts(old(Now()), Now(), ok);
      label full:
      ok := ConsumeRest(buf, len, pos, link, copy, m, data);
      MovedThen(old(Now()), old@full(Now()), Now(), ok);
    }

    /** The full blocks from `start` on; what is left becomes pending. */
    method ConsumeRest(buf: nat, len: nat, start: nat, link: Link, copy: bool, ghost m: seq<byte>, data: seq<byte>)
        returns (ok: bool)
      requires Core() && Lent(buf, len, link, copy) && start <= len == |data| && data == world.mem[buf][..len]
      requires Fed(m + data[..start]) && (start < len ==> pending.len == 0)
      modifies this`world, this`nextId, this`makers, this`blockIndex, this`submittedIndex, this`blocks, this`carriers,
               this`standing, this`outer, this`hashedIndex, this`error, pending, pending.data, sq, sq.slots
      ensures Core() && Moved(old(Now()), Now(), ok) && PendingOk()
      ensures ok ==> error == old(error) && Fed(m + data)
      ensures Follows(AddFull(old(Here()), Terms(), data[start..], copy), Here(), ok)
      ensures !ok ==> error != 0 && (old(error) != 0 ==> error == old(error))
    {
      hide Core, Moved, Fed, AddFull, Bad, Now;
      var pos;
      FedPending(m + data[..start]);
      ok, pos := ConsumeFull(buf, len, start, link, copy, m, data);
      if ok && pos < len {
        KeepRest(m, data, pos);
      } else if ok {
        assert data[..pos] == data;
      }
    }

    method KeepRest(ghost m: seq<byte>, data: seq<byte>, pos: nat)
      requires Core() && pos < |data| < pos + bs && pending.len == 0 && Fed(m + data[..pos])
      modifies pending, pending.data
      ensures Core() && Now() == old(Now()) && Here() == old(Here()) && PendingOk() && Fed(m + data)
    {
      hide Ring.Contents, Good, Bad, Concat;
      StorePending(m, data, pos);
    }

    /** Less than a block is left: it becomes the new pending data. */
    method StorePending(ghost m: seq<byte>, data: seq<byte>, pos: nat)
      requires pos < |data| < pos + bs && pending.len == 0 && Fed(m + data[..pos])
      modifies pending, pending.data
      ensures Fed(m + data)
    {
      hide Concat;
      TakeMore(m, data, pos, |data| - pos);
      assert data[..|data|] == data && data[pos..|data|] == data[pos..];
      assert pending.Bytes() == [];
      assert Concat(blocks) == m + data[..pos];
      var n := pending.AddData(data[pos..]);
      assert data[pos..][..n] == data[pos..] && [] + data[pos..] == data[pos..];
    }

    /** The body of a zero call: fill the pending block, skip the full blocks, count the rest. */
    method DoZero(len: nat) returns (ok: bool)
      requires Core() && PendingOk() && Fed(Message()) && world.caller.Quiet?
      modifies this`world, this`nextId, this`makers, this`blockIndex, this`submittedIndex, this`blocks, this`carriers,
               this`standing, this`outer, this`hashedIndex, this`error, pending, pending.data, sq, sq.slots
      ensures Core() && Moved(old(Now()), Now(), ok) && PendingOk()
      ensures ok ==> error == old(error) && Fed(old(Message()) + Zeros(len))
      ensures Follows(old(CourseOfZeros(len)), Here(), ok)
      ensures !ok ==> error != 0 && (old(error) != 0 ==> error == old(error))
    {
      hide Core, Moved, Fed, Concat, Zeros, Here, Complete, SkipFull;
      FedParts(Message());
      ghost var m := Message();
      var done: nat := 0;
      ok := true;
      MovedRefl(Now());
      NoZeros(m);
      if pending.len > 0 {
        ok, done := FillPendingZeros(len);
        SkipClear(old(Complete(Here(), Terms(), pending.Bytes(), Zeros(len))), Terms(), len - done);
        if !ok { return; }
      }
      label full:
      ok := ConsumeZeroRest(len - done, m + Zeros(done));
      MovedThen(old(Now()), old@full(Now()), Now(), ok);
      MoreZeros(m, done, len - done);
    }

    /** Full zero blocks, then less than a block of zeros. */
    method ConsumeZeroRest(len: nat, ghost m: seq<byte>) returns (ok: bool)
      requires Core() && Fed(m) && (len > 0 ==> pending.len == 0)
      modifies this`world, this`nextId, this`makers, this`blockIndex, this`submittedIndex, this`blocks, this`carriers,
               this`standing, this`outer, this`hashedIndex, this`error, pending, pending.data, sq, sq.slots
      ensures Core() && Moved(old(Now()), Now(), ok) && PendingOk()
      ensures ok ==> error == old(error) && Fed(m + Zeros(len))
      ensures Follows(SkipFull(old(Here()), Terms(), len), Here(), ok)
      ensures !ok ==> error != 0 && (old(error) != 0 ==> error == old(error))
    {
      hide Core, Moved, Fed, Concat, Times, Zeros, SkipBlocks, Bad, Now;
      FedPending(m);
      MovedRefl(Now());
      ok := true;
      assert bs > 0 by { Positive(); }
      var count, left := DivMod(len, bs);
      ghost var m1 := m + Zeros(Times(count, bs));
      NoZeros(m);
      if len >= bs {
        ok := ConsumeZeroRun(count, m);
        if !ok { return; }
      }
      MoreZeros(m, Times(count, bs), left);
      if left > 0 {
        StorePendingZeros(left, m1);
        FedPending(m1 + Zeros(left));
      } else {
        NoZeros(m1);
      }
    }

    lemma FedPending(m: seq<byte>)
      requires Fed(m)
      ensures PendingOk()
    {
    }

    method FillPendingZeros(len: nat) returns (ok: bool, n: nat)
      requires Core() && PendingOk() && Fed(Message()) && pending.len > 0 && world.caller.Quiet?
      modifies this`world, this`nextId, this`makers, this`blockIndex, this`submittedIndex, this`blocks, this`carriers,
               this`standing, this`outer, this`hashedIndex, this`error, pending, pending.data, sq, sq.slots
      ensures Core() && Moved(old(Now()), Now(), ok) && PendingOk() && n <= len
      ensures ok ==> error == old(error) && Fed(old(Message()) + Zeros(n)) && (n < len ==> pending.len == 0)
      ensures n == old(Taken(Terms(), pending.Bytes(), len))
      ensures Follows(old(Complete(Here(), Terms(), pending.Bytes(), Zeros(len))), Here(), ok)
      ensures !ok ==> error != 0 && (old(error) != 0 ==> error == old(error))
    {
      hide Core, Moved, Fed, Filled, Concat, Bad, AddBlock;
      FedParts(Message());
      assert bs - pending.len <= len ==> Zeros(len)[..bs - pending.len] == Zeros(bs - pending.len);
      ghost var m := Message();
      n := AddPendingZeros(len);
      ok := ConsumeFilled(NoLink, m + Zeros(n));
    }

    method ConsumeZeroRun(count: nat, ghost m: seq<byte>) returns (ok: bool)
      requires Core() && Fed(m) && pending.len == 0 && count > 0
      modifies this`world, this`nextId, this`makers, this`blockIndex, this`submittedIndex, this`blocks, this`carriers,
               this`standing, this`outer, this`hashedIndex, this`error, sq, sq.slots
      ensures Core() && Moved(old(Now()), Now(), ok)
      ensures ok ==> error == old(error) && Fed(m + Zeros(Times(count, bs)))
      ensures Follows(SkipBlocks(old(Here()), Terms(), count), Here(), ok)
      ensures !ok ==> error != 0 && (old(error) != 0 ==> error == old(error))
    {
      hide Ring.Contents, Good, Inv, Moved, Concat, Times, SkipBlocks, Here;
      assert pending.Bytes() == [];
      assert Concat(blocks) == m;
      ConcatAppend(blocks, seq(count, _ => Zeros(bs)));
      ConcatZeros(count, bs);
      ok := ConsumeZeroBlocks(count);
    }

    method StorePendingZeros(left: nat, ghost m: seq<byte>)
      requires left < bs && pending.len == 0 && Fed(m)
      modifies pending, pending.data
      ensures Fed(m + Zeros(left))
    {
      hide Concat;
      assert pending.Bytes() == [];
      assert Concat(blocks) == m;
      var n := pending.AddZeros(left);
      assert [] + Zeros(left) == Zeros(left);
    }

    // -------------------------------------------------------------- the API

    /** Holds between calls. */
    ghost predicate Valid()
      reads this, pending, pending.data, sq, sq.slots
    {
      Core() && PendingOk() && Settled()
    }

    ghost predicate Settled()
      reads this, pending, pending.data
      requires PendingOk()
    {
      match world
      case World(_, _, _, _, _, _, caller, _, faults) =>
        && caller.Quiet? && nextTicket == |issued|
        && inflight == |live| <= queueDepth
        && messageLength < TWO64 && (sealed ==> finalized)
        && (error == 0 ==> Fed(Message()) && (finalized <==> sealed))
        && (error == 0 && !finalized ==> messageLength == |Message()| % TWO64)
        && HistoryOk(issued, live, delivered, faults)
    }

    /** A submission that this hash made is doomed to error `e`. */
    ghost predicate Struck(e: nat)
      reads this
    {
      e != 0 && exists id :: id in world.subs && Due(Sp(), id, world.subs[id]) == e
    }

    /** The hash has no error of its own: it is that of a submission it made. */
    lemma HasCause()
      requires Core() && error != 0
      ensures Struck(error)
    {
      hide Ring.Contents, QueueOk, Ordered, Placed, MadeOk, Base;
      var id :| Guilty(world.subs, Ids(), error, id);
      GoodInv(Now());
      HeadError(Now(), id);
    }

    lemma StruckUnsound(e: nat)
      requires Struck(e)
      ensures !Sound(fails)
    {
      var id :| id in world.subs && Due(Sp(), id, world.subs[id]) == e;
      Unsound(fails, id);
    }

    lemma Settle()
      requires Core() && PendingOk() && world.caller.Quiet? && nextTicket == |issued|
      requires inflight == |live| <= queueDepth
      requires messageLength < TWO64 && (sealed ==> finalized) && HistoryOk(issued, live, delivered, world.faults)
      requires error == 0 ==> Fed(Message()) && (finalized <==> sealed)
      requires error == 0 && !finalized ==> messageLength == |Message()| % TWO64
      ensures Valid()
    {
      hide Core, Fed, HistoryOk;
    }

    lemma Unsettle()
      requires Valid()
      ensures Core() && PendingOk()
      ensures world.caller.Quiet? && nextTicket == |issued| && inflight == |live| <= queueDepth
      ensures messageLength < TWO64 && (sealed ==> finalized) && HistoryOk(issued, live, delivered, world.faults)
      ensures error == 0 ==> Fed(Message()) && (finalized <==> sealed)
      ensures error == 0 && !finalized ==> messageLength == |Message()| % TWO64
    {
      hide Core, Fed, HistoryOk;
    }

    /** The counters account for every byte: whole blocks, then less than a block; fewer zero blocks than a
        batch have no submission behind them; and the block index stays far below 2^63. */
    lemma Conservation()
      requires Valid() && error == 0 && !finalized
      ensures |Message()| == Times(blockIndex, bs) + pending.len && pending.len < bs
      ensures messageLength == |Message()| % TWO64 && 0 <= blockIndex - submittedIndex < batch
      ensures |Message()| < TWO64 ==> blockIndex < 0x1000_0000_0000_0000
    {
      hide Ring.Contents, Good, HistoryOk, Concat;
      ConcatLength(blocks, bs);
      assert Times(blockIndex, bs) == bs * |blocks|;
      AtLeast16(blockIndex, bs);
    }

    /** The pending bytes are what the full blocks of the message leave. */
    lemma PendingIsTail()
      requires Valid() && error == 0 && !finalized
      ensures bs > 0 && pending.Bytes() == Tail(Message(), bs)
    {
      hide Ring.Contents, Good, HistoryOk, Concat, Tail;
      TailOfConcat(blocks, pending.Bytes(), bs);
    }

    /** The bytes up to `len` of a buffer are appended to the message; nothing refers to it afterwards. */
    method Update(buf: nat, len: nat) returns (err: nat)
      requires Valid() && buf in world.mem && len <= |world.mem[buf]|
      modifies this`world, this`nextId, this`makers, this`blockIndex, this`submittedIndex, this`blocks, this`carriers,
               this`standing, this`outer, this`hashedIndex, this`error, this`messageLength, pending, pending.data, sq,
               sq.slots
      ensures Valid() && world.mem == old(world.mem) && world.draining == old(world.draining)
      ensures old(error) != 0 ==> err == old(error) && world == old(world) && Message() == old(Message())
      ensures err == error && (err != 0 ==> Struck(err))
      ensures err == 0 ==> Message() == old(Message()) + old(world.mem[buf])[..len]
      ensures old(error) == 0 ==> Moved(old(Now()), Now(), err == 0)
      ensures old(error) == 0 ==> Follows(old(CourseOfUpdate(buf, len, true)), Here(), err == 0)
    {
      hide Core, HistoryOk, Fed, Moved, CourseOfUpdate, Follows, Here;
      if error == 0 {
        RunUpdate(buf, len);
      }
      err := error;
      if err != 0 { HasCause(); }
    }

    method RunUpdate(buf: nat, len: nat)
      requires Valid() && error == 0 && buf in world.mem && len <= |world.mem[buf]|
      modifies this`world, this`nextId, this`makers, this`blockIndex, this`submittedIndex, this`blocks, this`carriers,
               this`standing, this`outer, this`hashedIndex, this`error, this`messageLength, pending, pending.data, sq,
               sq.slots
      ensures Valid() && world.mem == old(world.mem) && world.draining == old(world.draining)
      ensures error == 0 ==> Message() == old(Message()) + old(world.mem[buf])[..len]
      ensures Moved(old(Now()), Now(), error == 0)
      ensures Follows(old(CourseOfUpdate(buf, len, true)), Here(), error == 0)
    {
      hide Core, Concat, HistoryOk, Fed, Moved, Settled, Now, AddData, Follows, Here;
      Unsettle();
      AddLength(len, world.mem[buf][..len]);
      var ok := Absorb(buf, len, NoLink, true);
      Settle();
    }

    /** An update seen from the API: what it does to the message, and what it leaves alone. */
    method Absorb(buf: nat, len: nat, link: Link, copy: bool) returns (ok: bool)
      requires Core() && PendingOk() && Fed(Message()) && Lent(buf, len, link, copy)
      requires HistoryOk(issued, live, delivered, world.faults)
      modifies this`world, this`nextId, this`makers, this`blockIndex, this`submittedIndex, this`blocks, this`carriers,
               this`standing, this`outer, this`hashedIndex, this`error, pending, pending.data, sq, sq.slots
      ensures Core() && PendingOk() && HistoryOk(issued, live, delivered, world.faults)
      ensures world.mem == old(world.mem) && world.caller == old(world.caller) && world.draining == old(world.draining)
      ensures ok ==> error == old(error) && Fed(Message()) && Message() == old(Message()) + old(world.mem[buf])[..len]
      ensures !ok ==> error != 0 && (old(error) != 0 ==> error == old(error))
      ensures Moved(old(Now()), Now(), ok) && MadeBy(old(makers), makers, link)
      ensures Follows(old(CourseOfUpdate(buf, len, copy)), Here(), ok)
    {
      hide Ring.Contents, Good, Inv, Moved, Kept, KeptBase, Concat, HistoryOk, Fed, CourseOfUpdate, Follows;
      hide Here;
      ghost var v, m := Now(), Message() + world.mem[buf][..len];
      ok := DoUpdate(buf, len, link, copy);
      MovedParts(v, Now(), ok);
      CallEnds(v, world);
      if ok { FedIs(m); }
    }

    method AbsorbZeros(len: nat) returns (ok: bool)
      requires Core() && PendingOk() && Fed(Message()) && HistoryOk(issued, live, delivered, world.faults)
      requires world.caller.Quiet?
      modifies this`world, this`nextId, this`makers, this`blockIndex, this`submittedIndex, this`blocks, this`carriers,
               this`standing, this`outer, this`hashedIndex, this`error, pending, pending.data, sq, sq.slots
      ensures Core() && PendingOk() && HistoryOk(issued, live, delivered, world.faults)
      ensures world.mem == old(world.mem) && world.caller == old(world.caller) && world.draining == old(world.draining)
      ensures ok ==> error == old(error) && Fed(Message()) && Message() == old(Message()) + Zeros(len)
      ensures !ok ==> error != 0 && (old(error) != 0 ==> error == old(error))
      ensures Moved(old(Now()), Now(), ok)
      ensures Follows(old(CourseOfZeros(len)), Here(), ok)
    {
      hide Ring.Contents, Good, Inv, Moved, Kept, KeptBase, Concat, HistoryOk, Fed, CourseOfZeros, Follows, Here;
      ghost var v, m := Now(), Message() + Zeros(len);
      ok := DoZero(len);
      MovedParts(v, Now(), ok);
      CallEnds(v, world);
      if ok { FedIs(m); }
    }

    /** The length is counted in 64 bits before anything is consumed. */
    method AddLength(len: nat, ghost data: seq<byte>)
      requires Core() && PendingOk() && Fed(Message()) && |data| == len
      modifies this`messageLength
      ensures Core() && PendingOk() && Fed(Message()) && Message() == old(Message())
      ensures Now() == old(Now()) && Here() == old(Here())
      ensures messageLength < TWO64
      ensures old(messageLength == |Message()| % TWO64) ==> messageLength == |Message() + data| % TWO64
    {
      hide Ring.Contents, Good, Concat;
      LengthGrows(Message(), data);
      messageLength := (messageLength + len) % TWO64;
    }

    lemma FedIs(m: seq<byte>)
      requires Fed(m)
      ensures PendingOk() && Message() == m && Fed(Message())
    {
    }

    /** `len` zero bytes are appended to the message. */
    method Zero(len: nat) returns (err: nat)
      requires Valid()
      modifies this`world, this`nextId, this`makers, this`blockIndex, this`submittedIndex, this`blocks, this`carriers,
               this`standing, this`outer, this`hashedIndex, this`error, this`messageLength, pending, pending.data, sq,
               sq.slots
      ensures Valid() && world.mem == old(world.mem) && world.draining == old(world.draining)
      ensures old(error) != 0 ==> err == old(error) && world == old(world) && Message() == old(Message())
      ensures err == error && (err != 0 ==> Struck(err))
      ensures err == 0 ==> Message() == old(Message()) + Zeros(len)
      ensures old(error) == 0 ==> Moved(old(Now()), Now(), err == 0)
      ensures old(error) == 0 ==> Follows(old(CourseOfZeros(len)), Here(), err == 0)
    {
      hide Core, HistoryOk, Fed, Moved, CourseOfZeros, Follows, Here;
      if error == 0 {
        RunZero(len);
      }
      err := error;
      if err != 0 { HasCause(); }
    }

    method RunZero(len: nat)
      requires Valid() && error == 0
      modifies this`world, this`nextId, this`makers, this`blockIndex, this`submittedIndex, this`blocks, this`carriers,
               this`standing, this`outer, this`hashedIndex, this`error, this`messageLength, pending, pending.data, sq,
               sq.slots
      ensures Valid() && world.mem == old(world.mem) && world.draining == old(world.draining)
      ensures error == 0 ==> Message() == old(Message()) + Zeros(len)
      ensures Moved(old(Now()), Now(), error == 0)
      ensures Follows(old(CourseOfZeros(len)), Here(), error == 0)
    {
      hide Core, Concat, HistoryOk, Fed, Moved, Settled, Zeros, Now, AddZeros, Follows, Here;
      Unsettle();
      AddLength(len, Zeros(len));
      var ok := AbsorbZeros(len);
      Settle();
    }

    lemma CallEnds(v: View, w': World)
      requires Good(v) && (Kept(v.world, w') || KeptBase(v.world, w'))
      requires HistoryOk(v.sp.issued, v.sp.live, delivered, v.world.faults)
      ensures HistoryOk(v.sp.issued, v.sp.live, delivered, w'.faults)
    {
      hide QueueOk, Ordered, Placed, PoolOk, JobsOk, PhaseOk, DataOk, LinkOk, RefsOk, FireOk, NotifyOk, NoticeOk;
      hide ErrorsOk, FirstFault;
    }

    /** What the last submission will be due when the hash is finished now. */
    ghost function LastDue(): nat
      reads this, pending, pending.data
      requires PendingOk()
    {
      if pending.len == 0 then 0 else DueOf(pending.Bytes())
    }

    /** A call that failed left a full pending block of zeros, which will not get a marker. */
    ghost predicate TailLost()
      reads this, pending, pending.data
      requires PendingOk()
    {
      pending.len == bs && pending.Bytes() == Zeros(bs) && Loose()
    }

    /** Whether the hash can be finished, in terms of where the stream stands. */
    lemma Finishes()
      requires Valid() && error == 0 && !finalized
      ensures Bad(Now()) == {} && LastDue() == 0 <==> Passes(Here(), Terms(), pending.Bytes())
    {
      hide Core, Bad, Concat;
    }

    /** The digest of the blocks as they stand: each block for itself, or zeros if its digest failed, up to a tail
        of zero blocks. */
    ghost predicate Digests(md: seq<byte>)
      reads this
    {
      && |standing| == |carriers| == |blocks| && ZeroRange(standing, bs, hashedIndex, |standing|)
      && md == D(DigestCat(D, standing[..hashedIndex]) + LE64(messageLength % TWO64))
      && forall i :: 0 <= i < |blocks| ==> standing[i] == Stands(Sp(), carriers[i], i)
    }

    /** Finishes the hash.  It fails exactly when something it still has to hash is doomed, whatever happened
        before.  For a hash that never failed the digest is the reference digest of the whole message, and
        every submission has been freed; after an earlier failure it is the digest of the blocks as they stand,
        without the zeros at the end exactly when a full pending block of zeros gets no marker. */
    method Final() returns (err: nat, md: seq<byte>)
      requires Valid()
      modifies this`world, this`nextId, this`makers, this`blockIndex, this`submittedIndex, this`blocks, this`carriers,
               this`standing, this`outer, this`hashedIndex, this`error, this`finalized, this`sealed, pending,
               pending.data, sq,
               sq.slots
      ensures Valid() && finalized
      ensures old(finalized) ==> err == EINVAL && world == old(world)
      ensures !old(finalized) ==> (err == 0 <==> old(Bad(Now()) == {} && LastDue() == 0))
      ensures !old(finalized) && err != 0 ==> err == error && Struck(err)
      ensures !old(finalized) && err == 0 ==>
                error == old(error) && Digests(md) && (hashedIndex == |blocks| <==> !old(TailLost()))
      ensures !old(finalized) && err == 0 && old(error) == 0 ==>
                && world.subs == map[]
                && (|old(Message())| < TWO64 ==> md == BlockDigest(D, bs, old(Message())))
    {
      hide Core, HistoryOk, Fed, Bad, LastDue, Digests, BlockDigest, TailLost;
      md := [];
      if finalized {
        return EINVAL, md;
      }
      err, md := RunFinal();
      if err != 0 { HasCause(); }
    }

    method RunFinal() returns (err: nat, md: seq<byte>)
      requires Valid() && !finalized
      modifies this`world, this`nextId, this`makers, this`blockIndex, this`submittedIndex, this`blocks, this`carriers,
               this`standing, this`outer, this`hashedIndex, this`error, this`finalized, this`sealed, pending,
               pending.data, sq,
               sq.slots
      ensures Valid() && finalized
      ensures err == 0 <==> old(Bad(Now()) == {} && LastDue() == 0)
      ensures err != 0 ==> err == error
      ensures err == 0 ==> error == old(error) && Digests(md) && (hashedIndex == |blocks| <==> !old(TailLost()))
      ensures err == 0 && old(error) == 0 ==>
                && world.subs == map[]
                && (|old(Message())| < TWO64 ==> md == BlockDigest(D, bs, old(Message())))
    {
      hide Core, HistoryOk, Fed, BlockDigest, DigestCat, LE64, Bad, LastDue, Settled, TailLost;
      hide Digests, Hashed;
      Unsettle();
      ghost var m := Message();
      md := [];
      Close();
      var ok := Flush(m);
      if ok {
        md := Seal();
        err := 0;
        if error == 0 {
          FedClosed();
          DigestIs(D, bs, m, Blocks(m, bs), messageLength);
        }
      } else {
        err := error;
      }
      Settle();
    }

    lemma FedParts(m: seq<byte>)
      requires Fed(m)
      ensures pending.len < bs && Batched() && (finalized || AllSized(blocks, bs))
    {
    }

    lemma FedClosed()
      requires PendingOk() && bs > 0 && pending.len == 0 && finalized && Batched()
      ensures Fed(Message())
    {
    }

    /** What remains of a message is its pending tail. */
    lemma Remaining(m: seq<byte>)
      requires Fed(m) && !finalized && bs > 0
      ensures blocks + (if pending.len == 0 then [] else [pending.Bytes()]) == Blocks(m, bs)
    {
      hide Concat, Blocks;
      BlocksOfConcat(blocks, pending.Bytes(), bs);
    }

    /** No more input: from here on only what was consumed counts. */
    method Close()
      requires Core() && PendingOk() && !finalized
      modifies this`finalized
      ensures Core() && PendingOk() && finalized && Message() == old(Message())
      ensures Now() == old(Now()) && LastDue() == old(LastDue()) && TailLost() == old(TailLost())
      ensures old(Fed(Message())) ==>
                && blocks + (if pending.len == 0 then [] else [pending.Bytes()]) == Blocks(Message(), bs)
                && pending.len < bs && Batched()
    {
      hide Ring.Contents, Good, Concat, Blocks, Fed;
      if Fed(Message()) {
        Remaining(Message());
        FedParts(Message());
      }
      finalized := true;
    }

    /** Everything consumed is hashed: without an error, the outer digest is that of the blocks of the whole message. */
    method Flush(ghost m: seq<byte>) returns (ok: bool)
      requires Core() && PendingOk() && HistoryOk(issued, live, delivered, world.faults) && finalized && !sealed
      requires world.caller.Quiet?
      requires error == 0 ==> blocks + (if pending.len == 0 then [] else [pending.Bytes()]) == Blocks(m, bs)
                              && pending.len < bs && Batched()
      modifies this`world, this`nextId, this`makers, this`blockIndex, this`submittedIndex, this`blocks, this`carriers,
               this`standing, this`outer, this`hashedIndex, this`error, pending, pending.data, sq, sq.slots
      ensures Core() && PendingOk() && HistoryOk(issued, live, delivered, world.faults)
      ensures world.caller == old(world.caller)
      ensures ok <==> old(Bad(Now()) == {} && LastDue() == 0)
      ensures ok ==> error == old(error) && pending.len == 0
      ensures ok && error == 0 ==> outer == DigestCat(D, Blocks(m, bs)) && Batched() && world.subs == map[]
      ensures ok ==> Hashed(Now()) && (hashedIndex == |blocks| <==> !old(TailLost()))
      ensures !ok ==> error != 0 && (old(error) != 0 ==> error == old(error))
    {
      hide Ring.Contents, Good, Inv, Moved, Kept, KeptBase, Concat, HistoryOk, DigestCat, Blocks, Bad, LastDue;
      hide ZeroRange, Stands;
      ghost var v := Now();
      ok := Drain();
      MovedParts(v, Now(), ok);
      CallEnds(v, world);
    }

    /** Submits what is left, waits for everything and hashes it. */
    method Drain() returns (ok: bool)
      requires Core() && PendingOk() && world.caller.Quiet?
      modifies this`world, this`nextId, this`makers, this`blockIndex, this`submittedIndex, this`blocks, this`carriers,
               this`standing, this`outer, this`hashedIndex, this`error, pending, pending.data, sq, sq.slots
      ensures Core() && Moved(old(Now()), Now(), ok) && PendingOk()
      ensures ok <==> old(Bad(Now()) == {} && LastDue() == 0)
      ensures ok ==> error == old(error) && pending.len == 0
                     && blocks == old(blocks) + old(if pending.len == 0 then [] else [pending.Bytes()])
                     && (old(submittedIndex <= blockIndex) ==> Batched())
      ensures ok && !sealed ==>
                && Hashed(Now()) && (error == 0 ==> standing == blocks && world.subs == map[])
                && (if old(TailLost()) then hashedIndex < |blocks|
                    else hashedIndex == |blocks| && standing[..hashedIndex] == standing)
      ensures !ok ==> error != 0 && (old(error) != 0 ==> error == old(error))
    {
      hide Ring.Contents, Good, Inv, Moved, IsTight, IsShort, DigestCat, Bad, LastDue, TailLost;
      ghost var v0 := Now();
      ok := FlushLast();
      ghost var v1 := Now();
      if ok {
        ok := HashInflight();
        MovedThen(v0, v1, Now(), ok);
        if ok && !sealed {
          AllHashed(Now());
        }
        if ok { MovedBad(v0, v1); }
      }
    }

    /** The last block is short, or there is none and a marker stands behind the zero blocks. */
    method FlushLast() returns (ok: bool)
      requires Core() && PendingOk() && world.caller.Quiet?
      modifies this`world, this`nextId, this`makers, this`blockIndex, this`submittedIndex, this`blocks, this`carriers,
               this`standing, this`outer, this`hashedIndex, this`error, pending, pending.data, sq, sq.slots
      ensures Core() && Moved(old(Now()), Now(), ok) && PendingOk()
      ensures old(Bad(Now()) == {} && LastDue() == 0) ==> ok && Bad(Now()) == {}
      ensures ok && old(LastDue()) != 0 ==> Bad(Now()) != {}
      ensures ok ==> error == old(error) && pending.len == 0
                     && blocks == old(blocks) + old(if pending.len == 0 then [] else [pending.Bytes()])
                     && (old(submittedIndex <= blockIndex) ==> Batched())
                     && (if old(TailLost()) then IsShort(Now()) else IsTight(Now()))
      ensures !ok ==> error != 0 && (old(error) != 0 ==> error == old(error))
    {
      hide Ring.Contents, Good, Inv, Moved, Bad, IsTight, IsShort;
      if pending.len > 0 {
        ok := ConsumePending(NoLink);
      } else {
        ok := SubmitZeroBlock();
        assert blocks + [] == blocks;
      }
    }

    /** The length goes last; the outer digest takes no more. */
    method Seal() returns (md: seq<byte>)
      requires Core() && messageLength < TWO64
      modifies this`outer, this`sealed
      ensures Core() && sealed && md == D(old(outer) + LE64(messageLength)) && (old(Hashed(Now())) ==> Digests(md))
    {
      hide Ring.Contents, Good, ZeroRange, DigestCat, LE64, Stands;
      ghost var v := Now();
      outer := outer + LE64(messageLength);
      sealed := true;
      SealGood(v, outer);
      assert Now() == v.(open := false, outer := outer);
      md := D(outer);
    }

    // -------------------------------------------------------------- asynchronous updates

    /** Starts an update that borrows the buffer until its record is delivered. */
    method AioUpdate(buf: nat, len: nat, userData: nat) returns (err: nat)
      requires Valid() && buf in world.mem && len <= |world.mem[buf]|
      modifies this`world, this`nextId, this`makers, this`nextTicket, this`blockIndex, this`submittedIndex, this`blocks,
               this`carriers, this`standing, this`outer, this`hashedIndex, this`error, this`messageLength,
               this`inflight, this`issued, this`live, this`broken, pending, pending.data, sq, sq.slots
      ensures Valid() && world.mem == old(world.mem) && world.draining == old(world.draining)
      ensures err == if old(error) != 0 then old(error) else if old(inflight) >= queueDepth then EAGAIN else 0
      ensures err != 0 ==>
                && issued == old(issued) && live == old(live) && error == old(error)
                && Message() == old(Message()) && Here() == old(Here())
      ensures error != 0 ==> Struck(error)
      ensures broken == if err == 0 && error != 0 then old(broken) + {|old(issued)|} else old(broken)
      ensures if err == 0 then MadeBy(old(makers), makers, Link(|old(issued)|)) else makers == old(makers)
      ensures err == 0 ==>
                && issued == old(issued) + [Issue(userData, buf)] && live == old(live) + {|old(issued)|}
                && |old(issued)| !in old(live)
                && (error == 0 ==> Message() == old(Message()) + old(world.mem[buf])[..len])
                && (error != 0 ==> FirstFault(world.faults, |old(issued)|) != 0)
      ensures err == 0 ==>
                Follows(old(CourseOfUpdate(buf, len, false)), Here(), error == 0)
    {
      hide Core, HistoryOk, Fed, CourseOfUpdate, Follows, Here, MadeBy, Struck;
      if error != 0 {
        HasCause();
        return error;
      }
      if inflight >= queueDepth {
        return EAGAIN;
      }
      RunAio(buf, len, userData);
      if error != 0 { HasCause(); }
      err := 0;
    }

    method RunAio(buf: nat, len: nat, userData: nat)
      requires Valid() && error == 0 && inflight < queueDepth && buf in world.mem && len <= |world.mem[buf]|
      modifies this`world, this`nextId, this`makers, this`nextTicket, this`blockIndex, this`submittedIndex, this`blocks,
               this`carriers, this`standing, this`outer, this`hashedIndex, this`error, this`messageLength,
               this`inflight, this`issued, this`live, this`broken, pending, pending.data, sq, sq.slots
      ensures Valid() && world.mem == old(world.mem) && world.draining == old(world.draining)
      ensures issued == old(issued) + [Issue(userData, buf)] && live == old(live) + {|old(issued)|}
      ensures |old(issued)| !in old(live)
      ensures error == 0 ==> Message() == old(Message()) + old(world.mem[buf])[..len]
      ensures error != 0 ==> FirstFault(world.faults, |old(issued)|) != 0
      ensures broken == if error != 0 then old(broken) + {|old(issued)|} else old(broken)
      ensures MadeBy(old(makers), makers, Link(|old(issued)|))
      ensures Follows(old(CourseOfUpdate(buf, len, false)), Here(), error == 0)
    {
      hide Core, Concat, HistoryOk, Fed, FirstFault, Lent, Settled, CourseOfUpdate, Follows, Here, MadeBy;
      Unsettle();
      var ok := StartAio(buf, len, userData);
      FinishAio(ok);
      Settle();
    }

    method StartAio(buf: nat, len: nat, userData: nat) returns (ok: bool)
      requires Core() && PendingOk() && Fed(Message()) && world.caller.Quiet? && nextTicket == |issued|
      requires inflight == |live| < queueDepth && HistoryOk(issued, live, delivered, world.faults)
      requires buf in world.mem && len <= |world.mem[buf]|
      modifies this`world, this`nextId, this`makers, this`nextTicket, this`blockIndex, this`submittedIndex, this`blocks,
               this`carriers, this`standing, this`outer, this`hashedIndex, this`error, this`messageLength,
               this`inflight, this`issued, this`live, this`broken, pending, pending.data, sq, sq.slots
      ensures Core() && PendingOk() && HistoryOk(issued, live, delivered, world.faults)
      ensures world.caller == Holding(|old(issued)|) && nextTicket == |issued|
      ensures world.mem == old(world.mem) && world.draining == old(world.draining)
      ensures issued == old(issued) + [Issue(userData, buf)] && live == old(live) + {|old(issued)|}
      ensures |old(issued)| !in old(live) && inflight == old(inflight) + 1 == |live| && messageLength < TWO64
      ensures ok ==> error == old(error) && Fed(Message()) && Message() == old(Message()) + old(world.mem[buf])[..len]
                     && (old(messageLength == |Message()| % TWO64) ==> messageLength == |Message()| % TWO64)
      ensures !ok ==> error != 0
      ensures broken == old(broken) && MadeBy(old(makers), makers, Link(|old(issued)|))
      ensures Follows(old(CourseOfUpdate(buf, len, false)), Here(), ok)
    {
      hide Core, Concat, HistoryOk, Fed, Moved, Now, Message, AddData, Follows, Here, MadeBy;
      Begin(userData, buf);
      AddLength(len, world.mem[buf][..len]);
      ok := Absorb(buf, len, Link(nextTicket - 1), false);
    }

    method FinishAio(ok: bool)
      requires Core() && PendingOk() && world.caller.Holding? && HistoryOk(issued, live, delivered, world.faults)
      requires !ok ==> error != 0
      modifies this`world, this`broken
      ensures Core() && world.caller.Quiet? && HistoryOk(issued, live, delivered, world.faults)
      ensures world.mem == old(world.mem) && world.draining == old(world.draining)
      ensures !ok ==> FirstFault(world.faults, old(world.caller.ticket)) != 0
      ensures broken == if ok then old(broken) else old(broken) + {old(world.caller.ticket)}
      ensures Here() == old(Here())
    {
      hide Core, HistoryOk, FirstFault, Here;
      if !ok {
        NoteFailure();
      }
      Release();
    }

    /** Counts the update and gives it a completion that the caller holds. */
    method Begin(userData: nat, buf: nat)
      requires Core() && world.caller.Quiet? && nextTicket == |issued|
      requires inflight == |live| < queueDepth && HistoryOk(issued, live, delivered, world.faults)
      modifies this`world, this`nextTicket, this`inflight, this`issued, this`live
      ensures Core() && nextTicket == |issued|
      ensures world.caller == Holding(|old(issued)|)
      ensures world.mem == old(world.mem) && world.draining == old(world.draining)
      ensures issued == old(issued) + [Issue(userData, buf)] && live == old(live) + {|old(issued)|}
      ensures |old(issued)| !in old(live) && inflight == old(inflight) + 1 == |live|
      ensures HistoryOk(issued, live, delivered, world.faults) && Here() == old(Here())
    {
      hide Core, HistoryOk, Here;
      BeginHistory(issued, live, delivered, world.faults, Issue(userData, buf));
      NewCompletion(userData, buf);
    }

    method NewCompletion(userData: nat, buf: nat)
      requires Core() && world.caller.Quiet? && nextTicket == |issued| && FirstFault(world.faults, |issued|) == 0
      requires |live| < queueDepth
      modifies this`world, this`nextTicket, this`inflight, this`issued, this`live
      ensures Core() && nextTicket == |issued| && inflight == old(inflight) + 1
      ensures world.caller == Holding(|old(issued)|) && world.faults == old(world.faults)
      ensures world.mem == old(world.mem) && world.draining == old(world.draining)
      ensures issued == old(issued) + [Issue(userData, buf)] && live == old(live) + {|old(issued)|}
      ensures Here() == old(Here())
    {
      hide Ring.Contents, Good, BeginUpdate, FirstFault, Bad;
      ghost var v := Now();
      BeginGood(v, userData, buf);
      world := BeginUpdate(world, nextTicket, userData, buf);
      CountUpdate(userData, buf, v.ids);
      assert Now() == v.(sp := Started(v.sp, userData, buf), world := world);
      SameBad(v, Now());
    }

    method CountUpdate(userData: nat, buf: nat, ghost ids: seq<nat>)
      requires nextTicket == |issued|
      modifies this`nextTicket, this`inflight, this`issued, this`live
      ensures nextTicket == |issued| && inflight == old(inflight) + 1
      ensures issued == old(issued) + [Issue(userData, buf)] && live == old(live) + {|old(issued)|}
      ensures With(ids) == old(With(ids)).(sp := Started(old(Sp()), userData, buf))
    {
      inflight := inflight + 1;
      issued, live := issued + [Issue(userData, buf)], live + {|issued|};
      nextTicket := nextTicket + 1;
    }

    /** The update failed in the caller: its record will carry an error. */
    method NoteFailure()
      requires Core() && world.caller.Holding? && error != 0 && HistoryOk(issued, live, delivered, world.faults)
      modifies this`world, this`broken
      ensures Core() && broken == old(broken) + {old(world.caller.ticket)}
      ensures HistoryOk(issued, live, delivered, world.faults)
      ensures world.mem == old(world.mem) && world.caller == old(world.caller) && world.draining == old(world.draining)
      ensures FirstFault(world.faults, world.caller.ticket) != 0 && Here() == old(Here())
    {
      hide Ring.Contents, Good, Inv, Moved, HistoryOk, IsTight, IsShort, Rely, Bad;
      ghost var v := Now();
      Yield();
      RelyKept(v.world, world);
      KeptCaller(v.world, world);
      ghost var v1 := Now();
      FailureGood(v1, world.caller.ticket);
      world := SetFault(world, world.caller.ticket, error);
      KeptTransitive(v.world, v1.world, world);
      KeptCaller(v.world, world);
      CallEnds(v, world);
      broken := broken + {world.caller.ticket};
      assert Now() == v1.(sp := v1.sp.(broken := broken), world := world);
      SameBad(v1, Now());
    }

    /** Drops the caller's reference and, if it was the last one, runs the callback. */
    method Release()
      requires Core() && world.caller.Holding? && HistoryOk(issued, live, delivered, world.faults)
      modifies this`world
      ensures Core() && world.caller.Quiet? && HistoryOk(issued, live, delivered, world.faults)
      ensures world.mem == old(world.mem) && world.draining == old(world.draining)
      ensures forall t: nat :: old(FirstFault(world.faults, t)) != 0 ==> FirstFault(world.faults, t) != 0
      ensures Here() == old(Here())
    {
      hide Ring.Contents, Good, Inv, HistoryOk, IsTight, IsShort, Concat, KeptBase, FirstFault, Here;
      ghost var v := Now();
      DropReference();
      label dropped:
      if world.caller.CallerFiring? {
        RunCallback();
        KeptBaseTransitive(v.world, old@dropped(world), world);
      }
      label fired:
      if world.caller.CallerNotifying? {
        Signal();
        KeptBaseTransitive(v.world, old@fired(world), world);
      }
      CallEnds(v, world);
      KeptBaseParts(v.world, world);
    }

    method DropReference()
      requires Core() && world.caller.Holding?
      modifies this`world
      ensures Core() && KeptBase(old(world), world) && Here() == old(Here())
      ensures world.caller.Quiet? || world.caller.CallerFiring?
    {
      hide Ring.Contents, Good, Inv, IsTight, IsShort, Bad;
      ghost var v := Now();
      Yield();
      ghost var v1 := Now();
      GoodInv(v1);
      EndUpdateInv(Sp(), world);
      world := EndUpdate(world);
      ReleaseGood(v1, world);
      assert Now() == v1.(world := world);
      SameBad(v1, Now());
    }

    method RunCallback()
      requires Core() && world.caller.CallerFiring?
      modifies this`world
      ensures Core() && KeptBase(old(world), world) && Here() == old(Here())
      ensures world.caller.Quiet? || world.caller.CallerNotifying?
    {
      hide Ring.Contents, Good, Inv, IsTight, IsShort, Bad;
      ghost var v := Now();
      Yield();
      ghost var v1 := Now();
      GoodInv(v1);
      CallerFireInv(Sp(), world);
      world := CallerFire(world, queueDepth);
      ReleaseGood(v1, world);
      assert Now() == v1.(world := world);
      SameBad(v1, Now());
    }

    method Signal()
      requires Core() && world.caller.CallerNotifying?
      modifies this`world
      ensures Core() && KeptBase(old(world), world) && world.caller.Quiet? && Here() == old(Here())
    {
      hide Ring.Contents, Good, Inv, IsTight, IsShort, Bad;
      ghost var v := Now();
      Yield();
      ghost var v1 := Now();
      GoodInv(v1);
      CallerNotifyInv(Sp(), world);
      world := CallerNotify(world);
      ReleaseGood(v1, world);
      assert Now() == v1.(world := world);
      SameBad(v1, Now());
    }

    // -------------------------------------------------------------- completions

    /** Blocks until the descriptor is readable; with an update outstanding that always happens. */
    method Poll()
      requires Valid() && live != {} && !world.draining
      modifies this`world
      ensures Valid() && world.event && Rely(old(world), world) && Here() == old(Here())
    {
      hide Core, HistoryOk, Fed, Settled, Rely, Here;
      Unsettle();
      AwaitEvent();
      Settle();
    }

    method AwaitEvent()
      requires Core() && live != {} && !world.draining && world.caller.Quiet?
      requires HistoryOk(issued, live, delivered, world.faults)
      modifies this`world
      ensures Core() && world.event && world.caller.Quiet? && Rely(old(world), world)
      ensures HistoryOk(issued, live, delivered, world.faults) && Here() == old(Here())
    {
      hide Ring.Contents, Good, Inv, Rely, HistoryOk, Moved, KeptBase, Effort, Lost, Bad;
      ghost var v := Now();
      GoodInv(v);
      Interfere();
      while !world.event
        invariant Inv(Sp(), world) && Rely(v.world, world)
        decreases Effort(world)
      {
        RelyParts(v.world, world);
        EventComes(Sp(), world);
        label turn:
        Schedule();
        RelyTransitive(v.world, old@turn(world), world);
        label rest:
        Interfere();
        RelyParts(old@rest(world), world);
        RelyTransitive(v.world, old@rest(world), world);
      }
      RelyParts(v.world, world);
      RelyGood(v, world);
      RelyMoved(v, world);
      RelyKept(v.world, world);
      CallEnds(v, world);
      assert Now() == v.(world := world);
    }

    /** The application is busy elsewhere until the workers are done with a submission. */
    method LetFinish(id: nat)
      requires Valid() && id in world.subs
      modifies this`world
      ensures Valid() && Moved(old(Now()), Now(), true) && world.mem == old(world.mem)
      ensures id in world.subs && world.subs[id].completed
    {
      hide Core, HistoryOk, Fed, Settled, Moved;
      Unsettle();
      AwaitSubmission(id);
      Settle();
    }

    method AwaitSubmission(id: nat)
      requires Core() && id in world.subs && HistoryOk(issued, live, delivered, world.faults)
      modifies this`world
      ensures Core() && Moved(old(Now()), Now(), true) && HistoryOk(issued, live, delivered, world.faults)
      ensures world.caller == old(world.caller) && world.mem == old(world.mem)
      ensures id in world.subs && world.subs[id].completed
    {
      hide Ring.Contents, Good, Inv, Rely, HistoryOk, Kept, KeptBase, Moved, Bad;
      ghost var v := Now();
      GoodInv(v);
      Wait(id);
      RelyParts(v.world, world);
      RelyGood(v, world);
      RelyMoved(v, world);
      RelyKept(v.world, world);
      CallEnds(v, world);
      assert Now() == v.(world := world);
    }

    /** Reads the descriptor: the event is cleared and the caller has to look at the records next. */
    method ReadFd() returns (was: bool)
      requires Valid()
      modifies this`world
      ensures Valid() && world.mem == old(world.mem) && (old(world.event) ==> was)
      ensures was ==> world.draining && !world.event && Effort(world) < old(Effort(world))
      ensures !was ==> world.draining == old(world.draining) && Effort(world) <= old(Effort(world))
      ensures Here() == old(Here())
    {
      hide Core, HistoryOk, Fed, Settled, Effort, Here;
      Unsettle();
      was := ClearEvent();
      Settle();
    }

    /** Workers run while the caller is between two shared accesses. */
    method Pause()
      requires Core() && HistoryOk(issued, live, delivered, world.faults)
      modifies this`world
      ensures Core() && HistoryOk(issued, live, delivered, world.faults)
      ensures world.mem == old(world.mem) && world.caller == old(world.caller) && world.draining == old(world.draining)
      ensures old(world.cq) <= world.cq && (old(world.event) ==> world.event) && Effort(world) <= old(Effort(world))
      ensures Here() == old(Here()) && Lost(world) == old(Lost(world))
    {
      hide Ring.Contents, Good, Inv, IsTight, IsShort, HistoryOk, Moved, KeptBase, Rely, Effort, Bad, Lost;
      ghost var v := Now();
      GoodInv(v);
      Interfere();
      RelyParts(v.world, world);
      RelyGood(v, world);
      RelyMoved(v, world);
      RelyKept(v.world, world);
      CallEnds(v, world);
      assert Now() == v.(world := world);
    }

    method ClearEvent() returns (was: bool)
      requires Core() && HistoryOk(issued, live, delivered, world.faults)
      modifies this`world
      ensures Core() && world.mem == old(world.mem) && world.caller == old(world.caller)
      ensures HistoryOk(issued, live, delivered, world.faults) && (old(world.event) ==> was)
      ensures was ==> world.draining && !world.event && Effort(world) < old(Effort(world))
      ensures !was ==> world.draining == old(world.draining) && Effort(world) <= old(Effort(world))
      ensures Here() == old(Here())
    {
      hide Ring.Contents, Good, Inv, HistoryOk, Bad, Lost;
      Pause();
      ghost var v := Now();
      GoodInv(v);
      ReadEventInv(Sp(), world);
      was := world.event;
      world := ReadEvent(world);
      ReleaseGood(v, world);
      assert Now() == v.(world := world);
      SameBad(v, Now());
    }

    /** Takes up to `count` records in the order in which they were queued, and announces what is left. */
    method Completions(count: nat) returns (n: int, records: seq<Record>)
      requires Valid()
      modifies this`world, this`inflight, this`live, this`delivered
      ensures Valid() && world.mem == old(world.mem)
      ensures delivered == old(delivered) + records && live == old(live) - Tickets(records)
      ensures error != 0 ==> n == -(error as int) && records == [] && world == old(world) && inflight == old(inflight)
      ensures error == 0 ==> n == |records| <= count && inflight == old(inflight) - n
      ensures error == 0 ==> old(world.cq) <= records + world.cq && (|old(world.cq)| <= |records| || |records| == count)
      ensures forall r :: r in records ==>
                && r.ticket in old(live) && r.ticket < |issued|
                && r.userData == issued[r.ticket].userData && r.error == FirstFault(world.faults, r.ticket)
                && (r.error != 0 <==> Faulted(r.ticket)) && (r.error != 0 ==> Told(r.ticket, r.error))
      ensures error != 0 ==> Struck(error)
      ensures error == 0 ==> world.draining == (old(world.draining) && count == 0)
      ensures error == 0 && records == [] ==> Effort(world) <= old(Effort(world))
      ensures Lost(world) <==> old(Lost(world)) && (count == 0 || error != 0)
      ensures Here() == old(Here())
    {
      hide Core, HistoryOk, Fed, Settled, Effort, FirstFault, Tickets, Lost, Here;
      Unsettle();
      NoTickets();
      if error != 0 {
        HasCause();
        return -(error as int), [];
      }
      Pause();
      records := Take(count);
      n := |records|;
      if world.caller.CallerNotifying? {
        Announce();
      }
      Attributed(records);
      if count > 0 { AllAnnounced(); }
      Settle();
    }

    /** The call of update `t` failed, or a submission made for it is doomed. */
    ghost predicate Faulted(t: nat)
      reads this
    {
      t in broken || exists id :: MadeFor(t, id) && Due(Sp(), id, world.subs[id]) != 0
    }

    ghost predicate MadeFor(t: nat, id: nat)
      reads this
    {
      id < |makers| && makers[id] == Link(t) && id in world.subs
    }

    /** Error `e` is that of a submission made for update `t`, or of one that its call met. */
    ghost predicate Told(t: nat, e: nat)
      reads this
    {
      exists id :: (MadeFor(t, id) || (t in broken && id in world.subs)) && Due(Sp(), id, world.subs[id]) == e
    }

    lemma ToldStruck(t: nat, e: nat)
      requires Told(t, e) && e != 0
      ensures Struck(e)
    {
    }

    /** Every record is that of an update, with its first error, and it has one exactly when a submission made for
        the update is doomed or its call failed. */
    lemma Attributed(records: seq<Record>)
      requires Core() && HistoryOk(issued, live, delivered, world.faults) && forall r :: r in records ==> r in delivered
      ensures forall r :: r in records ==>
                && r.ticket < |issued| && r.userData == issued[r.ticket].userData
                && r.error == FirstFault(world.faults, r.ticket)
                && (r.error != 0 <==> Faulted(r.ticket)) && (r.error != 0 ==> Told(r.ticket, r.error))
    {
      hide Core, HistoryOk, FirstFault, Faulted, Told;
      forall r | r in records
        ensures r.ticket < |issued| && r.userData == issued[r.ticket].userData
        ensures r.error == FirstFault(world.faults, r.ticket)
        ensures (r.error != 0 <==> Faulted(r.ticket)) && (r.error != 0 ==> Told(r.ticket, r.error))
      {
        HistoryRecord(issued, live, delivered, world.faults, r);
        CoreInv();
        DeliveredOnce(Sp(), world, delivered, r);
        FaultIs(r.ticket);
      }
    }

    /** A record without an error means that every block its update handed over is hashed for what it is. */
    lemma CleanRecord(r: Record, i: nat)
      requires Valid() && !sealed && r in delivered && r.error == 0 && i < |blocks| && i < |carriers|
      requires 0 <= carriers[i] < |makers| && makers[carriers[i]] == Link(r.ticket)
      ensures Stands(Sp(), carriers[i], i) == blocks[i]
    {
      hide Ring.Contents, Inv, QueueOk, Ordered, GuiltOk, MadeOk, Fed, HistoryOk, FirstFault, Faulted, Told;
      Attributed([r]);
      assert r in [r];
      assert PlaceOk(Sp(), world.subs, Ids(), carriers[i], i, standing[i]);
      if carriers[i] in world.subs {
        NotFaulted(r.ticket, carriers[i]);
        PlaceDue(Now(), i, carriers[i]);
      }
    }

    lemma NotFaulted(t: nat, id: nat)
      requires !Faulted(t) && MadeFor(t, id)
      ensures Due(Sp(), id, world.subs[id]) == 0
    {
    }

    lemma CoreInv()
      requires Core()
      ensures Inv(Sp(), world)
    {
      hide Ring.Contents, Inv, QueueOk, Ordered, Placed, GuiltOk, MadeOk;
    }

    lemma FaultIs(t: nat)
      requires Core() && t !in world.comps
      ensures FirstFault(world.faults, t) != 0 <==> Faulted(t)
      ensures FirstFault(world.faults, t) != 0 ==> Told(t, FirstFault(world.faults, t))
    {
      hide Ring.Contents, Inv, QueueOk, Ordered, Placed, GuiltOk, FirstFault;
      FaultExactly(Sp(), world, t);
      assert forall id :: id in world.subs && Due(Sp(), id, world.subs[id]) != 0 ==>
        world.subs[id].origin == makers[id];
      if FirstFault(world.faults, t) != 0 {
        var e := FirstFault(world.faults, t);
        var id :| Accounts(Sp(), world.subs, t, e, id);
        assert MadeFor(t, id) || (t in broken && id in world.subs);
        assert Due(Sp(), id, world.subs[id]) == e;
      }
      if t !in broken {
        if id :| Afflicts(Sp(), world.subs, t, id) {
          assert MadeFor(t, id) && Due(Sp(), id, world.subs[id]) != 0;
        }
        if id :| MadeFor(t, id) && Due(Sp(), id, world.subs[id]) != 0 {
          assert Afflicts(Sp(), world.subs, t, id);
        }
      }
    }

    lemma AllAnnounced()
      requires Core() && !world.draining
      ensures !Lost(world)
    {
      hide Ring.Contents, Inv, QueueOk, Ordered, Placed, Lost;
      NothingLost(Sp(), world);
    }

    method Take(count: nat) returns (records: seq<Record>)
      requires Core() && world.caller.Quiet? && inflight == |live| && HistoryOk(issued, live, delivered, world.faults)
      modifies this`world, this`inflight, this`live, this`delivered
      ensures Core() && world.mem == old(world.mem) && HistoryOk(issued, live, delivered, world.faults)
      ensures delivered == old(delivered) + records && live == old(live) - Tickets(records)
      ensures |records| <= count && inflight == old(inflight) - |records| == |live|
      ensures old(world.cq) <= records + world.cq && (|old(world.cq)| <= |records| || |records| == count)
      ensures forall r :: r in records ==> r.ticket in old(live)
      ensures world.draining == (old(world.draining) && count == 0)
      ensures world.caller.Quiet? || (world.caller.CallerNotifying? && records != [])
      ensures records == [] ==> Effort(world) <= old(Effort(world))
      ensures Here() == old(Here()) && (Lost(world) <==> old(Lost(world)) && count == 0)
    {
      hide Ring.Contents, Good, Inv, HistoryOk, Tickets, TakeRecords, TakeCount, Effort, Bad, Lost;
      ghost var v := Now();
      TakeEffect(world, count);
      TakeKeepsNotice(world, count);
      GoodInv(v);
      TakeHistory(Sp(), world, count, delivered);
      TakenOk(Sp(), world, count);
      TakeFrees(Sp(), world, count);
      TakeGood(v, count);
      records := world.cq[..TakeCount(world, count)];
      world := TakeRecords(world, count);
      assert inflight >= |records|;
      FreeSlots(records, v.ids);
      SameBad(v, Now());
    }

    /** The slots of the records are free, and their updates delivered. */
    method FreeSlots(records: seq<Record>, ghost ids: seq<nat>)
      requires |records| <= inflight
      modifies this`inflight, this`live, this`delivered
      ensures inflight == old(inflight) - |records| && live == old(live) - Tickets(records)
      ensures delivered == old(delivered) + records
      ensures With(ids) == old(With(ids)).(sp := old(Sp()).(live := live))
    {
      hide Tickets;
      inflight := inflight - |records|;
      live, delivered := live - Tickets(records), delivered + records;
    }

    method Announce()
      requires Core() && world.caller.CallerNotifying? && HistoryOk(issued, live, delivered, world.faults)
      modifies this`world
      ensures Core() && world.caller.Quiet? && HistoryOk(issued, live, delivered, world.faults)
      ensures world.mem == old(world.mem) && world.draining == old(world.draining) && old(world.cq) <= world.cq
      ensures Here() == old(Here())
    {
      hide Ring.Contents, Good, Inv, HistoryOk, Rely, Here;
      ghost var v := Now();
      Signal();
      CallEnds(v, world);
    }

    /** The application writes one of its buffers: allowed once no undelivered update was lent it, and then
        without any effect on the message or on what the digest will be. */
    method WriteBuffer(buf: nat, content: seq<byte>)
      requires Valid() && forall t :: t in live && t < |issued| ==> issued[t].buf != buf
      modifies this`world
      ensures Valid() && world == UserWrite(old(world), buf, content) && Here() == old(Here())
    {
      hide Ring.Contents, Good, Inv, IsTight, IsShort, HistoryOk, Fed, Settled, Bad;
      Unsettle();
      ghost var v := Now();
      GoodInv(v);
      UserWriteInv(Sp(), world, buf, content);
      world := UserWrite(world, buf, content);
      ReleaseGood(v, world);
      assert Now() == v.(world := world);
      SameBad(v, Now());
      Settle();
    }
  }
}
