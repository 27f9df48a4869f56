/** The blksum event loop: reads an image in whatever order the source completes, and hashes it in order.

    The source is an oracle.  It answers a query for extents truthfully or not at all, completes reads in any
    order, a read may complete before the call that started it returns, and it may wake the loop for nothing a
    number of times. */
module EventLoop {
  import opened Streams
  import opened Shared
  import opened Views
  import opened Flows
  import opened Courses
  import opened Engine
  import opened Commands
  import opened Config

  const MAX_EXTENTS: nat := 4096

  /** How a run ends: with the image hashed, on request, because the source or the poll failed, or because the
      hash failed. */
  datatype Outcome = Done | Stopped | Broken | Failed

  /** What surrounds the loop: the image, whether source and poll can fail, whether the run can be stopped, and how
      often the source wakes the loop without having completed a read. */
  datatype Setting = Setting(image: seq<byte>, reliable: bool, stoppable: bool, wakeups: nat)

  method AllocateBuffers(h: Blkhash, count: nat, size: nat)
    requires h.Valid() && h.live == {} && !h.world.draining
    modifies h`world
    ensures h.Valid() && Buffered(count, size, h.world.mem) && !h.world.draining
  {
    hide Blkhash.Core, Blkhash.Fed, Blkhash.Settled;
    for c := 0 to count
      invariant h.Valid() && Buffered(c, size, h.world.mem) && !h.world.draining
    {
      h.WriteBuffer(c, Zeros(size));
    }
  }

  class Checksum {
    const image: seq<byte>
    const reliable: bool
    const stoppable: bool
    var wakeups: nat
    const h: Blkhash
    const readSize: nat
    const extentsSize: nat

    var cmds: seq<Command>
    var readQ: seq<nat>
    var hashQ: seq<nat>
    var extents: seq<Extent>
    var index: nat
    var readOffset: nat
    var bytesHashed: nat
    var commandsInFlight: nat
    ghost var handed: nat
    ghost var log: seq<(nat, nat)>      // offset and length of every call made to the hash

    ghost function Now(): Loop
      reads this, h`world
    {
      Loop(cmds, readQ, hashQ, readOffset, handed, bytesHashed, commandsInFlight, h.world.mem)
    }

    /** A submission that the hash made is doomed. */
    ghost predicate Struck()
      reads h
    {
      exists e :: h.Struck(e)
    }

    ghost predicate LoopOk()
      reads this, h`world
    {
      Ok(image, readSize, h.queueDepth, Now()) && ExtentsOk() && Contiguous(log, handed)
    }

    ghost predicate ExtentsOk()
      reads this`extents, this`index, this`readOffset
    {
      readSize > 0 && extentsSize > 0 && index <= |extents| && Truthful(image, extents[index..], readOffset)
    }

    ghost predicate HashOk(late: seq<Record>)
      reads this, h, h.pending, h.pending.data, h.sq, h.sq.slots
    {
      && h.Valid() && !h.finalized && h.queueDepth > 0
      && Lends(h.issued, h.live, late, Owed(cmds, hashQ))
      && (h.error == 0 ==> handed <= |image| && h.Message() == image[..handed])
      && (h.error != 0 ==> h.live != {})
    }

    ghost predicate Valid()
      reads this, h, h.pending, h.pending.data, h.sq, h.sq.slots
    {
      LoopOk() && HashOk([]) && !h.world.draining
    }

    /** All commands idle, each with a buffer of its own, and a new hash. */
    constructor (D: seq<byte> -> seq<byte>, fails: nat -> nat, env: Setting, blockSize: nat, threads: nat,
                 queueDepth: nat, readSize: nat, extentsSize: nat)
      requires blockSize >= 16 && blockSize % 2 == 0 && 1 <= threads <= MAX_THREADS
      requires queueDepth > 0 && readSize > 0 && extentsSize > 0
      ensures Valid() && h.D == D && h.bs == blockSize && h.fails == fails && bytesHashed == 0
      ensures image == env.image && reliable == env.reliable && stoppable == env.stoppable
      ensures fresh(h) && fresh(h.pending) && fresh(h.pending.data) && fresh(h.sq) && fresh(h.sq.slots)
    {
      hide Blkhash.Core, Blkhash.Fed, Blkhash.Settled, Ok, Owed, Idle, Range, HashOk;
      var hash := new Blkhash(D, fails, blockSize, threads, queueDepth, ZERO_BATCH_SIZE);
      AllocateBuffers(hash, queueDepth, readSize);
      image, reliable, stoppable, wakeups := env.image, env.reliable, env.stoppable, env.wakeups;
      this.readSize, this.extentsSize, h := readSize, extentsSize, hash;
      cmds, readQ, hashQ := Idle(queueDepth), [], Range(queueDepth);
      extents, index, readOffset, bytesHashed, commandsInFlight := [], 0, 0, 0, 0;
      handed, log := 0, [];
      new;
      InitOk(image, readSize, queueDepth, h.world.mem);
      NothingLent();
    }

    lemma NothingLent()
      requires h.Valid() && !h.finalized && h.queueDepth > 0 && h.error == 0
      requires h.live == {} && Owed(cmds, hashQ) == {} && handed == 0 && h.Message() == []
      ensures HashOk([])
    {
      hide Blkhash.Core, Blkhash.Fed, Blkhash.Settled, Owed;
    }

    /** The next extent of the image. */
    method NextExtent() returns (e: Extent)
      requires ExtentsOk() && readOffset < |image|
      modifies this`extents, this`index
      ensures e.length > 0 && readOffset + e.length <= |image|
      ensures if e.zero then Slice(image, readOffset, e.length, Zeros(e.length)) else e.length <= readSize
      ensures index <= |extents| && Truthful(image, extents[index..], readOffset + e.length)
      ensures old(index < |extents|) ==> e == Taken(old(extents)[old(index)])
    {
      if index == |extents| {
        var answered := FetchExtents();
      }
      e := TakeExtent();
    }

    /** All of a zero extent, or up to the read size of a data extent. */
    function Taken(current: Extent): Extent {
      Extent(if current.zero || current.length < readSize then current.length else readSize, current.zero)
    }

    method TakeExtent() returns (e: Extent)
      requires ExtentsOk() && index < |extents|
      modifies this`extents, this`index
      ensures e == Taken(old(extents[index])) && e.length > 0 && readOffset + e.length <= |image|
      ensures e.zero ==> Slice(image, readOffset, e.length, Zeros(e.length))
      ensures index <= |extents| && Truthful(image, extents[index..], readOffset + e.length)
      ensures index == if e.length == old(extents[index]).length then old(index) + 1 else old(index)
    {
      var current := extents[index];
      ghost var rest := extents[index..];
      assert rest[0] == current && rest[1..] == extents[index + 1..];
      e := Taken(current);
      if e.length < current.length {
        TruthfulCut(image, rest, readOffset, e.length);
      }
      extents := extents[index := current.(length := current.length - e.length)];
      assert extents[index..] == rest[0 := current.(length := current.length - e.length)];
      assert extents[index + 1..] == rest[1..];
      if extents[index].length == 0 {
        index := index + 1;
      }
    }

    /** Asks the source; without an answer the range counts as one data extent. */
    method FetchExtents() returns (answered: bool)
      requires ExtentsOk() && readOffset < |image|
      modifies this`extents, this`index
      ensures ExtentsOk() && index == 0 && 0 < |extents| <= MAX_EXTENTS
      ensures !answered ==> |extents| == 1 && !extents[0].zero
                            && (extents[0].length == extentsSize || extents[0].length == |image| - readOffset)
    {
      var length := if extentsSize < |image| - readOffset then extentsSize else |image| - readOffset;
      index := 0;
      extents := *;
      answered := 0 < |extents| <= MAX_EXTENTS && Truthful(image, extents, readOffset);
      if !answered {
        extents := [Extent(length, false)];
      }
      assert extents[0..] == extents;
    }

    // -------------------------------------------------------------- reading

    /** The source filled the buffer of a command, or could not. */
    method ReadCompleted(c: nat) returns (ok: bool)
      requires Valid() && c in readQ && c < |cmds| && !cmds[c].completed
      modifies this`cmds, this`commandsInFlight, h`world
      ensures ok ==> Valid() && commandsInFlight + 1 == old(commandsInFlight)
      ensures ok ==> cmds == old(cmds)[c := old(cmds[c]).(completed := true)]
      ensures !ok ==> !reliable
    {
      hide Blkhash.Core, Blkhash.Fed, Blkhash.Settled, Ok, Owed, Lends, Truthful, Blkhash.Here;
      ok := *;
      if !ok && !reliable { return; }
      ok := true;
      ghost var s := Now();
      Reading(image, readSize, h.queueDepth, s, c);
      NotLent(h.issued, h.live, [], Owed(cmds, hashQ), c);
      var cmd := cmds[c];
      var content := image[cmd.offset..cmd.offset + cmd.length] + h.world.mem[c][cmd.length..];
      assert content[..cmd.length] == image[cmd.offset..cmd.offset + cmd.length];
      FinishReadOk(image, readSize, h.queueDepth, s, c, content);
      h.WriteBuffer(c, content);
      cmds := cmds[c := cmd.(completed := true)];
      assert commandsInFlight > 0;
      commandsInFlight := commandsInFlight - 1;
      assert Now() == FinishRead(s, c, content);
    }

    /** Commands that are idle in the hash queue are given the next extents, in the order of the image. */
    method ReadMoreData() returns (ok: bool)
      requires Valid()
      modifies this`cmds, this`readQ, this`hashQ, this`extents, this`index, this`readOffset, this`commandsInFlight,
               h`world
      ensures ok ==> Valid() && old(readOffset) <= readOffset
      ensures ok ==> readOffset >= |image| || forall c :: c in hashQ && c < |cmds| ==> !cmds[c].completed
      ensures ok && readOffset == old(readOffset) ==> Now() == old(Now()) && h.world == old(h.world)
      ensures !ok ==> !reliable
    {
      hide Blkhash.Core, Blkhash.Fed, Blkhash.Settled, Ok, Owed, Lends, Truthful;
      var i := 0;
      ok := true;
      Indexed(image, readSize, h.queueDepth, Now());
      while i < |hashQ| && readOffset < |image|
        invariant Valid() && i <= |hashQ| && old(readOffset) <= readOffset
        invariant forall k :: 0 <= k < |hashQ| ==> hashQ[k] < |cmds|
        invariant forall k :: 0 <= k < i ==> !cmds[hashQ[k]].completed
        invariant readOffset == old(readOffset) ==> Now() == old(Now()) && h.world == old(h.world)
        decreases |hashQ| - i
      {
        if cmds[hashQ[i]].completed {
          ok := ReadNext(i);
          if !ok { return; }
          Indexed(image, readSize, h.queueDepth, Now());
        } else {
          i := i + 1;
        }
      }
    }

    /** One idle command is moved to the read queue; a read of data is started, and may complete at once. */
    method ReadNext(i: nat) returns (ok: bool)
      requires Valid() && readOffset < |image| && i < |hashQ| && hashQ[i] < |cmds| && cmds[hashQ[i]].completed
      modifies this`cmds, this`readQ, this`hashQ, this`extents, this`index, this`readOffset, this`commandsInFlight,
               h`world
      ensures !ok ==> !reliable
      ensures ok ==> Valid() && old(readOffset) < readOffset && |cmds| == |old(cmds)| && |hashQ| == |old(hashQ)| - 1
      ensures ok ==> forall k :: 0 <= k < i ==>
                hashQ[k] == old(hashQ)[k] && (hashQ[k] < |cmds| ==> cmds[hashQ[k]] == old(cmds)[hashQ[k]])
    {
      hide Blkhash.Core, Blkhash.Fed, Blkhash.Settled, Ok, Owed, Lends, Truthful;
      var c := hashQ[i];
      ok := true;
      StartCommand(i);
      var early: bool := *;
      if early && !cmds[c].completed {
        ok := ReadCompleted(c);
        if !ok { return; }
      }
      forall k | 0 <= k < i
        ensures hashQ[k] != c
      {
        assert hashQ[k] in hashQ;
      }
    }

    method StartCommand(i: nat)
      requires Valid() && readOffset < |image| && i < |hashQ| && hashQ[i] < |cmds| && cmds[hashQ[i]].completed
      modifies this`cmds, this`readQ, this`hashQ, this`extents, this`index, this`readOffset, this`commandsInFlight
      ensures Valid() && old(readOffset) < readOffset && hashQ == Without(old(hashQ), i)
      ensures readQ == old(readQ) + [old(hashQ[i])] && old(hashQ[i]) !in hashQ
      ensures |cmds| == |old(cmds)| && cmds == old(cmds)[old(hashQ[i]) := cmds[old(hashQ[i])]]
    {
      hide Blkhash.Core, Blkhash.Fed, Blkhash.Settled, Ok, Owed, Lends, Truthful, Without;
      ghost var s := Now();
      var e := NextExtent();
      BeginReadOk(image, readSize, h.queueDepth, s, i, e);
      var c := hashQ[i];
      hashQ := Without(hashQ, i);
      readQ := readQ + [c];
      cmds := cmds[c := Command(readOffset, e.length, e.zero, e.zero)];
      if !e.zero {
        assert commandsInFlight < h.queueDepth;
        commandsInFlight := commandsInFlight + 1;
      }
      readOffset := readOffset + e.length;
      assert Now() == BeginRead(s, i, e);
    }

    // -------------------------------------------------------------- hashing

    /** Completed commands at the head of the read queue are given to the hash. */
    method HashMoreData() returns (ok: bool)
      requires Valid()
      modifies this, h, h.pending, h.pending.data, h.sq, h.sq.slots
      ensures extents == old(extents) && index == old(index) && readOffset == old(readOffset) && wakeups == old(wakeups)
      ensures ok ==> Valid() && old(handed) <= handed
      ensures ok ==> readQ == [] || (readQ[0] < |cmds| && !cmds[readQ[0]].completed)
      ensures ok && handed == old(handed) ==> Now() == old(Now()) && h.world == old(h.world)
      ensures !ok ==> Struck()
    {
      hide Blkhash.Core, Blkhash.Fed, Blkhash.Settled, Ok, Owed, Lends, Truthful, Struck, Hand;
      ok := true;
      Indexed(image, readSize, h.queueDepth, Now());
      while readQ != [] && cmds[readQ[0]].completed
        invariant Valid() && old(handed) <= handed && (readQ != [] ==> readQ[0] < |cmds|)
        invariant extents == old(extents) && index == old(index) && readOffset == old(readOffset)
        invariant wakeups == old(wakeups)
        invariant handed == old(handed) ==> Now() == old(Now()) && h.world == old(h.world)
        decreases |readQ|
      {
        ok := HashNext();
        if !ok { return; }
        Indexed(image, readSize, h.queueDepth, Now());
      }
    }

    /** The head of the read queue: zeros are hashed at once, data by an update that borrows the buffer. */
    method HashNext() returns (ok: bool)
      requires Valid() && readQ != [] && readQ[0] < |cmds| && cmds[readQ[0]].completed
      modifies this`cmds, this`readQ, this`hashQ, this`bytesHashed, this`commandsInFlight, this`handed, this`log,
               h, h.pending, h.pending.data, h.sq, h.sq.slots
      ensures ok ==> Valid() && Now() == Hand(old(Now())) && old(handed) < handed && |readQ| < |old(readQ)|
      ensures !ok ==> Struck()
    {
      hide Blkhash.Core, Blkhash.Fed, Blkhash.Settled, Ok, Owed, Lends, Truthful, Struck, Hand;
      if cmds[readQ[0]].zero {
        ok := HashZero();
      } else {
        ok := HashData();
      }
    }

    method HashZero() returns (ok: bool)
      requires Valid() && readQ != [] && readQ[0] < |cmds| && cmds[readQ[0]].completed && cmds[readQ[0]].zero
      modifies this`cmds, this`readQ, this`hashQ, this`bytesHashed, this`commandsInFlight, this`handed, this`log,
               h, h.pending, h.pending.data, h.sq, h.sq.slots
      ensures ok ==> Valid() && Now() == Hand(old(Now())) && old(handed) < handed && |readQ| < |old(readQ)|
      ensures !ok ==> Struck()
    {
      hide Blkhash.Core, Blkhash.Fed, Blkhash.Settled, Ok, Owed, Lends, Truthful, Slice, Contiguous, Struck;
      ghost var s := Now();
      HandOk(image, readSize, h.queueDepth, s);
      var cmd := cmds[readQ[0]];
      SliceAppend(image, handed, cmd.length, Zeros(cmd.length));
      MoveHead();
      ok := RunZero(cmd.length);
      assert ok ==> Now() == Hand(s);
    }

    /** The head of the read queue becomes the tail of the hash queue. */
    method MoveHead()
      requires readQ != [] && readQ[0] < |cmds| && Contiguous(log, handed)
      requires cmds[readQ[0]].offset == handed && cmds[readQ[0]].length > 0
      modifies this`readQ, this`hashQ, this`handed, this`log
      ensures readQ == old(readQ[1..]) && hashQ == old(hashQ + [readQ[0]])
      ensures handed == old(handed + cmds[readQ[0]].length) && Contiguous(log, handed)
    {
      ghost var cmd := cmds[readQ[0]];
      ContiguousMore(log, handed, cmd.length);
      log, handed := log + [(handed, cmd.length)], handed + cmd.length;
      readQ, hashQ := readQ[1..], hashQ + [readQ[0]];
    }

    method RunZero(length: nat) returns (ok: bool)
      requires h.Valid()
      modifies this`bytesHashed, h, h.pending, h.pending.data, h.sq, h.sq.slots
      ensures h.Valid() && h.issued == old(h.issued) && h.live == old(h.live) && h.finalized == old(h.finalized)
      ensures h.world.mem == old(h.world.mem) && h.world.draining == old(h.world.draining)
      ensures ok ==> h.error == old(h.error) == 0 && h.Message() == old(h.Message()) + Zeros(length)
      ensures ok ==> bytesHashed == old(bytesHashed) + length
      ensures !ok ==> Struck()
    {
      hide Blkhash.Core, Blkhash.Fed, Blkhash.Settled, Blkhash.Struck;
      var err := h.Zero(length);
      if err != 0 { return false; }
      bytesHashed := bytesHashed + length;
      ok := true;
    }

    method HashData() returns (ok: bool)
      requires Valid() && readQ != [] && readQ[0] < |cmds| && cmds[readQ[0]].completed && !cmds[readQ[0]].zero
      modifies this`cmds, this`readQ, this`hashQ, this`bytesHashed, this`commandsInFlight, this`handed, this`log,
               h, h.pending, h.pending.data, h.sq, h.sq.slots
      ensures ok ==> Valid() && Now() == Hand(old(Now())) && old(handed) < handed && |readQ| < |old(readQ)|
      ensures !ok ==> Struck()
    {
      hide Blkhash.Core, Blkhash.Fed, Blkhash.Settled, Ok, Owed, Lends, Truthful, Slice, Contiguous, Struck;
      ghost var s := Now();
      HandOk(image, readSize, h.queueDepth, s);
      var c := readQ[0];
      var cmd := cmds[c];
      ghost var owed := Owed(cmds, hashQ);
      SliceAppend(image, handed, cmd.length, h.world.mem[c][..cmd.length]);
      MoveHead();
      ok := StartUpdate(c, owed);
      assert ok ==> Now() == Hand(s);
    }

    /** The hash has room for every update: it never answers EAGAIN. */
    method StartUpdate(c: nat, ghost owed: set<nat>) returns (ok: bool)
      requires h.Valid() && h.queueDepth > 0 && c < |cmds| && c in h.world.mem && cmds[c].length <= |h.world.mem[c]|
      requires Lends(h.issued, h.live, [], owed) && c !in owed && |owed| <= commandsInFlight < h.queueDepth
      modifies this`cmds, this`commandsInFlight, h, h.pending, h.pending.data, h.sq, h.sq.slots
      ensures (ok <==> old(h.error) == 0) && (!ok ==> Struck())
      ensures ok ==> cmds == old(cmds)[c := old(cmds)[c].(completed := false)]
      ensures ok ==> commandsInFlight == old(commandsInFlight) + 1
      ensures ok ==> h.Valid() && h.world.mem == old(h.world.mem) && h.world.draining == old(h.world.draining)
      ensures ok ==> h.finalized == old(h.finalized) && Lends(h.issued, h.live, [], owed + {c})
      ensures ok && h.error == 0 ==> h.Message() == old(h.Message()) + old(h.world.mem[c])[..old(cmds[c].length)]
      ensures ok && h.error != 0 ==> h.live != {}
    {
      hide Blkhash.Core, Blkhash.Fed, Ok, Blkhash.Struck, Blkhash.Here, Blkhash.CourseOfUpdate, Follows, MadeBy;
      var length := cmds[c].length;
      cmds := cmds[c := cmds[c].(completed := false)];
      assert |h.live| == |owed|;
      var err := h.AioUpdate(c, length, c);
      if err != 0 { return false; }
      LendsStart(old(h.issued), old(h.live), owed, c);
      assert commandsInFlight < h.queueDepth;
      commandsInFlight := commandsInFlight + 1;
      ok := true;
    }

    // -------------------------------------------------------------- events

    /** Takes the records the hash has; a record with an error, or a hash that failed, ends the run. */
    method CompleteUpdates() returns (ok: bool)
      requires LoopOk() && HashOk([])
      modifies this`cmds, this`bytesHashed, this`commandsInFlight, h`world, h`inflight, h`live, h`delivered
      ensures ok ==> Valid() && commandsInFlight <= old(commandsInFlight)
      ensures ok && commandsInFlight == old(commandsInFlight) ==> Effort(h.world) <= old(Effort(h.world))
      ensures !ok ==> Struck()
    {
      hide Blkhash.Core, Blkhash.Fed, Blkhash.Settled, Ok, Owed, Lends, Truthful, Effort, FirstFault, Tickets, Struck;
      var records: seq<Record>;
      ok, records := TakeUpdates();
      if !ok { return; }
      var i := 0;
      ghost var w := h.world;
      while i < |records|
        invariant 0 <= i <= |records| && LoopOk() && HashOk(records[i..]) && !h.world.draining && h.world == w
        invariant commandsInFlight + i == old(commandsInFlight)
        modifies this`cmds, this`bytesHashed, this`commandsInFlight
      {
        if records[i].error != 0 {
          assert records[i] in records;
          return false;
        }
        assert records[i..][1..] == records[i + 1..];
        UpdateCompleted(records[i].userData, records[i..]);
        i := i + 1;
      }
      assert records[i..] == [];
    }

    method TakeUpdates() returns (ok: bool, records: seq<Record>)
      requires LoopOk() && HashOk([])
      modifies h`world, h`inflight, h`live, h`delivered
      ensures ok ==> LoopOk() && HashOk(records) && !h.world.draining
      ensures ok && records == [] ==> Effort(h.world) <= old(Effort(h.world))
      ensures (!ok ==> Struck()) && forall r :: r in records && r.error != 0 ==> Struck()
    {
      hide Blkhash.Core, Blkhash.Fed, Ok, Owed, Lends, Truthful, Effort, FirstFault, Tickets, HistoryOk;
      hide Blkhash.Struck, Blkhash.Faulted, Blkhash.Told;
      var n;
      n, records := h.Completions(h.queueDepth);
      ok := n >= 0;
      forall r | r in records && r.error != 0
        ensures h.Struck(r.error)
      {
        h.ToldStruck(r.ticket, r.error);
      }
      if ok {
        DistinctRecords(h.issued, h.live, old(h.delivered), records, h.world.faults);
        LendsTake(h.issued, old(h.live), Owed(cmds, hashQ), records);
      }
    }

    /** An update is done: its command is idle again. */
    method UpdateCompleted(c: nat, ghost late: seq<Record>)
      requires LoopOk() && HashOk(late) && late != [] && c == late[0].userData
      modifies this`cmds, this`bytesHashed, this`commandsInFlight
      ensures LoopOk() && HashOk(late[1..]) && commandsInFlight + 1 == old(commandsInFlight)
    {
      hide Blkhash.Core, Blkhash.Fed, Blkhash.Settled, Ok, Lends, Truthful;
      ghost var s := Now();
      LendsDone(h.issued, h.live, late, Owed(cmds, hashQ));
      FinishUpdateOk(image, readSize, h.queueDepth, s, c);
      bytesHashed := bytesHashed + cmds[c].length;
      cmds := cmds[c := cmds[c].(completed := true)];
      assert commandsInFlight > 0;
      commandsInFlight := commandsInFlight - 1;
      assert Now() == FinishUpdate(s, c);
    }

    /** An outstanding read of the source's choice, if there is one. */
    method PickRead() returns (found: bool, c: nat)
      requires LoopOk()
      ensures found ==> c in readQ && c < |cmds| && !cmds[c].completed
      ensures !found ==> forall k :: 0 <= k < |readQ| ==> readQ[k] < |cmds| && cmds[readQ[k]].completed
    {
      hide Ok, Truthful;
      Indexed(image, readSize, h.queueDepth, Now());
      c := *;
      if c in readQ && c < |cmds| && !cmds[c].completed {
        return true, c;
      }
      for k := 0 to |readQ|
        invariant forall j :: 0 <= j < k ==> cmds[readQ[j]].completed
      {
        if !cmds[readQ[k]].completed {
          return true, readQ[k];
        }
      }
      return false, 0;
    }

    /** The source completes some of the outstanding reads, in any order. */
    method NotifySource() returns (ok: bool)
      requires Valid()
      modifies this`cmds, this`commandsInFlight, h`world
      ensures ok ==> Valid() && commandsInFlight <= old(commandsInFlight)
      ensures !ok ==> !reliable
    {
      hide Blkhash.Core, Blkhash.Fed, Blkhash.Settled, Ok, Owed, Lends, Truthful;
      var more: bool := *;
      ok := true;
      while more
        invariant Valid() && commandsInFlight <= old(commandsInFlight)
        decreases commandsInFlight, more
      {
        var found, c := PickRead();
        if found {
          ok := ReadCompleted(c);
          if !ok { return; }
          more := *;
        } else {
          more := false;
        }
      }
    }

    /** The hash signals: with an update outstanding it always does. */
    method AwaitHash()
      requires Valid() && h.inflight > 0
      modifies h`world
      ensures Valid() && h.world.event && Effort(h.world) <= old(Effort(h.world))
    {
      hide Blkhash.Core, Blkhash.Fed, HistoryOk, Ok, Owed, Lends, Truthful, Effort, Rely;
      h.Poll();
      RelyParts(old(h.world), h.world);
    }

    lemma OnlyUpdates()
      requires Valid() && commandsInFlight > 0
      requires forall k :: 0 <= k < |readQ| ==> readQ[k] < |cmds| && cmds[readQ[k]].completed
      ensures h.inflight > 0
    {
      hide Blkhash.Core, Blkhash.Fed, HistoryOk, Ok, Owed, Lends, Truthful;
      BusyOwed(image, readSize, h.queueDepth, Now());
      LendsSize(h.issued, h.live, Owed(cmds, hashQ));
    }

    /** Polls both descriptors: returns when the source has something to say or the hash has an event. */
    method WaitForEvents() returns (out: Outcome)
      requires Valid() && commandsInFlight > 0
      modifies this`cmds, this`bytesHashed, this`commandsInFlight, this`wakeups, h`world, h`inflight, h`live,
               h`delivered
      ensures (out.Broken? ==> !reliable) && (out.Failed? ==> Struck()) && !out.Stopped?
      ensures out.Done? ==> Valid() && commandsInFlight <= old(commandsInFlight)
      ensures out.Done? && commandsInFlight == old(commandsInFlight) ==>
                Effort(h.world) + wakeups < old(Effort(h.world) + wakeups)
    {
      hide Blkhash.Core, Blkhash.Fed, Blkhash.Settled, Ok, Owed, Lends, Truthful, Effort, Struck;
      var broken: bool, bySource: bool, forNothing: bool, look: bool := *, *, *, *;
      if broken && !reliable { return Broken; }
      var found, c := PickRead();
      if forNothing && wakeups > 0 {
        wakeups := wakeups - 1;
      } else if found && (bySource || h.inflight == 0) {
        var ok := ReadCompleted(c);
        if !ok { return Broken; }
        ok := NotifySource();
        if !ok { return Broken; }
      } else {
        if !found { OnlyUpdates(); }
        assert h.inflight > 0;
        AwaitHash();
      }
      if look || h.world.event {
        var ok := LookAtHash();
        out := if ok then Done else Failed;
      } else {
        out := Done;
      }
    }

    /** The hash's descriptor was readable, or is looked at while the workers run. */
    method LookAtHash() returns (ok: bool)
      requires Valid()
      modifies this`cmds, this`bytesHashed, this`commandsInFlight, h`world, h`inflight, h`live, h`delivered
      ensures ok ==> Valid() && commandsInFlight <= old(commandsInFlight)
      ensures ok && commandsInFlight == old(commandsInFlight) ==>
                && Effort(h.world) <= old(Effort(h.world))
                && (old(h.world.event) ==> Effort(h.world) < old(Effort(h.world)))
      ensures !ok ==> Struck()
    {
      hide Blkhash.Core, Blkhash.Fed, Blkhash.Settled, Ok, Owed, Lends, Truthful, Effort, Struck;
      ok := true;
      var was := h.ReadFd();
      if was {
        ok := CompleteUpdates();
      }
    }

    /** Runs until the whole image is hashed, a failure, or a request to stop; it always ends, and for a reason. */
    method ProcessImage() returns (out: Outcome)
      requires Valid()
      modifies this, h, h.pending, h.pending.data, h.sq, h.sq.slots
      ensures (out.Broken? ==> !reliable) && (out.Failed? ==> Struck()) && (out.Stopped? ==> stoppable)
      ensures out.Done? ==>
                && Valid() && bytesHashed == handed == readOffset == |image| && commandsInFlight == 0
                && h.inflight == 0 && h.error == 0 && h.Message() == image && Contiguous(log, |image|)
    {
      hide Blkhash.Core, Blkhash.Fed, Blkhash.Settled, Ok, Owed, Lends, Truthful, Effort, Struck;
      Indexed(image, readSize, h.queueDepth, Now());
      while bytesHashed < |image|
        invariant Valid() && handed <= readOffset <= |image|
        decreases 2 * |image| - readOffset - handed, commandsInFlight, Effort(h.world) + wakeups
      {
        out := Turn();
        if !out.Done? { return; }
        Indexed(image, readSize, h.queueDepth, Now());
        var stop: bool := *;
        if stop && stoppable { return Stopped; }
      }
      Everything();
      out := Done;
    }

    /** A loop that ends by itself has hashed the image, and nothing is left over. */
    lemma Everything()
      requires Valid() && bytesHashed >= |image|
      ensures bytesHashed == handed == readOffset == |image| && commandsInFlight == 0
      ensures h.inflight == 0 && h.error == 0 && h.Message() == image
    {
      hide Blkhash.Core, Blkhash.Fed, HistoryOk, Ok, Owed, Lends, Truthful;
      AllDone(image, readSize, h.queueDepth, Now());
      LendsSize(h.issued, h.live, Owed(cmds, hashQ));
      assert image[..|image|] == image;
    }

    /** One turn of the loop reads or hands over more of the image, or some command completes, or the
        workers of the hash get on, or the source has woken the loop for nothing once more. */
    method Turn() returns (out: Outcome)
      requires Valid() && bytesHashed < |image|
      modifies this, h, h.pending, h.pending.data, h.sq, h.sq.slots
      ensures (out.Broken? ==> !reliable) && (out.Failed? ==> Struck()) && !out.Stopped?
      ensures out.Done? ==> Valid() && old(readOffset) <= readOffset && old(handed) <= handed
      ensures out.Done? && readOffset == old(readOffset) && handed == old(handed) ==>
                || commandsInFlight < old(commandsInFlight)
                || (commandsInFlight == old(commandsInFlight)
                    && Effort(h.world) + wakeups < old(Effort(h.world) + wakeups))
    {
      hide Blkhash.Core, Blkhash.Fed, Blkhash.Settled, Ok, Owed, Lends, Truthful, Effort, Struck;
      var ok := true;
      if readOffset < |image| {
        ok := ReadMoreData();
        if !ok { return Broken; }
      }
      ok := HashMoreData();
      if !ok { return Failed; }
      if commandsInFlight > 0 {
        out := WaitForEvents();
        return;
      }
      if readOffset == old(readOffset) && handed == old(handed) {
        NothingLeft(image, readSize, h.queueDepth, Now());
      }
      out := Done;
    }

    /** The checksum of the image: whatever the source and the workers did, it is the reference digest. */
    method Run() returns (out: Outcome, md: seq<byte>)
      requires Valid()
      modifies this, h, h.pending, h.pending.data, h.sq, h.sq.slots
      ensures (out.Broken? ==> !reliable) && (out.Failed? ==> Struck()) && (out.Stopped? ==> stoppable)
      ensures out.Done? && |image| < TWO64 ==> md == BlockDigest(h.D, h.bs, image)
    {
      hide Blkhash.Core, Blkhash.Fed, Blkhash.Settled, Ok, Owed, Lends, Truthful, BlockDigest, Blkhash.Struck;
      md := [];
      out := ProcessImage();
      if out.Done? {
        var err;
        err, md := h.Final();
        if err != 0 { out := Failed; }
      }
    }
  }

  /** The whole program, for any image, configuration, source and interleaving: it ends, and with a source that
      works, digests that do not fail and nobody to stop it, it ends with the reference digest of the image. */
  method AioChecksum(D: seq<byte> -> seq<byte>, fails: nat -> nat, env: Setting, blockSize: nat, threads: nat,
                     queueDepth: nat, readSize: nat, extentsSize: nat)
      returns (out: Outcome, md: seq<byte>, h: Blkhash)
    requires blockSize >= 16 && blockSize % 2 == 0 && 1 <= threads <= MAX_THREADS
    requires queueDepth > 0 && readSize > 0 && extentsSize > 0 && |env.image| < TWO64
    ensures env.reliable && Sound(fails) && !env.stoppable ==> out.Done?
    ensures (out.Broken? ==> !env.reliable) && (out.Stopped? ==> env.stoppable)
    ensures h.fails == fails && (out.Failed? ==> exists e :: h.Struck(e))
    ensures out.Done? ==> md == BlockDigest(D, blockSize, env.image)
  {
    hide Sound, BlockDigest, Blkhash.Struck;
    var c := new Checksum(D, fails, env, blockSize, threads, queueDepth, readSize, extentsSize);
    h := c.h;
    out, md := c.Run();
    if out.Failed? {
      ghost var e :| h.Struck(e);
      h.StruckUnsound(e);
    }
  }
}
