/** A whole session with one hash: any list of calls, any timing of the workers between them.

    The application below waits before it overwrites a buffer that is still lent, and before it starts more
    updates than the hash takes; apart from that, which calls it makes, how many updates are outstanding and
    how it cuts its stream into calls is arbitrary. */
module Sessions {
  import opened Streams
  import opened Shared
  import opened SharedCalls
  import opened Engine
  import opened Views
  import opened Courses
  import opened Config
  import PythonReference

  datatype Call =
    | Write(buf: nat, content: seq<byte>)
    | Update(buf: nat, len: nat)
    | AioUpdate(buf: nat, len: nat)
    | Zero(len: nat)
    | Collect(count: nat)

  function After(c: Call, mem: map<nat, seq<byte>>): map<nat, seq<byte>> {
    if c.Write? then mem[c.buf := c.content] else mem
  }

  /** The call stays inside its buffer, and the hash takes asynchronous updates at all. */
  predicate Usable(c: Call, mem: map<nat, seq<byte>>, depth: nat) {
    && (c.Update? || c.AioUpdate? ==> c.buf in mem && c.len <= |mem[c.buf]|)
    && (c.AioUpdate? ==> depth > 0)
  }

  predicate AllUsable(calls: seq<Call>, mem: map<nat, seq<byte>>, depth: nat) {
    calls == [] || (Usable(calls[0], mem, depth) && AllUsable(calls[1..], After(calls[0], mem), depth))
  }

  /** What one call adds to the message: the bytes of its buffer at the time of the call. */
  function Bytes(c: Call, mem: map<nat, seq<byte>>): seq<byte> {
    match c
    case Update(buf, len) => if buf in mem && len <= |mem[buf]| then mem[buf][..len] else []
    case AioUpdate(buf, len) => if buf in mem && len <= |mem[buf]| then mem[buf][..len] else []
    case Zero(len) => Zeros(len)
    case _ => []
  }

  /** The byte stream a list of calls stands for. */
  function Stream(calls: seq<Call>, mem: map<nat, seq<byte>>): seq<byte> {
    if calls == [] then [] else Bytes(calls[0], mem) + Stream(calls[1..], After(calls[0], mem))
  }

  /** The course of one call, with `pend` pending. */
  function CourseOf(k: Course, r: Rules, pend: seq<byte>, c: Call, mem: map<nat, seq<byte>>): Course {
    match c
    case Update(_, _) => AddData(k, r, pend, Bytes(c, mem), true)
    case AioUpdate(_, _) => AddData(k, r, pend, Bytes(c, mem), false)
    case Zero(len) => AddZeros(k, r, pend, len)
    case _ => k
  }

  /** The course of a list of calls that follows the message `m`. */
  function CourseOfAll(k: Course, r: Rules, m: seq<byte>, calls: seq<Call>, mem: map<nat, seq<byte>>): Course
    requires r.bs > 0
    decreases |calls|
  {
    if calls == [] then k
    else
      CourseOfAll(CourseOf(k, r, Tail(m, r.bs), calls[0], mem), r, m + Bytes(calls[0], mem), calls[1..],
                  After(calls[0], mem))
  }

  lemma {:induction false} AllClear(k: Course, r: Rules, m: seq<byte>, calls: seq<Call>, mem: map<nat, seq<byte>>)
    requires r.bs > 0
    ensures CourseOfAll(k, r, m, calls, mem).clear ==> k.clear
    decreases |calls|
  {
    hide AddData, Tail, Bytes;
    if calls != [] {
      var pend, data := Tail(m, r.bs), Bytes(calls[0], mem);
      DataClear(k, r, pend, data, true);
      DataClear(k, r, pend, data, false);
      AllClear(CourseOf(k, r, pend, calls[0], mem), r, m + data, calls[1..], After(calls[0], mem));
    }
  }

  /** Whether a session of a new hash succeeds: decided by its calls and the digests that fail, and by nothing
      that happens during the session. */
  predicate Succeeds(r: Rules, calls: seq<Call>)
    requires r.bs > 0
  {
    Passes(CourseOfAll(START, r, [], calls, map[]), r, Tail(Stream(calls, map[]), r.bs))
  }

  /** The updates a client waits for, each under its own number, and the buffers they were given. */
  ghost predicate Tracks(issued: seq<Issue>, live: set<nat>, started: nat, lent: map<nat, nat>) {
    && started == |issued| && lent.Keys == live
    && forall t :: t in live ==> t < |issued| && issued[t] == Issue(t, lent[t])
  }

  lemma TrackStart(issued: seq<Issue>, live: set<nat>, started: nat, lent: map<nat, nat>, buf: nat)
    requires Tracks(issued, live, started, lent)
    ensures Tracks(issued + [Issue(started, buf)], live + {|issued|}, started + 1, lent[started := buf])
  {
  }

  lemma TrackTake(issued: seq<Issue>, live: set<nat>, started: nat, lent: map<nat, nat>, records: seq<Record>)
    requires Tracks(issued, live, started, lent)
    requires forall r :: r in records ==>
               r.ticket in live && r.ticket < |issued| && r.userData == issued[r.ticket].userData
    ensures Returned(records) == Tickets(records)
    ensures Tracks(issued, live - Tickets(records), started, lent - Returned(records))
  {
    forall k | 0 <= k < |records|
      ensures records[k].userData == records[k].ticket
    {
      assert records[k] in records;
    }
    forall t | t in Tickets(records)
      ensures t in Returned(records)
    {
      var k :| 0 <= k < |records| && records[k].ticket == t;
      assert records[k].userData == t;
    }
    assert (lent - Returned(records)).Keys == live - Tickets(records);
  }

  function Returned(records: seq<Record>): set<nat> {
    set k | 0 <= k < |records| :: records[k].userData
  }

  class Client {
    const h: Blkhash
    var started: nat
    var lent: map<nat, nat>

    /** Between two calls of a session in which nothing failed. */
    ghost predicate Open()
      reads this, h, h.pending, h.pending.data, h.sq, h.sq.slots
    {
      && h.Valid() && h.error == 0 && !h.finalized && !h.world.draining
      && Tracks(h.issued, h.live, started, lent)
    }

    constructor (h: Blkhash)
      requires h.Valid() && h.error == 0 && !h.finalized && !h.world.draining && h.issued == [] && h.live == {}
      ensures Open() && this.h == h
    {
      this.h, started, lent := h, 0, map[];
    }

    /** Takes records and crosses their updates off. */
    method Collected(count: nat)
      requires h.Valid() && h.error == 0 && !h.finalized && Tracks(h.issued, h.live, started, lent)
      modifies this`lent, h`world, h`inflight, h`live, h`delivered
      ensures h.Valid() && h.world.draining == (old(h.world.draining) && count == 0)
      ensures h.world.mem == old(h.world.mem) && Tracks(h.issued, h.live, started, lent)
      ensures |lent| < |old(lent)| || (lent == old(lent) && Effort(h.world) <= old(Effort(h.world)))
      ensures h.Here() == old(h.Here())
    {
      hide Blkhash.Core, Blkhash.Fed, Blkhash.Settled, Effort, Tracks, Tickets, Returned, Blkhash.Here;
      var records := Taken(count);
      TrackTake(h.issued, old(h.live), started, lent, records);
      TrackSize(h.issued, old(h.live), started, lent);
      if records == [] {
        NoTickets();
        assert lent - {} == lent;
      }
      lent := lent - Returned(records);
      TrackSize(h.issued, h.live, started, lent);
    }

    method Taken(count: nat) returns (records: seq<Record>)
      requires h.Valid() && h.error == 0
      modifies h`world, h`inflight, h`live, h`delivered
      ensures h.Valid() && h.world.draining == (old(h.world.draining) && count == 0)
      ensures h.world.mem == old(h.world.mem) && h.Here() == old(h.Here())
      ensures h.live == old(h.live) - Tickets(records) && |h.live| == |old(h.live)| - |records|
      ensures records == [] ==> Effort(h.world) <= old(Effort(h.world))
      ensures forall r :: r in records ==>
                r.ticket in old(h.live) && r.ticket < |h.issued| && r.userData == h.issued[r.ticket].userData
    {
      hide Blkhash.Core, Blkhash.Fed, Effort, Tickets, FirstFault, Blkhash.Here, Lost;
      hide Blkhash.Faulted, Blkhash.Told, Blkhash.Struck;
      var n;
      n, records := h.Completions(count);
    }

    lemma TrackSize(issued: seq<Issue>, live: set<nat>, started: nat, lent: map<nat, nat>)
      requires Tracks(issued, live, started, lent)
      ensures |lent| == |live| && lent.Keys == live
    {
      assert |lent| == |lent.Keys|;
    }

    /** Waits for the descriptor and takes what is there. */
    method Deliver()
      requires Open() && lent != map[]
      modifies this`lent, h`world, h`inflight, h`live, h`delivered
      ensures Open() && h.world.mem == old(h.world.mem)
      ensures |lent| < |old(lent)| || (lent == old(lent) && Effort(h.world) < old(Effort(h.world)))
      ensures h.Here() == old(h.Here())
    {
      hide Blkhash.Core, Blkhash.Fed, Effort, Tracks, Blkhash.Here;
      TrackSize(h.issued, h.live, started, lent);
      assert h.queueDepth > 0;
      h.Poll();
      var was := h.ReadFd();
      Collected(h.queueDepth);
    }

    /** Waits until nothing outstanding was given `buf`; the wait always ends. */
    method Reclaim(buf: nat)
      requires Open()
      modifies this`lent, h`world, h`inflight, h`live, h`delivered
      ensures Open() && h.world.mem == old(h.world.mem) && h.Here() == old(h.Here())
      ensures forall t :: t in lent ==> lent[t] != buf
    {
      hide Blkhash.Core, Blkhash.Fed, Blkhash.Settled, Effort, Tracks, Blkhash.Here;
      while exists t :: t in lent && lent[t] == buf
        invariant Open() && h.world.mem == old(h.world.mem) && h.Here() == old(h.Here())
        decreases |lent|, Effort(h.world)
      {
        Deliver();
      }
    }

    /** Waits until the hash takes one more update; the wait always ends. */
    method MakeRoom()
      requires Open() && h.queueDepth > 0
      modifies this`lent, h`world, h`inflight, h`live, h`delivered
      ensures Open() && h.world.mem == old(h.world.mem) && |lent| < h.queueDepth && h.Here() == old(h.Here())
    {
      hide Blkhash.Core, Blkhash.Fed, Blkhash.Settled, Effort, Tracks, Blkhash.Here;
      while |lent| >= h.queueDepth
        invariant Open() && h.world.mem == old(h.world.mem) && h.Here() == old(h.Here())
        decreases |lent|, Effort(h.world)
      {
        Deliver();
      }
    }

    method Overwrite(buf: nat, content: seq<byte>)
      requires Open() && forall t :: t in lent ==> lent[t] != buf
      modifies h`world
      ensures Open() && h.world.mem == old(h.world.mem)[buf := content] && h.Here() == old(h.Here())
    {
      hide Blkhash.Core, Blkhash.Fed, Blkhash.Settled, Blkhash.Here;
      h.WriteBuffer(buf, content);
    }

    method Start(buf: nat, len: nat) returns (err: nat)
      requires Open() && |lent| < h.queueDepth && Usable(Call.AioUpdate(buf, len), h.world.mem, h.queueDepth)
      modifies this, h, h.pending, h.pending.data, h.sq, h.sq.slots
      ensures h.Valid() && !h.finalized && err == h.error && h.world.mem == old(h.world.mem)
      ensures err != 0 ==> !Sound(h.fails)
      ensures err == 0 ==> Open() && h.Message() == old(h.Message()) + old(h.world.mem[buf])[..len]
      ensures Follows(old(h.CourseOfUpdate(buf, len, false)), h.Here(), err == 0)
    {
      hide Blkhash.Core, Blkhash.Fed, Tracks, Blkhash.Here, Blkhash.CourseOfUpdate, Follows, Blkhash.Struck;
      TrackSize(h.issued, h.live, started, lent);
      var e := h.AioUpdate(buf, len, started);
      TrackStart(old(h.issued), old(h.live), started, lent, buf);
      StartedIs(old(h.issued), old(h.live), started, lent);
      started, lent := started + 1, lent[started := buf];
      err := h.error;
      if err != 0 { h.StruckUnsound(err); }
    }

    method Feed(buf: nat, len: nat) returns (err: nat)
      requires Open() && buf in h.world.mem && len <= |h.world.mem[buf]|
      modifies h, h.pending, h.pending.data, h.sq, h.sq.slots
      ensures h.Valid() && !h.finalized && err == h.error && h.world.mem == old(h.world.mem)
      ensures err != 0 ==> !Sound(h.fails)
      ensures err == 0 ==> Open() && h.Message() == old(h.Message()) + old(h.world.mem[buf])[..len]
      ensures Follows(old(h.CourseOfUpdate(buf, len, true)), h.Here(), err == 0)
    {
      hide Blkhash.Core, Blkhash.Fed, Blkhash.Settled, Tracks, Blkhash.Here, Blkhash.CourseOfUpdate, Follows, Sound;
      err := h.Update(buf, len);
      if err != 0 { h.StruckUnsound(err); }
    }

    method Skip(len: nat) returns (err: nat)
      requires Open()
      modifies h, h.pending, h.pending.data, h.sq, h.sq.slots
      ensures h.Valid() && !h.finalized && err == h.error && h.world.mem == old(h.world.mem)
      ensures err != 0 ==> !Sound(h.fails)
      ensures err == 0 ==> Open() && h.Message() == old(h.Message()) + Zeros(len)
      ensures Follows(old(h.CourseOfZeros(len)), h.Here(), err == 0)
    {
      hide Blkhash.Core, Blkhash.Fed, Blkhash.Settled, Tracks, Blkhash.Here, Blkhash.CourseOfZeros, Follows, Sound;
      err := h.Zero(len);
      if err != 0 { h.StruckUnsound(err); }
    }

    lemma StartedIs(issued: seq<Issue>, live: set<nat>, started: nat, lent: map<nat, nat>)
      requires Tracks(issued, live, started, lent)
      ensures started == |issued|
    {
    }

    /** One call, after whatever waiting it needs. */
    method Perform(c: Call) returns (err: nat)
      requires Open() && Usable(c, h.world.mem, h.queueDepth)
      modifies this, h, h.pending, h.pending.data, h.sq, h.sq.slots
      ensures h.Valid() && !h.finalized && err == h.error && (err != 0 ==> !Sound(h.fails))
      ensures err == 0 ==>
                && Open() && h.world.mem == After(c, old(h.world.mem))
                && h.Message() == old(h.Message()) + Bytes(c, old(h.world.mem))
      ensures Follows(old(CourseOf(h.Here(), h.Terms(), h.pending.Bytes(), c, h.world.mem)), h.Here(), err == 0)
    {
      hide Blkhash.Core, Blkhash.Fed, Blkhash.Settled, Effort, Tracks, Sound, Blkhash.Here, AddData, AddZeros;
      err := 0;
      match c {
        case Write(buf, content) =>
          Reclaim(buf);
          Overwrite(buf, content);
        case Update(buf, len) =>
          err := Feed(buf, len);
        case AioUpdate(buf, len) =>
          MakeRoom();
          err := Start(buf, len);
        case Zero(len) =>
          err := Skip(len);
        case Collect(count) =>
          Collected(count);
      }
    }

    /** Nothing on the course of the calls, and nothing that is left pending after them, is doomed. */
    ghost predicate Promising(calls: seq<Call>)
      reads h, h.pending, h.pending.data, h.sq, h.sq.slots
      requires h.PendingOk()
    {
      && h.bs > 0
      && Passes(CourseOfAll(h.Here(), h.Terms(), h.Message(), calls, h.world.mem), h.Terms(),
                Tail(h.Message() + Stream(calls, h.world.mem), h.bs))
    }

    /** Every list of calls, with every interleaving of the workers: the session succeeds exactly when nothing on
        its course is doomed, which the calls alone decide, and then returns the reference digest of its stream. */
    method Session(calls: seq<Call>) returns (err: nat, md: seq<byte>)
      requires Open() && AllUsable(calls, h.world.mem, h.queueDepth)
      modifies this, h, h.pending, h.pending.data, h.sq, h.sq.slots
      ensures h.Valid() && (err == 0 <==> old(Promising(calls))) && (err != 0 ==> !Sound(h.fails))
      ensures err == 0 ==>
                var m := old(h.Message()) + Stream(calls, old(h.world.mem));
                |m| < TWO64 ==> md == BlockDigest(h.D, h.bs, m)
    {
      hide Blkhash.Core, Blkhash.Fed, Blkhash.Settled, BlockDigest, Tracks, Sound, CourseOf, Tail, Blkhash.Here;
      ghost var m := h.Message() + Stream(calls, h.world.mem);
      h.PendingIsTail();
      ghost var plan := CourseOfAll(h.Here(), h.Terms(), h.Message(), calls, h.world.mem);
      assert calls[0..] == calls;
      var i := 0;
      md := [];
      while i < |calls|
        invariant 0 <= i <= |calls| && Open() && AllUsable(calls[i..], h.world.mem, h.queueDepth)
        invariant h.Message() + Stream(calls[i..], h.world.mem) == m
        invariant CourseOfAll(h.Here(), h.Terms(), h.Message(), calls[i..], h.world.mem) == plan
      {
        ghost var rest := calls[i..];
        assert rest[0] == calls[i] && rest[1..] == calls[i + 1..];
        Regroup(h.Message(), Bytes(calls[i], h.world.mem), Stream(rest[1..], After(calls[i], h.world.mem)));
        h.PendingIsTail();
        AllClear(CourseOf(h.Here(), h.Terms(), h.pending.Bytes(), calls[i], h.world.mem), h.Terms(),
                 h.Message() + Bytes(calls[i], h.world.mem), rest[1..], After(calls[i], h.world.mem));
        err := Perform(calls[i]);
        if err != 0 { return; }
        i := i + 1;
      }
      assert h.Message() == m;
      h.PendingIsTail();
      h.Finishes();
      err, md := h.Final();
      if err != 0 { h.StruckUnsound(err); }
    }
  }

  lemma Regroup(a: seq<byte>, b: seq<byte>, c: seq<byte>)
    ensures a + (b + c) == (a + b) + c
  {
  }

  /** How a piece of the stream reaches the hash. */
  datatype Shape = Copied(buf: nat) | Borrowed(buf: nat) | Skipped

  datatype Piece = Piece(data: seq<byte>, shape: Shape)

  function PieceCalls(p: Piece): seq<Call> {
    match p.shape
    case Copied(buf) => [Write(buf, p.data), Update(buf, |p.data|)]
    case Borrowed(buf) => [Write(buf, p.data), AioUpdate(buf, |p.data|)]
    case Skipped => [Zero(|p.data|)]
  }

  function Cut(pieces: seq<Piece>): seq<Call> {
    if pieces == [] then [] else PieceCalls(pieces[0]) + Cut(pieces[1..])
  }

  function Contents(pieces: seq<Piece>): seq<byte> {
    if pieces == [] then [] else pieces[0].data + Contents(pieces[1..])
  }

  /** However a stream is cut into copied, borrowed and skipped pieces, the calls stand for that stream. */
  lemma {:induction false} CutStream(pieces: seq<Piece>, mem: map<nat, seq<byte>>, depth: nat)
    requires forall p :: p in pieces && p.shape.Skipped? ==> p.data == Zeros(|p.data|)
    requires forall p :: p in pieces && p.shape.Borrowed? ==> depth > 0
    ensures AllUsable(Cut(pieces), mem, depth) && Stream(Cut(pieces), mem) == Contents(pieces)
  {
    if pieces != [] {
      var p, rest := pieces[0], Cut(pieces[1..]);
      var calls := PieceCalls(p) + rest;
      if p.shape.Skipped? {
        CutStream(pieces[1..], mem, depth);
        assert calls[1..] == rest;
      } else {
        var mem' := mem[p.shape.buf := p.data];
        CutStream(pieces[1..], mem', depth);
        TwoCalls(calls[0], calls[1], rest, mem, depth);
        assert p.data[..|p.data|] == p.data && calls == [calls[0], calls[1]] + rest;
      }
    }
  }

  lemma TwoCalls(a: Call, b: Call, rest: seq<Call>, mem: map<nat, seq<byte>>, depth: nat)
    requires Usable(a, mem, depth) && Usable(b, After(a, mem), depth)
    requires AllUsable(rest, After(b, After(a, mem)), depth)
    ensures AllUsable([a, b] + rest, mem, depth)
    ensures Stream([a, b] + rest, mem)
         == Bytes(a, mem) + (Bytes(b, After(a, mem)) + Stream(rest, After(b, After(a, mem))))
  {
    var calls := [a, b] + rest;
    assert calls[1..] == [b] + rest && calls[1..][1..] == rest;
  }

  /** How a hash is set up. */
  datatype Setup = Setup(threads: nat, depth: nat, batch: nat, fails: nat -> nat)

  predicate SetupOk(u: Setup) {
    1 <= u.threads <= MAX_THREADS && u.batch > 1
  }

  method NewSession(D: seq<byte> -> seq<byte>, blockSize: nat, u: Setup, calls: seq<Call>)
      returns (err: nat, md: seq<byte>)
    requires blockSize >= 16 && blockSize % 2 == 0 && SetupOk(u)
    requires AllUsable(calls, map[], u.depth) && |Stream(calls, map[])| < TWO64
    ensures (err == 0 <==> Succeeds(Rules(u.fails, blockSize, u.batch), calls)) && (err != 0 ==> !Sound(u.fails))
    ensures err == 0 ==> md == BlockDigest(D, blockSize, Stream(calls, map[]))
  {
    hide Blkhash.Core, Blkhash.Fed, Blkhash.Settled, BlockDigest, Stream, AllUsable, Sound, CourseOfAll;
    var h := new Blkhash(D, u.fails, blockSize, u.threads, u.depth, u.batch);
    var client := new Client(h);
    assert [] + Stream(calls, map[]) == Stream(calls, map[]);
    err, md := client.Session(calls);
  }

  /** The same stream cut into different calls, hashed with other numbers of threads, other queue depths and other
      batch sizes, has the same digest.  With the same calls and batch size, neither the threads nor the depth nor
      the interleaving decide whether it gets one. */
  method TwoSessions(D: seq<byte> -> seq<byte>, blockSize: nat, u: Setup, calls: seq<Call>, u': Setup,
                     calls': seq<Call>)
      returns (err: nat, md: seq<byte>, err': nat, md': seq<byte>)
    requires blockSize >= 16 && blockSize % 2 == 0 && SetupOk(u) && SetupOk(u')
    requires AllUsable(calls, map[], u.depth) && AllUsable(calls', map[], u'.depth)
    requires Stream(calls, map[]) == Stream(calls', map[]) && |Stream(calls, map[])| < TWO64
    ensures err == 0 && err' == 0 ==> md == md'
    ensures Sound(u.fails) && Sound(u'.fails) ==> err == err' == 0
    ensures calls == calls' && u.fails == u'.fails && u.batch == u'.batch ==> (err == 0 <==> err' == 0)
  {
    hide BlockDigest, Stream, AllUsable, Sound, Succeeds;
    err, md := NewSession(D, blockSize, u, calls);
    err', md' := NewSession(D, blockSize, u', calls');
  }

  /** A session and the sequential reference, given the same stream, end with the same digest. */
  method AgainstReference(D: seq<byte> -> seq<byte>, blockSize: nat, u: Setup, calls: seq<Call>)
      returns (err: nat, md: seq<byte>, reference: seq<byte>)
    requires blockSize >= 16 && blockSize % 2 == 0 && SetupOk(u)
    requires AllUsable(calls, map[], u.depth) && |Stream(calls, map[])| < TWO64
    ensures err == 0 ==> md == reference
    ensures Sound(u.fails) ==> err == 0
  {
    hide BlockDigest, Stream, AllUsable, Sound;
    err, md := NewSession(D, blockSize, u, calls);
    reference := PythonReference.Checksum(D, blockSize, Stream(calls, map[]));
  }
}
