/** The commands of the blksum event loop, and the four moves they make.

    A command travels from the hash queue, where it is idle or being hashed, to the tail of the read queue,
    and from the head of the read queue back to the tail of the hash queue. */
module Commands {
  import opened Streams
  import opened Shared
  import opened Views

  datatype Command = Command(offset: nat, length: nat, completed: bool, zero: bool)

  datatype Extent = Extent(length: nat, zero: bool)

  type Memory = map<nat, seq<byte>>

  /** `handed` counts the bytes given to the hash so far. */
  datatype Loop = Loop(cmds: seq<Command>, readQ: seq<nat>, hashQ: seq<nat>,
                       readOffset: nat, handed: nat, hashed: nat, inFlight: nat, mem: Memory)

  // ---------------------------------------------------------------- invariant

  /** Every command is in exactly one queue, once. */
  ghost predicate Partition(depth: nat, readQ: seq<nat>, hashQ: seq<nat>) {
    && Distinct(readQ) && Distinct(hashQ)
    && (forall c :: c in readQ ==> c < depth && c !in hashQ)
    && (forall c :: c in hashQ ==> c < depth)
    && (forall c: nat :: c < depth ==> c in readQ || c in hashQ)
  }

  ghost predicate Slice(image: seq<byte>, from: nat, length: nat, bytes: seq<byte>) {
    from + length <= |image| && bytes == image[from..from + length]
  }

  /** What the read queue promises of a command: zeros where the image has zeros, and in the buffer of
      a completed read the bytes of the image. */
  ghost predicate ReadOk(image: seq<byte>, readSize: nat, cmd: Command, buf: seq<byte>) {
    && cmd.length > 0 && cmd.offset + cmd.length <= |image|
    && (cmd.zero ==> cmd.completed && Slice(image, cmd.offset, cmd.length, Zeros(cmd.length)))
    && (!cmd.zero ==> cmd.length <= readSize)
    && (!cmd.zero && cmd.completed ==> cmd.length <= |buf| && Slice(image, cmd.offset, cmd.length, buf[..cmd.length]))
  }

  ghost predicate ReadsOk(image: seq<byte>, readSize: nat, cmds: seq<Command>, readQ: seq<nat>, mem: Memory) {
    forall c :: c in readQ && c < |cmds| && c in mem ==> ReadOk(image, readSize, cmds[c], mem[c])
  }

  /** The read queue covers the image from `from` to `to` without gap or overlap, in order. */
  ghost predicate Chain(cmds: seq<Command>, readQ: seq<nat>, from: nat, to: nat) {
    if readQ == [] then from == to
    else
      && readQ[0] < |cmds| && cmds[readQ[0]].offset == from && cmds[readQ[0]].length > 0
      && Chain(cmds, readQ[1..], from + cmds[readQ[0]].length, to)
  }

  ghost function Busy(cmds: seq<Command>): set<nat> {
    set c: nat | c < |cmds| && !cmds[c].completed
  }

  /** The commands whose update is still in the hands of the hash. */
  ghost function Owed(cmds: seq<Command>, hashQ: seq<nat>): set<nat> {
    set c | c in hashQ && c < |cmds| && !cmds[c].completed
  }

  /** The bytes of those updates. */
  ghost function Pending(cmds: seq<Command>, hashQ: seq<nat>): nat {
    if hashQ == [] then 0
    else (if hashQ[0] < |cmds| && !cmds[hashQ[0]].completed then cmds[hashQ[0]].length else 0)
         + Pending(cmds, hashQ[1..])
  }

  ghost predicate Positive(cmds: seq<Command>, hashQ: seq<nat>) {
    forall c :: c in hashQ && c < |cmds| && !cmds[c].completed ==> cmds[c].length > 0
  }

  ghost predicate Buffered(depth: nat, readSize: nat, mem: Memory) {
    forall c: nat :: c < depth ==> c in mem && |mem[c]| == readSize
  }

  ghost predicate Ok(image: seq<byte>, readSize: nat, depth: nat, s: Loop) {
    match s
    case Loop(cmds, readQ, hashQ, readOffset, handed, hashed, inFlight, mem) =>
      && |cmds| == depth && Partition(depth, readQ, hashQ) && Buffered(depth, readSize, mem)
      && ReadsOk(image, readSize, cmds, readQ, mem) && Chain(cmds, readQ, handed, readOffset)
      && readOffset <= |image|
      && inFlight == |Busy(cmds)|
      && hashed + Pending(cmds, hashQ) == handed && Positive(cmds, hashQ)
  }

  // ---------------------------------------------------------------- counting

  lemma BusySet(cmds: seq<Command>, c: nat, cmd: Command)
    requires c < |cmds|
    ensures Busy(cmds[c := cmd]) == if cmd.completed then Busy(cmds) - {c} else Busy(cmds) + {c}
  {
  }

  lemma {:induction false} BusyBound(cmds: seq<Command>)
    ensures |Busy(cmds)| <= |cmds|
  {
    if cmds != [] {
      var init, last := cmds[..|cmds| - 1], |cmds| - 1;
      BusyBound(init);
      assert Busy(cmds) == Busy(init) + (if cmds[last].completed then {} else {last});
    }
  }

  /** A command that is not busy leaves room for one more. */
  lemma BusyRoom(cmds: seq<Command>, c: nat)
    requires c < |cmds| && cmds[c].completed
    ensures |Busy(cmds)| < |cmds|
  {
    var cmd := cmds[c].(completed := false);
    BusySet(cmds, c, cmd);
    BusyBound(cmds[c := cmd]);
  }

  lemma {:induction false} Subset(a: set<nat>, b: set<nat>)
    requires a <= b
    ensures |a| <= |b|
  {
    if a != {} {
      var x :| x in a;
      Subset(a - {x}, b - {x});
    }
  }

  lemma OwedBound(cmds: seq<Command>, hashQ: seq<nat>)
    ensures |Owed(cmds, hashQ)| <= |Busy(cmds)|
  {
    Subset(Owed(cmds, hashQ), Busy(cmds));
  }

  lemma {:induction false} PendingConcat(cmds: seq<Command>, a: seq<nat>, b: seq<nat>)
    ensures Pending(cmds, a + b) == Pending(cmds, a) + Pending(cmds, b)
  {
    if a == [] {
      assert a + b == b;
    } else {
      PendingConcat(cmds, a[1..], b);
      assert (a + b)[1..] == a[1..] + b;
    }
  }

  lemma {:induction false} PendingOther(cmds: seq<Command>, hashQ: seq<nat>, c: nat, cmd: Command)
    requires c < |cmds| && c !in hashQ
    ensures Pending(cmds[c := cmd], hashQ) == Pending(cmds, hashQ)
  {
    if hashQ != [] {
      PendingOther(cmds, hashQ[1..], c, cmd);
    }
  }

  lemma {:induction false} NothingPending(cmds: seq<Command>, hashQ: seq<nat>)
    requires Positive(cmds, hashQ)
    ensures Pending(cmds, hashQ) == 0 <==> Owed(cmds, hashQ) == {}
  {
    if hashQ != [] {
      NothingPending(cmds, hashQ[1..]);
      var rest := Owed(cmds, hashQ[1..]);
      if hashQ[0] < |cmds| && !cmds[hashQ[0]].completed {
        assert hashQ[0] in Owed(cmds, hashQ);
      } else {
        assert Owed(cmds, hashQ) == rest;
      }
    }
  }

  // ---------------------------------------------------------------- the chain of reads

  lemma {:induction false} ChainOther(cmds: seq<Command>, readQ: seq<nat>, from: nat, to: nat, c: nat, cmd: Command)
    requires c < |cmds|
    requires c in readQ ==> cmd.offset == cmds[c].offset && cmd.length == cmds[c].length
    ensures Chain(cmds[c := cmd], readQ, from, to) == Chain(cmds, readQ, from, to)
  {
    if readQ != [] && readQ[0] < |cmds| {
      ChainOther(cmds, readQ[1..], from + cmds[readQ[0]].length, to, c, cmd);
    }
  }

  lemma {:induction false} ChainAppend(cmds: seq<Command>, readQ: seq<nat>, from: nat, to: nat, c: nat)
    requires Chain(cmds, readQ, from, to) && c < |cmds| && cmds[c].offset == to && cmds[c].length > 0
    ensures Chain(cmds, readQ + [c], from, to + cmds[c].length)
  {
    var all := readQ + [c];
    if readQ == [] {
      assert all[1..] == [];
    } else {
      assert all[1..] == readQ[1..] + [c];
      ChainAppend(cmds, readQ[1..], from + cmds[readQ[0]].length, to, c);
    }
  }

  lemma {:induction false} ChainGrows(cmds: seq<Command>, readQ: seq<nat>, from: nat, to: nat)
    requires Chain(cmds, readQ, from, to)
    ensures from <= to && (from == to <==> readQ == [])
  {
    if readQ != [] {
      ChainGrows(cmds, readQ[1..], from + cmds[readQ[0]].length, to);
    }
  }

  // ---------------------------------------------------------------- moves

  function Without(s: seq<nat>, i: nat): seq<nat>
    requires i < |s|
  {
    s[..i] + s[i + 1..]
  }

  /** An idle command is given the next extent and goes to the read queue; a zero extent needs no read. */
  function BeginRead(s: Loop, i: nat, e: Extent): Loop
    requires i < |s.hashQ| && s.hashQ[i] < |s.cmds|
  {
    var c := s.hashQ[i];
    s.(cmds := s.cmds[c := Command(s.readOffset, e.length, e.zero, e.zero)], readQ := s.readQ + [c],
       hashQ := Without(s.hashQ, i), readOffset := s.readOffset + e.length,
       inFlight := if e.zero then s.inFlight else s.inFlight + 1)
  }

  /** A read completes: its buffer holds the bytes of the image. */
  function FinishRead(s: Loop, c: nat, content: seq<byte>): Loop
    requires c < |s.cmds| && s.inFlight > 0
  {
    s.(cmds := s.cmds[c := s.cmds[c].(completed := true)], mem := s.mem[c := content], inFlight := s.inFlight - 1)
  }

  /** The head of the read queue is given to the hash: zeros at once, data until the update completes. */
  function Hand(s: Loop): Loop
    requires s.readQ != [] && s.readQ[0] < |s.cmds|
  {
    var c := s.readQ[0];
    var cmd := s.cmds[c];
    var s' := s.(readQ := s.readQ[1..], hashQ := s.hashQ + [c], handed := s.handed + cmd.length);
    if cmd.zero then s'.(hashed := s.hashed + cmd.length)
    else s'.(cmds := s.cmds[c := cmd.(completed := false)], inFlight := s.inFlight + 1)
  }

  /** The hash is done with the update of a command. */
  function FinishUpdate(s: Loop, c: nat): Loop
    requires c < |s.cmds| && s.inFlight > 0
  {
    var cmd := s.cmds[c];
    s.(cmds := s.cmds[c := cmd.(completed := true)], hashed := s.hashed + cmd.length, inFlight := s.inFlight - 1)
  }

  lemma DistinctWithout(s: seq<nat>, i: nat)
    requires Distinct(s) && i < |s|
    ensures Distinct(Without(s, i)) && s[i] !in Without(s, i)
    ensures forall c :: c in s <==> c == s[i] || c in Without(s, i)
  {
  }

  lemma DistinctAppend(s: seq<nat>, c: nat)
    requires Distinct(s) && c !in s
    ensures Distinct(s + [c])
  {
  }

  lemma PartitionRead(depth: nat, readQ: seq<nat>, hashQ: seq<nat>, i: nat)
    requires Partition(depth, readQ, hashQ) && i < |hashQ|
    ensures Partition(depth, readQ + [hashQ[i]], Without(hashQ, i))
    ensures hashQ[i] !in readQ && hashQ[i] !in Without(hashQ, i)
    ensures forall c :: c in hashQ <==> c == hashQ[i] || c in Without(hashQ, i)
  {
    hide Distinct, Without;
    assert hashQ[i] in hashQ;
    DistinctWithout(hashQ, i);
    DistinctAppend(readQ, hashQ[i]);
    assert forall c :: c in readQ + [hashQ[i]] <==> c in readQ || c == hashQ[i];
  }

  lemma PartitionHand(depth: nat, readQ: seq<nat>, hashQ: seq<nat>)
    requires Partition(depth, readQ, hashQ) && readQ != []
    ensures Partition(depth, readQ[1..], hashQ + [readQ[0]])
    ensures readQ[0] !in readQ[1..] && readQ[0] !in hashQ && readQ[0] < depth
  {
    hide Distinct, Without;
    assert readQ[0] in readQ;
    DistinctWithout(readQ, 0);
    assert Without(readQ, 0) == readQ[1..] by { WithoutFirst(readQ); }
    DistinctAppend(hashQ, readQ[0]);
    assert forall c :: c in hashQ + [readQ[0]] <==> c in hashQ || c == readQ[0];
  }

  lemma WithoutFirst(s: seq<nat>)
    requires s != []
    ensures Without(s, 0) == s[1..]
  {
  }

  lemma ReadsMore(image: seq<byte>, readSize: nat, cmds: seq<Command>, readQ: seq<nat>, mem: Memory, c: nat,
                  cmd: Command)
    requires ReadsOk(image, readSize, cmds, readQ, mem) && c < |cmds| && c !in readQ
    requires c in mem ==> ReadOk(image, readSize, cmd, mem[c])
    ensures ReadsOk(image, readSize, cmds[c := cmd], readQ + [c], mem)
  {
  }

  lemma ReadsTail(image: seq<byte>, readSize: nat, cmds: seq<Command>, readQ: seq<nat>, mem: Memory, cmd: Command)
    requires ReadsOk(image, readSize, cmds, readQ, mem) && readQ != [] && readQ[0] < |cmds| && readQ[0] !in readQ[1..]
    ensures ReadsOk(image, readSize, cmds[readQ[0] := cmd], readQ[1..], mem)
  {
  }

  lemma OwedRead(cmds: seq<Command>, hashQ: seq<nat>, i: nat, cmd: Command)
    requires i < |hashQ| && hashQ[i] < |cmds| && cmds[hashQ[i]].completed && Positive(cmds, hashQ)
    requires hashQ[i] !in Without(hashQ, i) && forall c :: c in hashQ <==> c == hashQ[i] || c in Without(hashQ, i)
    ensures Owed(cmds[hashQ[i] := cmd], Without(hashQ, i)) == Owed(cmds, hashQ)
    ensures Positive(cmds[hashQ[i] := cmd], Without(hashQ, i))
  {
    hide Without;
    forall c | c in Without(hashQ, i)
      ensures c in hashQ && c != hashQ[i]
    {
    }
  }

  lemma OwedHand(cmds: seq<Command>, hashQ: seq<nat>, c: nat, cmd: Command)
    requires c < |cmds| && c !in hashQ && Positive(cmds, hashQ) && cmd.length > 0
    ensures c !in Owed(cmds, hashQ)
    ensures Owed(cmds[c := cmd], hashQ + [c]) == Owed(cmds, hashQ) + (if cmd.completed then {} else {c})
    ensures Positive(cmds[c := cmd], hashQ + [c])
  {
  }

  lemma BeginReadOk(image: seq<byte>, readSize: nat, depth: nat, s: Loop, i: nat, e: Extent)
    requires Ok(image, readSize, depth, s) && i < |s.hashQ| && s.hashQ[i] < |s.cmds| && s.cmds[s.hashQ[i]].completed
    requires e.length > 0 && s.readOffset + e.length <= |image|
    requires if e.zero then Slice(image, s.readOffset, e.length, Zeros(e.length)) else e.length <= readSize
    ensures s.inFlight < depth && Ok(image, readSize, depth, BeginRead(s, i, e))
    ensures var s' := BeginRead(s, i, e); Owed(s'.cmds, s'.hashQ) == Owed(s.cmds, s.hashQ)
    ensures s.hashQ[i] !in Without(s.hashQ, i)
  {
    hide Partition, ReadsOk, Chain, Pending, Positive, Owed, Busy, Buffered, Without;
    var c, s' := s.hashQ[i], BeginRead(s, i, e);
    PartitionRead(depth, s.readQ, s.hashQ, i);
    BusyRoom(s.cmds, c);
    BusySet(s.cmds, c, s'.cmds[c]);
    assert c !in Busy(s.cmds) by { NotBusy(s.cmds, c); }
    ReadsMore(image, readSize, s.cmds, s.readQ, s.mem, c, s'.cmds[c]);
    ChainOther(s.cmds, s.readQ, s.handed, s.readOffset, c, s'.cmds[c]);
    ChainAppend(s'.cmds, s.readQ, s.handed, s.readOffset, c);
    PendingOther(s.cmds, s'.hashQ, c, s'.cmds[c]);
    PendingWithout(s.cmds, s.hashQ, i);
    OwedRead(s.cmds, s.hashQ, i, s'.cmds[c]);
  }

  lemma NotBusy(cmds: seq<Command>, c: nat)
    requires c < |cmds|
    ensures c in Busy(cmds) <==> !cmds[c].completed
  {
  }

  lemma PendingWithout(cmds: seq<Command>, hashQ: seq<nat>, i: nat)
    requires i < |hashQ| && (hashQ[i] < |cmds| ==> cmds[hashQ[i]].completed)
    ensures Pending(cmds, Without(hashQ, i)) == Pending(cmds, hashQ)
  {
    PendingConcat(cmds, hashQ[..i], hashQ[i + 1..]);
    PendingConcat(cmds, hashQ[..i], hashQ[i..]);
    assert hashQ[..i] + hashQ[i..] == hashQ && hashQ[i..][1..] == hashQ[i + 1..];
  }

  lemma FinishReadOk(image: seq<byte>, readSize: nat, depth: nat, s: Loop, c: nat, content: seq<byte>)
    requires Ok(image, readSize, depth, s) && c in s.readQ && c < |s.cmds| && !s.cmds[c].completed
    requires |content| == readSize && s.cmds[c].length <= readSize
    requires Slice(image, s.cmds[c].offset, s.cmds[c].length, content[..s.cmds[c].length])
    ensures s.inFlight > 0 && Ok(image, readSize, depth, FinishRead(s, c, content))
    ensures var s' := FinishRead(s, c, content); Owed(s'.cmds, s'.hashQ) == Owed(s.cmds, s.hashQ)
  {
    var cmd := s.cmds[c].(completed := true);
    assert c in Busy(s.cmds);
    BusySet(s.cmds, c, cmd);
    ChainOther(s.cmds, s.readQ, s.handed, s.readOffset, c, cmd);
    PendingOther(s.cmds, s.hashQ, c, cmd);
  }

  /** What is known of a command whose read is outstanding. */
  lemma Reading(image: seq<byte>, readSize: nat, depth: nat, s: Loop, c: nat)
    requires Ok(image, readSize, depth, s) && c in s.readQ && c < |s.cmds| && !s.cmds[c].completed
    ensures s.cmds[c].length <= readSize && s.cmds[c].offset + s.cmds[c].length <= |image|
    ensures c in s.mem && |s.mem[c]| == readSize && c !in Owed(s.cmds, s.hashQ)
  {
  }

  lemma Indexed(image: seq<byte>, readSize: nat, depth: nat, s: Loop)
    requires Ok(image, readSize, depth, s)
    ensures |s.cmds| == depth && s.handed <= s.readOffset <= |image|
    ensures forall k :: 0 <= k < |s.readQ| ==> s.readQ[k] < |s.cmds|
    ensures forall k :: 0 <= k < |s.hashQ| ==> s.hashQ[k] < |s.cmds|
  {
    ChainGrows(s.cmds, s.readQ, s.handed, s.readOffset);
    forall k | 0 <= k < |s.readQ|
      ensures s.readQ[k] < |s.cmds|
    {
      assert s.readQ[k] in s.readQ;
    }
    forall k | 0 <= k < |s.hashQ|
      ensures s.hashQ[k] < |s.cmds|
    {
      assert s.hashQ[k] in s.hashQ;
    }
  }

  lemma SliceAppend(image: seq<byte>, from: nat, length: nat, bytes: seq<byte>)
    requires Slice(image, from, length, bytes)
    ensures from + length <= |image| && image[..from] + bytes == image[..from + length]
  {
  }

  lemma HandOk(image: seq<byte>, readSize: nat, depth: nat, s: Loop)
    requires Ok(image, readSize, depth, s) && s.readQ != [] && s.readQ[0] < |s.cmds| && s.cmds[s.readQ[0]].completed
    ensures Ok(image, readSize, depth, Hand(s)) && |Owed(s.cmds, s.hashQ)| <= s.inFlight < depth
    ensures var c, s' := s.readQ[0], Hand(s);
            var cmd := s.cmds[c];
            && cmd.offset == s.handed && cmd.length > 0 && c in s.mem && c !in Owed(s.cmds, s.hashQ)
            && Owed(s'.cmds, s'.hashQ) == Owed(s.cmds, s.hashQ) + (if cmd.zero then {} else {c})
            && if cmd.zero then Slice(image, s.handed, cmd.length, Zeros(cmd.length))
               else cmd.length <= |s.mem[c]| && Slice(image, s.handed, cmd.length, s.mem[c][..cmd.length])
  {
    hide Partition, Pending, Positive, Owed, Busy, Slice;
    var c, s' := s.readQ[0], Hand(s);
    PartitionHand(depth, s.readQ, s.hashQ);
    assert c in s.readQ && c in s.mem && ReadOk(image, readSize, s.cmds[c], s.mem[c]);
    BusyRoom(s.cmds, c);
    BusySet(s.cmds, c, s'.cmds[c]);
    NotBusy(s.cmds, c);
    assert s.cmds[c := s.cmds[c]] == s.cmds;
    assert s'.cmds == s.cmds[c := s'.cmds[c]];
    ReadsTail(image, readSize, s.cmds, s.readQ, s.mem, s'.cmds[c]);
    ChainOther(s.cmds, s.readQ[1..], s'.handed, s.readOffset, c, s'.cmds[c]);
    PendingConcat(s'.cmds, s.hashQ, [c]);
    PendingOther(s.cmds, s.hashQ, c, s'.cmds[c]);
    PendingOne(s'.cmds, c);
    OwedHand(s.cmds, s.hashQ, c, s'.cmds[c]);
    OwedBound(s.cmds, s.hashQ);
  }

  lemma PendingOne(cmds: seq<Command>, c: nat)
    requires c < |cmds|
    ensures Pending(cmds, [c]) == if cmds[c].completed then 0 else cmds[c].length
  {
  }

  lemma FinishUpdateOk(image: seq<byte>, readSize: nat, depth: nat, s: Loop, c: nat)
    requires Ok(image, readSize, depth, s) && c in Owed(s.cmds, s.hashQ)
    ensures s.inFlight > 0 && Ok(image, readSize, depth, FinishUpdate(s, c))
    ensures var s' := FinishUpdate(s, c); Owed(s'.cmds, s'.hashQ) == Owed(s.cmds, s.hashQ) - {c}
  {
    var cmd := s.cmds[c].(completed := true);
    assert c in Busy(s.cmds);
    BusySet(s.cmds, c, cmd);
    ChainOther(s.cmds, s.readQ, s.handed, s.readOffset, c, cmd);
    var i :| 0 <= i < |s.hashQ| && s.hashQ[i] == c;
    PendingFinished(s.cmds, s.hashQ, i);
  }

  /** Completing one update takes exactly its length off what is pending. */
  lemma PendingFinished(cmds: seq<Command>, hashQ: seq<nat>, i: nat)
    requires Distinct(hashQ) && i < |hashQ| && hashQ[i] < |cmds| && !cmds[hashQ[i]].completed
    ensures Pending(cmds, hashQ) ==
            Pending(cmds[hashQ[i] := cmds[hashQ[i]].(completed := true)], hashQ) + cmds[hashQ[i]].length
  {
    var c := hashQ[i];
    var cmd := cmds[c].(completed := true);
    var left, right := hashQ[..i], hashQ[i + 1..];
    assert hashQ == left + ([c] + right);
    PendingConcat(cmds, left, [c] + right);
    PendingConcat(cmds[c := cmd], left, [c] + right);
    PendingConcat(cmds, [c], right);
    PendingConcat(cmds[c := cmd], [c], right);
    PendingOther(cmds, left, c, cmd);
    PendingOther(cmds, right, c, cmd);
  }

  /** When everything is hashed, every command is idle in the hash queue. */
  lemma AllDone(image: seq<byte>, readSize: nat, depth: nat, s: Loop)
    requires Ok(image, readSize, depth, s) && s.hashed >= |image|
    ensures s.hashed == s.handed == s.readOffset == |image| && s.readQ == [] && s.inFlight == 0
    ensures Owed(s.cmds, s.hashQ) == {}
  {
    ChainGrows(s.cmds, s.readQ, s.handed, s.readOffset);
    NothingPending(s.cmds, s.hashQ);
    forall c | c in Busy(s.cmds)
      ensures c in Owed(s.cmds, s.hashQ)
    {
    }
    assert Busy(s.cmds) == {};
  }

  /** With no read outstanding, whatever is in flight is an update. */
  lemma BusyOwed(image: seq<byte>, readSize: nat, depth: nat, s: Loop)
    requires Ok(image, readSize, depth, s) && s.inFlight > 0
    requires forall k :: 0 <= k < |s.readQ| ==> s.readQ[k] < |s.cmds| && s.cmds[s.readQ[k]].completed
    ensures Owed(s.cmds, s.hashQ) != {}
  {
    var c :| c in Busy(s.cmds);
    assert c in Owed(s.cmds, s.hashQ);
  }

  /** With nothing in flight, nothing to hand over and no idle command that could read more, all is done. */
  lemma NothingLeft(image: seq<byte>, readSize: nat, depth: nat, s: Loop)
    requires Ok(image, readSize, depth, s) && depth > 0 && s.inFlight == 0
    requires s.readQ == [] || (s.readQ[0] < |s.cmds| && !s.cmds[s.readQ[0]].completed)
    requires s.readOffset >= |image| || forall c :: c in s.hashQ && c < |s.cmds| ==> !s.cmds[c].completed
    ensures s.hashed == |image|
  {
    assert forall c: nat :: c < |s.cmds| ==> (c in Busy(s.cmds) <==> !s.cmds[c].completed);
    ChainGrows(s.cmds, s.readQ, s.handed, s.readOffset);
    assert s.readQ == [];
    assert 0 < depth ==> 0 in s.hashQ;
    assert Owed(s.cmds, s.hashQ) <= Busy(s.cmds);
    NothingPending(s.cmds, s.hashQ);
  }

  function Idle(depth: nat): seq<Command> {
    seq(depth, _ => Command(0, 0, true, false))
  }

  function Range(n: nat): seq<nat> {
    seq(n, i => i)
  }

  /** At the start every command is idle in the hash queue. */
  lemma InitOk(image: seq<byte>, readSize: nat, depth: nat, mem: Memory)
    requires Buffered(depth, readSize, mem)
    ensures Ok(image, readSize, depth, Loop(Idle(depth), [], Range(depth), 0, 0, 0, 0, mem))
    ensures Owed(Idle(depth), Range(depth)) == {}
  {
    forall c: nat | c < depth
      ensures c in Range(depth)
    {
      assert Range(depth)[c] == c;
    }
    assert Busy(Idle(depth)) == {};
    NothingPending(Idle(depth), Range(depth));
    assert Owed(Idle(depth), Range(depth)) == {};
  }

  /** The calls cover everything below `to` exactly once, in increasing order and without a gap. */
  ghost predicate Contiguous(log: seq<(nat, nat)>, to: nat) {
    if log == [] then to == 0
    else
      var last := log[|log| - 1];
      last.1 > 0 && last.0 + last.1 == to && Contiguous(log[..|log| - 1], last.0)
  }

  lemma ContiguousMore(log: seq<(nat, nat)>, to: nat, length: nat)
    requires Contiguous(log, to) && length > 0
    ensures Contiguous(log + [(to, length)], to + length)
  {
  }

  // ---------------------------------------------------------------- extents

  /** A truthful answer of the source: extents that follow each other from `at`, never empty, never past the
      end of the image, and zero only where the image is. */
  predicate Truthful(image: seq<byte>, extents: seq<Extent>, at: nat) {
    extents == [] ||
    (var e := extents[0];
     && e.length > 0 && at + e.length <= |image|
     && (e.zero ==> image[at..at + e.length] == Zeros(e.length))
     && Truthful(image, extents[1..], at + e.length))
  }

  /** The front of a data extent can be taken off. */
  lemma TruthfulCut(image: seq<byte>, extents: seq<Extent>, at: nat, take: nat)
    requires Truthful(image, extents, at) && extents != [] && !extents[0].zero && take < extents[0].length
    ensures Truthful(image, extents[0 := extents[0].(length := extents[0].length - take)], at + take)
  {
  }

  // ---------------------------------------------------------------- updates and commands

  /** Every live update was started by one of the commands in `owed` with that command's buffer, and `late`
      are records taken from the hash that the loop has not looked at yet. */
  ghost predicate Lends(issued: seq<Issue>, live: set<nat>, late: seq<Record>, owed: set<nat>) {
    && (forall t :: t in live ==> t < |issued| && issued[t].buf == issued[t].userData && issued[t].userData in owed)
    && (forall t, u :: t in live && u in live && t < |issued| && u < |issued| && t != u ==>
          issued[t].userData != issued[u].userData)
    && (forall k :: 0 <= k < |late| ==> late[k].userData in owed)
    && (forall j, k :: 0 <= j < k < |late| ==> late[j].userData != late[k].userData)
    && (forall t, k :: t in live && t < |issued| && 0 <= k < |late| ==> issued[t].userData != late[k].userData)
    && |owed| == |live| + |late|
  }

  lemma LendsStart(issued: seq<Issue>, live: set<nat>, owed: set<nat>, c: nat)
    requires Lends(issued, live, [], owed) && c !in owed && |issued| !in live
    ensures Lends(issued + [Issue(c, c)], live + {|issued|}, [], owed + {c})
  {
  }

  lemma LendsSize(issued: seq<Issue>, live: set<nat>, owed: set<nat>)
    requires Lends(issued, live, [], owed)
    ensures |live| == |owed| && (live == {} <==> owed == {})
  {
  }

  lemma NotLent(issued: seq<Issue>, live: set<nat>, late: seq<Record>, owed: set<nat>, c: nat)
    requires Lends(issued, live, late, owed) && c !in owed
    ensures forall t :: t in live && t < |issued| ==> issued[t].buf != c
  {
  }

  lemma LendsTake(issued: seq<Issue>, live: set<nat>, owed: set<nat>, late: seq<Record>)
    requires Lends(issued, live, [], owed) && |live - Tickets(late)| == |live| - |late|
    requires forall r :: r in late ==>
               r.ticket in live && r.ticket < |issued| && r.userData == issued[r.ticket].userData
    requires forall j, k :: 0 <= j < k < |late| ==> late[j].ticket != late[k].ticket
    ensures Lends(issued, live - Tickets(late), late, owed)
  {
  }

  lemma LendsDone(issued: seq<Issue>, live: set<nat>, late: seq<Record>, owed: set<nat>)
    requires Lends(issued, live, late, owed) && late != []
    ensures late[0].userData in owed
    ensures Lends(issued, live, late[1..], owed - {late[0].userData})
  {
  }

  lemma DistinctRecords(issued: seq<Issue>, live: set<nat>, before: seq<Record>, records: seq<Record>,
                        faults: seq<Fault>)
    requires HistoryOk(issued, live, before + records, faults)
    ensures forall j, k :: 0 <= j < k < |records| ==> records[j].ticket != records[k].ticket
  {
    var all := before + records;
    forall j, k | 0 <= j < k < |records|
      ensures records[j].ticket != records[k].ticket
    {
      assert all[|before| + j] == records[j] && all[|before| + k] == records[k];
    }
  }
}
