/** The engine's private state at one moment, and what each of its moves keeps.

    A `View` is the submission queue, the outer digest and the shared state taken together; the lemmas here
    are about values, so that the methods of the engine only have to name the view they reach. */
module Views {
  import opened Streams
  import opened Pools
  import opened Shared
  import opened SharedSteps
  import opened SharedCalls
  import opened Ordering

  ghost predicate Distinct(ids: seq<nat>) {
    forall j, k :: 0 <= j < k < |ids| ==> ids[j] != ids[k]
  }

  /** The submission queue refers to live submissions, each once, and to all but those that were taken off with an
      error. */
  ghost predicate QueueOk(subs: map<nat, Submission>, ids: seq<nat>, nextId: nat) {
    && Distinct(ids)
    && (forall id :: id in ids ==> id in subs)
    && (forall id :: id in subs ==> id < nextId)
    && (forall id :: id in subs && (!subs[id].completed || subs[id].error == 0) ==> id in ids)
  }

  /** What has been fed to the outer digest, and what the queue still accounts for. */
  ghost predicate Ordered(sp: Spec, subs: map<nat, Submission>, ids: seq<nat>, h: nat, outer: seq<byte>,
                          standing: seq<seq<byte>>) {
    && |standing| == |sp.blocks| && h <= |standing|
    && Covers(subs, ids, h, standing, sp.bs) && outer == DigestCat(sp.D, standing[..h])
  }

  /** What block i is to the outer digest once its submission `id` was hashed: a block whose digest failed
      reads as zeros. */
  ghost function Stands(sp: Spec, id: int, i: nat): seq<byte>
    requires i < |sp.blocks|
  {
    if id >= 0 && sp.fails(id) != 0 then Zeros(sp.bs) else sp.blocks[i]
  }

  /** Block i was carried by submission `id`, or by none if it was consumed as zeros; one that was freed left its
      block as it is. */
  ghost predicate PlaceOk(sp: Spec, subs: map<nat, Submission>, ids: seq<nat>, id: int, i: nat, block: seq<byte>)
    requires i < |sp.blocks|
  {
    if id >= 0 && id in ids then
      id in subs && !subs[id].data.NoData? && subs[id].index == i && block == sp.blocks[i]
    else
      && block == Stands(sp, id, i) && (id < 0 ==> block == Zeros(sp.bs))
      && (id >= 0 && id !in subs ==> block == sp.blocks[i])
  }

  ghost predicate Carried(carriers: seq<int>, nextId: nat) {
    forall i :: 0 <= i < |carriers| ==> carriers[i] < nextId
  }

  ghost predicate Placed(sp: Spec, subs: map<nat, Submission>, ids: seq<nat>, carriers: seq<int>,
                         standing: seq<seq<byte>>) {
    && |carriers| == |standing| == |sp.blocks|
    && (forall i :: 0 <= i < |carriers| ==> PlaceOk(sp, subs, ids, carriers[i], i, standing[i]))
    && (forall id :: id in ids && id in subs && !subs[id].data.NoData? ==>
          subs[id].index < |carriers| && carriers[subs[id].index] == id)
  }

  /** What a call leaves alone while workers run beside it. */
  ghost predicate KeptBase(w: World, w': World) {
    match w'
    case World(pool, subs, comps, cq, event, draining, caller, mem, faults) =>
      && mem == w.mem && draining == w.draining
      && pool.size == w.pool.size && |pool.workers| == |w.pool.workers|
      && comps.Keys <= w.comps.Keys && w.cq <= cq
      && SameFaults(w.comps, w.faults, faults)
  }

  ghost predicate Kept(w: World, w': World) {
    KeptBase(w, w') && w'.caller == w.caller
  }

  lemma KeptBaseParts(w: World, w': World)
    requires KeptBase(w, w')
    ensures w'.mem == w.mem && w'.draining == w.draining
    ensures forall t: nat :: FirstFault(w.faults, t) != 0 ==> FirstFault(w'.faults, t) == FirstFault(w.faults, t)
  {
  }

  lemma KeptBaseTransitive(w1: World, w2: World, w3: World)
    requires KeptBase(w1, w2) && KeptBase(w2, w3)
    ensures KeptBase(w1, w3)
  {
  }

  /** A call that failed consumed its block or did not. */
  ghost predicate GrewBy(old': seq<seq<byte>>, new': seq<seq<byte>>, block: seq<byte>) {
    new' == old' || new' == old' + [block]
  }

  lemma KeptCaller(w: World, w': World)
    requires Kept(w, w')
    ensures w'.mem == w.mem && w'.caller == w.caller && w'.draining == w.draining
  {
  }

  lemma KeptTransitive(w1: World, w2: World, w3: World)
    requires Kept(w1, w2) && Kept(w2, w3)
    ensures Kept(w1, w3)
  {
  }

  lemma RelyParts(w: World, w': World)
    requires Rely(w, w')
    ensures w'.mem == w.mem && w'.caller == w.caller && w'.draining == w.draining && w.cq <= w'.cq
    ensures (w.event ==> w'.event) && Effort(w') <= Effort(w) && w'.pool.size == w.pool.size
  {
  }

  lemma RelyRefl(w: World)
    ensures Rely(w, w)
  {
  }

  lemma RelyKept(w: World, w': World)
    requires Rely(w, w')
    ensures Kept(w, w')
  {
  }

  /** The engine at one moment: the shared state, the queue, the outer digest, and the fate of every block.
      `error` is the first error, `open` is false once the digest was finalized, `sent` is the block index at the
      last submission, and `makers` tells of every submission for which update it was made. */
  datatype View = View(sp: Spec, world: World, ids: seq<nat>, nextId: nat, error: nat, open: bool,
                       sent: nat, h: nat, outer: seq<byte>, carriers: seq<int>, standing: seq<seq<byte>>,
                       makers: seq<Link>)

  ghost predicate Good(v: View) {
    match v
    case View(sp, w, ids, nextId, error, open, _, h, outer, carriers, standing, makers) =>
      && Inv(sp, w) && QueueOk(w.subs, ids, nextId)
      && (open ==> Ordered(sp, w.subs, ids, h, outer, standing) && Placed(sp, w.subs, ids, carriers, standing))
      && Carried(carriers, nextId)
      && (open && error == 0 ==> standing == sp.blocks && forall id :: id in w.subs ==> id in ids)
      && GuiltOk(w.subs, ids, error) && |makers| == nextId && MadeOk(w.subs, makers)
  }

  /** A submission that was taken off the queue with this error; such a one is never freed. */
  ghost predicate Guilty(subs: map<nat, Submission>, ids: seq<nat>, error: nat, id: nat) {
    id in subs && subs[id].completed && subs[id].error == error && id !in ids
  }

  /** The error of the hash is that of a submission. */
  ghost predicate GuiltOk(subs: map<nat, Submission>, ids: seq<nat>, error: nat) {
    error != 0 ==> exists id :: Guilty(subs, ids, error, id)
  }

  ghost predicate MadeOk(subs: map<nat, Submission>, makers: seq<Link>) {
    forall id :: id in subs ==> id < |makers| && (!subs[id].data.NoData? ==> subs[id].origin == makers[id])
  }

  lemma RelyGuilt(w: World, w': World, ids: seq<nat>, error: nat, makers: seq<Link>)
    requires Rely(w, w') && GuiltOk(w.subs, ids, error) && MadeOk(w.subs, makers)
    ensures GuiltOk(w'.subs, ids, error) && MadeOk(w'.subs, makers)
  {
    forall id | id in w.subs
      ensures SameSubmission(w.subs[id], w'.subs[id])
    {
    }
    if error != 0 {
      var id :| Guilty(w.subs, ids, error, id);
      assert Guilty(w'.subs, ids, error, id);
    }
  }

  /** The head leaves the queue: freed if it carries no error, else with the blame for the first one. */
  lemma RetireGuilt(subs: map<nat, Submission>, id: nat, rest: seq<nat>, error: nat)
    requires GuiltOk(subs, [id] + rest, error) && id in subs && subs[id].completed && id !in rest
    ensures if subs[id].error == 0 then GuiltOk(subs - {id}, rest, error)
            else GuiltOk(subs, rest, if error == 0 then subs[id].error else error)
  {
    if error != 0 {
      var j :| Guilty(subs, [id] + rest, error, j);
      assert j != id && j !in rest;
      assert Guilty(subs, rest, error, j) && (subs[id].error == 0 ==> Guilty(subs - {id}, rest, error, j));
    } else if subs[id].error != 0 {
      assert Guilty(subs, rest, subs[id].error, id);
    }
  }

  lemma FreeMade(subs: map<nat, Submission>, makers: seq<Link>, id: nat)
    requires MadeOk(subs, makers)
    ensures MadeOk(subs - {id}, makers)
  {
  }

  lemma JoinGuilt(subs: map<nat, Submission>, ids: seq<nat>, error: nat, makers: seq<Link>, s: Submission, link: Link)
    requires GuiltOk(subs, ids, error) && MadeOk(subs, makers) && |makers| !in subs
    requires !s.data.NoData? ==> s.origin == link
    ensures GuiltOk(subs[|makers| := s], ids + [|makers|], error) && MadeOk(subs[|makers| := s], makers + [link])
  {
    if error != 0 {
      var id :| Guilty(subs, ids, error, id);
      assert Guilty(subs[|makers| := s], ids + [|makers|], error, id);
    }
  }

  ghost predicate IsTight(v: View) {
    match v
    case View(sp, w, ids, _, _, open, _, h, _, _, standing, _) =>
      open ==> Tight(w.subs, ids, h, standing, sp.bs)
  }

  ghost predicate IsShort(v: View) {
    v.open ==> Short(v.world.subs, v.ids, v.h, |v.standing|)
  }

  /** Hashing what is queued goes to the end, or does not, as before. */
  ghost predicate SameEnd(v: View, v': View) {
    (IsTight(v) ==> IsTight(v')) && (IsShort(v) ==> IsShort(v'))
  }

  lemma RelyQueue(w: World, w': World, ids: seq<nat>, nextId: nat)
    requires Rely(w, w') && QueueOk(w.subs, ids, nextId)
    ensures QueueOk(w'.subs, ids, nextId)
  {
  }

  lemma RelyOrdered(sp: Spec, w: World, w': World, ids: seq<nat>, h: nat, outer: seq<byte>, standing: seq<seq<byte>>)
    requires Rely(w, w') && Ordered(sp, w.subs, ids, h, outer, standing)
    ensures Ordered(sp, w'.subs, ids, h, outer, standing)
    ensures Tight(w.subs, ids, h, standing, sp.bs) ==> Tight(w'.subs, ids, h, standing, sp.bs)
    ensures Short(w.subs, ids, h, |standing|) ==> Short(w'.subs, ids, h, |standing|)
  {
    forall id | id in w.subs
      ensures w'.subs[id].index == w.subs[id].index && w'.subs[id].data == w.subs[id].data
    {
      assert SameSubmission(w.subs[id], w'.subs[id]);
    }
    CoversSame(w.subs, w'.subs, ids, h, standing, sp.bs);
  }

  lemma RelyPlaced(sp: Spec, w: World, w': World, ids: seq<nat>, carriers: seq<int>, standing: seq<seq<byte>>)
    requires Rely(w, w') && Placed(sp, w.subs, ids, carriers, standing)
    ensures Placed(sp, w'.subs, ids, carriers, standing)
  {
    forall id | id in w.subs
      ensures w'.subs[id].index == w.subs[id].index && w'.subs[id].data == w.subs[id].data
    {
      assert SameSubmission(w.subs[id], w'.subs[id]);
    }
    forall i | 0 <= i < |carriers|
      ensures PlaceOk(sp, w'.subs, ids, carriers[i], i, standing[i])
    {
      assert PlaceOk(sp, w.subs, ids, carriers[i], i, standing[i]);
    }
  }

  lemma GoodInv(v: View)
    requires Good(v)
    ensures Inv(v.sp, v.world)
  {
  }

  lemma GoodFirst(v: View)
    requires Good(v) && v.ids != []
    ensures v.ids[0] in v.world.subs
  {
  }

  /** Workers do not disturb the caller's view of queue, order and outer digest. */
  lemma RelyGood(v: View, w': World)
    requires Good(v) && Rely(v.world, w') && Inv(v.sp, w')
    ensures Good(v.(world := w')) && SameEnd(v, v.(world := w'))
  {
    hide Inv, QueueOk, Ordered, Placed, GuiltOk, MadeOk;
    RelyGuilt(v.world, w', v.ids, v.error, v.makers);
    RelyQueue(v.world, w', v.ids, v.nextId);
    if v.open {
      RelyOrdered(v.sp, v.world, w', v.ids, v.h, v.outer, v.standing);
      RelyPlaced(v.sp, v.world, w', v.ids, v.carriers, v.standing);
    }
  }

  /** A completed submission at the head of the queue, and what is known about it. */
  ghost predicate HeadReady(v: View, id: nat, rest: seq<nat>) {
    && id in v.world.subs && v.world.subs[id].computed && SubOk(v.sp, v.world.mem, v.world.subs[id])
    && (v.open ==>
          && Covers(v.world.subs, [id] + rest, v.h, v.standing, v.sp.bs) && |v.standing| == |v.sp.blocks|
          && ZeroRange(v.standing, v.sp.bs, v.h, v.world.subs[id].index)
          && v.outer == DigestCat(v.sp.D, v.standing[..v.h])
          && (!v.world.subs[id].data.NoData? ==>
                v.standing[v.world.subs[id].index] == v.sp.blocks[v.world.subs[id].index]))
  }

  /** What hashing the head of the queue must achieve. */
  ghost predicate HeadHashed(v: View, id: nat, rest: seq<nat>, h: nat, outer: seq<byte>) {
    v.open ==>
      && Covers(v.world.subs, rest, h, v.standing, v.sp.bs)
      && h <= |v.standing| && outer == DigestCat(v.sp.D, v.standing[..h])
      && (Tight(v.world.subs, [id] + rest, v.h, v.standing, v.sp.bs) ==>
            Tight(v.world.subs, rest, h, v.standing, v.sp.bs))
      && (Short(v.world.subs, [id] + rest, v.h, |v.standing|) ==> Short(v.world.subs, rest, h, |v.standing|))
  }

  lemma ClosedHead(v: View, id: nat, rest: seq<nat>, h: nat, outer: seq<byte>)
    requires !v.open
    ensures HeadHashed(v, id, rest, h, outer)
  {
  }

  lemma GoodHead(v: View, id: nat, rest: seq<nat>)
    requires Good(v) && v.ids == [id] + rest && id in v.world.subs && v.world.subs[id].completed
    ensures HeadReady(v, id, rest)
  {
    hide QueueOk;
    assert id in v.ids;
    assert SubOk(v.sp, v.world.mem, v.world.subs[id]);
    if v.open {
      CoversHead(v.world.subs, id, rest, v.h, v.standing, v.sp.bs);
      if !v.world.subs[id].data.NoData? {
        assert PlaceOk(v.sp, v.world.subs, v.ids, id, v.world.subs[id].index, v.standing[v.world.subs[id].index]);
      }
    }
  }

  /** Hashing the head: `outer` already holds the digests of all blocks before it. */
  lemma HashedHead(v: View, id: nat, rest: seq<nat>, outer: seq<byte>)
    requires HeadReady(v, id, rest) && v.world.subs[id].error == 0
    requires v.open ==> outer == DigestCat(v.sp.D, v.standing[..v.world.subs[id].index])
    ensures var s := v.world.subs[id];
            if s.zero then HeadHashed(v, id, rest, s.index, outer)
            else HeadHashed(v, id, rest, s.index + 1, outer + s.md)
  {
    var s, blocks, bs := v.world.subs[id], v.standing, v.sp.bs;
    if v.open {
      CoversHead(v.world.subs, id, rest, v.h, blocks, bs);
      if !s.zero {
        DigestCatNext(v.sp.D, blocks, s.index);
      } else if !s.data.NoData? {
        CoversLower(v.world.subs, rest, s.index, s.index + 1, blocks, bs);
      }
      if Tight(v.world.subs, [id] + rest, v.h, blocks, bs) {
        TightTail(v.sp, v.world.mem, v.world.subs, id, rest, v.h, if s.zero then s.index else s.index + 1, blocks);
      }
      if Short(v.world.subs, [id] + rest, v.h, |blocks|) {
        ShortTail(v.world.subs, id, rest, v.h, if s.zero then s.index else s.index + 1, |blocks|);
      }
    }
  }

  lemma RetireQueue(subs: map<nat, Submission>, id: nat, rest: seq<nat>, nextId: nat)
    requires QueueOk(subs, [id] + rest, nextId)
    ensures id in subs && id !in rest
    ensures subs[id].completed ==> QueueOk(subs - {id}, rest, nextId)
    ensures subs[id].completed && subs[id].error != 0 ==> QueueOk(subs, rest, nextId)
  {
    var all := [id] + rest;
    assert all[0] == id && forall k :: 0 <= k < |rest| ==> all[k + 1] == rest[k];
    assert id in all && id !in rest;
    assert forall x :: x in all <==> x == id || x in rest;
  }

  lemma RetireOrdered(sp: Spec, subs: map<nat, Submission>, id: nat, rest: seq<nat>, h: nat, outer: seq<byte>,
                      standing: seq<seq<byte>>)
    requires Covers(subs, rest, h, standing, sp.bs) && id !in rest && |standing| == |sp.blocks|
    requires h <= |standing| && outer == DigestCat(sp.D, standing[..h])
    ensures Ordered(sp, subs - {id}, rest, h, outer, standing)
    ensures Tight(subs, rest, h, standing, sp.bs) ==> Tight(subs - {id}, rest, h, standing, sp.bs)
    ensures Short(subs, rest, h, |standing|) ==> Short(subs - {id}, rest, h, |standing|)
  {
    CoversSame(subs, subs - {id}, rest, h, standing, sp.bs);
  }

  /** A submission that carried no error leaves its block as it is. */
  lemma RetirePlaced(sp: Spec, subs: map<nat, Submission>, id: nat, rest: seq<nat>, carriers: seq<int>,
                     standing: seq<seq<byte>>)
    requires Placed(sp, subs, [id] + rest, carriers, standing) && id in subs && id !in rest
    requires Due(sp, id, subs[id]) == 0
    ensures Placed(sp, subs - {id}, rest, carriers, standing)
  {
    forall i | 0 <= i < |carriers|
      ensures PlaceOk(sp, subs - {id}, rest, carriers[i], i, standing[i])
    {
      assert PlaceOk(sp, subs, [id] + rest, carriers[i], i, standing[i]);
    }
  }

  /** A submission that is not doomed leaves its block as it is. */
  lemma PlaceDue(v: View, i: nat, id: nat)
    requires Good(v) && v.open && i < |v.carriers| && v.carriers[i] == id && id in v.world.subs
    requires Due(v.sp, id, v.world.subs[id]) == 0
    ensures i < |v.sp.blocks| && Stands(v.sp, id, i) == v.sp.blocks[i]
  {
    hide Inv, Ordered, GuiltOk, MadeOk;
    assert PlaceOk(v.sp, v.world.subs, v.ids, id, i, v.standing[i]);
    if v.world.subs[id].completed { HeadError(v, id); }
  }

  /** A submission that failed leaves zeros in the place of its block. */
  lemma FailPlaced(sp: Spec, subs: map<nat, Submission>, id: nat, rest: seq<nat>, carriers: seq<int>,
                   standing: seq<seq<byte>>)
    requires Placed(sp, subs, [id] + rest, carriers, standing) && id in subs && id !in rest
    requires Due(sp, id, subs[id]) != 0
    ensures subs[id].index < |standing|
    ensures Placed(sp, subs, rest, carriers, standing[subs[id].index := Zeros(sp.bs)])
  {
    var at := subs[id].index;
    assert id in [id] + rest && carriers[at] == id;
    forall i | 0 <= i < |carriers|
      ensures PlaceOk(sp, subs, rest, carriers[i], i, standing[at := Zeros(sp.bs)][i])
    {
      assert PlaceOk(sp, subs, [id] + rest, carriers[i], i, standing[i]);
    }
  }

  lemma HeadError(v: View, id: nat)
    requires Inv(v.sp, v.world) && id in v.world.subs && v.world.subs[id].completed
    ensures v.world.subs[id].error == Due(v.sp, id, v.world.subs[id])
  {
    assert ErrorOk(v.sp, id, v.world.subs[id]);
  }

  lemma RetireGood(v: View, id: nat, rest: seq<nat>, h: nat, outer: seq<byte>)
    requires Good(v) && v.ids == [id] + rest && id in v.world.subs && v.world.subs[id].completed
    requires HeadHashed(v, id, rest, h, outer) && v.world.subs[id].error == 0
    ensures var v' := v.(world := Free(v.world, id), ids := rest, h := h, outer := outer);
            Good(v') && SameEnd(v, v')
  {
    hide Inv, QueueOk, Placed, GuiltOk, MadeOk, Covers;
    RetireQueue(v.world.subs, id, rest, v.nextId);
    RetireGuilt(v.world.subs, id, rest, v.error);
    FreeMade(v.world.subs, v.makers, id);
    FreeInv(v.sp, v.world, id);
    HeadError(v, id);
    if v.open {
      RetireOrdered(v.sp, v.world.subs, id, rest, h, outer, v.standing);
      RetirePlaced(v.sp, v.world.subs, id, rest, v.carriers, v.standing);
    }
  }

  ghost function FailView(v: View, id: nat, rest: seq<nat>): View
    requires id in v.world.subs
  {
    var at := v.world.subs[id].index;
    v.(ids := rest, error := if v.error == 0 then v.world.subs[id].error else v.error,
       standing := if at < |v.standing| then v.standing[at := Zeros(v.sp.bs)] else v.standing)
  }

  /** A submission that failed stays allocated, and its block reads as zeros from now on. */
  lemma FailGood(v: View, id: nat, rest: seq<nat>)
    requires Good(v) && v.ids == [id] + rest && id in v.world.subs && v.world.subs[id].completed
    requires v.world.subs[id].error != 0
    ensures Good(FailView(v, id, rest))
  {
    hide Inv, QueueOk, Placed, Covers, GuiltOk, MadeOk;
    RetireQueue(v.world.subs, id, rest, v.nextId);
    RetireGuilt(v.world.subs, id, rest, v.error);
    HeadError(v, id);
    if v.open {
      CoversPatch(v.world.subs, id, rest, v.h, v.standing, v.sp.bs);
      FailPlaced(v.sp, v.world.subs, id, rest, v.carriers, v.standing);
      assert FailView(v, id, rest).standing[..v.h] == v.standing[..v.h];
    }
  }

  ghost function MarkerView(v: View): View {
    var id, at := v.nextId, |v.sp.blocks|;
    v.(world := AddMarker(v.world, id, at), ids := v.ids + [id], nextId := id + 1, sent := at,
       makers := v.makers + [Made(v.world.caller)])
  }

  lemma MarkerGood(v: View)
    requires Good(v)
    ensures Good(MarkerView(v)) && IsTight(MarkerView(v))
  {
    hide Inv, QueueOk, Placed, Covers, GuiltOk, MadeOk;
    var id, s := v.nextId, NewMarker(|v.sp.blocks|);
    PushQueue(v.world.subs, v.ids, id, s);
    JoinGuilt(v.world.subs, v.ids, v.error, v.makers, s, Made(v.world.caller));
    AddMarkerInv(v.sp, v.world, id);
    if v.open {
      CoversAppend(v.world.subs, v.ids, v.h, v.standing, v.sp.bs, id, s, []);
      assert v.standing + [] == v.standing;
      MarkerPlaced(v.sp, v.world.subs, v.ids, v.carriers, v.standing, id, s);
    }
  }

  lemma MarkerPlaced(sp: Spec, subs: map<nat, Submission>, ids: seq<nat>, carriers: seq<int>, standing: seq<seq<byte>>,
                     id: nat, s: Submission)
    requires Placed(sp, subs, ids, carriers, standing) && s.data.NoData? && id !in subs
    requires Carried(carriers, id)
    ensures Placed(sp, subs[id := s], ids + [id], carriers, standing)
  {
    forall i | 0 <= i < |carriers|
      ensures PlaceOk(sp, subs[id := s], ids + [id], carriers[i], i, standing[i])
    {
      assert PlaceOk(sp, subs, ids, carriers[i], i, standing[i]);
    }
  }

  ghost function ZerosView(v: View, count: nat): View {
    var zeros := seq(count, _ => Zeros(v.sp.bs));
    v.(sp := v.sp.(blocks := v.sp.blocks + zeros), carriers := v.carriers + seq(count, _ => -1),
       standing := v.standing + zeros)
  }

  lemma ZerosGood(v: View, count: nat)
    requires Good(v)
    ensures Good(ZerosView(v, count))
  {
    hide Inv, QueueOk, Placed, Covers, GuiltOk, MadeOk;
    var more := seq(count, _ => Zeros(v.sp.bs));
    GrowInv(v.sp, v.world, more);
    if v.open {
      CoversZeros(v.world.subs, v.ids, v.h, v.standing, v.sp.bs, count);
      assert (v.standing + more)[..v.h] == v.standing[..v.h];
      ZerosPlaced(v.sp, v.world.subs, v.ids, v.carriers, v.standing, count);
    }
  }

  /** Zero blocks that no marker stands behind are not hashed. */
  lemma ZerosShort(v: View, count: nat)
    requires Good(v) && count > 0
    ensures IsShort(ZerosView(v, count))
  {
    hide Inv, QueueOk, Placed, Covers;
    forall id | id in v.ids && id in v.world.subs
      ensures Reach(v.world.subs[id]) <= |v.sp.blocks|
    {
      ReachBound(v.sp, v.world, id);
    }
  }

  lemma ReachBound(sp: Spec, w: World, id: nat)
    requires Inv(sp, w) && id in w.subs
    ensures Reach(w.subs[id]) <= |sp.blocks|
  {
    hide PoolOk, JobsOk, PhaseOk, LinkOk, RefsOk, FireOk, TicketOk, FaultOk, NotifyOk, NoticeOk, ErrorsOk, BlameOk;
    SubAt(sp, w, id);
  }

  lemma ZerosPlaced(sp: Spec, subs: map<nat, Submission>, ids: seq<nat>, carriers: seq<int>, standing: seq<seq<byte>>,
                    count: nat)
    requires Placed(sp, subs, ids, carriers, standing)
    ensures var zeros := seq(count, _ => Zeros(sp.bs));
            Placed(sp.(blocks := sp.blocks + zeros), subs, ids, carriers + seq(count, _ => -1), standing + zeros)
  {
    var zeros := seq(count, _ => Zeros(sp.bs));
    var sp', carriers', standing' := sp.(blocks := sp.blocks + zeros), carriers + seq(count, _ => -1), standing + zeros;
    forall i | 0 <= i < |carriers'|
      ensures PlaceOk(sp', subs, ids, carriers'[i], i, standing'[i])
    {
      if i < |carriers| {
        assert PlaceOk(sp, subs, ids, carriers[i], i, standing[i]);
      }
    }
  }

  lemma PushQueue(subs: map<nat, Submission>, ids: seq<nat>, id: nat, s: Submission)
    requires QueueOk(subs, ids, id)
    ensures id !in subs && QueueOk(subs[id := s], ids + [id], id + 1)
  {
  }

  function Members(ids: seq<nat>): set<nat> {
    set x | x in ids
  }

  lemma {:induction false} MembersSize(ids: seq<nat>)
    ensures |Members(ids)| <= |ids|
  {
    if ids != [] {
      var init, last := ids[..|ids| - 1], ids[|ids| - 1];
      MembersSize(init);
      assert ids == init + [last];
      assert Members(ids) == Members(init) + {last};
    }
  }

  lemma GoodHasRoom(v: View)
    requires Good(v) && |v.ids| < v.world.pool.size
    ensures SubmitError(v.world.pool) == 0
  {
    MembersSize(v.ids);
    PoolHasRoom(v.sp, v.world, Members(v.ids));
  }

  ghost function DataView(v: View, s: Submission, block: seq<byte>, woken: set<nat>): View
    requires s.link.Link? ==> s.link.ticket in v.world.comps
    requires SubmitError(v.world.pool) == 0 && SignalChoice(Queued(v.world.pool, v.nextId), woken)
  {
    v.(sp := v.sp.(blocks := v.sp.blocks + [block]), world := SubmitData(v.world, v.nextId, s, woken),
       ids := v.ids + [v.nextId], nextId := v.nextId + 1, sent := |v.sp.blocks|,
       carriers := v.carriers + [v.nextId], standing := v.standing + [block], makers := v.makers + [s.link])
  }

  lemma HeldUpdate(sp: Spec, w: World, t: nat)
    requires Inv(sp, w) && w.caller == Holding(t)
    ensures t in w.comps && t < |sp.issued| && w.comps[t].buf == sp.issued[t].buf
  {
  }

  lemma SubmitKept(w: World, id: nat, s: Submission, woken: set<nat>)
    requires s.link.Link? ==> s.link.ticket in w.comps
    requires SubmitError(w.pool) == 0 && SignalChoice(Queued(w.pool, id), woken)
    ensures Kept(w, SubmitData(w, id, s, woken)) && SubmitData(w, id, s, woken).pool.size == w.pool.size
  {
  }

  /** Handing a block to the pool keeps the engine in order. */
  lemma DataGood(v: View, s: Submission, block: seq<byte>, woken: set<nat>)
    requires Good(v) && s == NewData(|v.sp.blocks|, s.data, s.link) && !s.data.NoData?
    requires Content(v.world.mem, s) == block
    requires s.link.Link? ==> v.world.caller == Holding(s.link.ticket)
    requires s.data.User? ==>
               s.link.Link? && s.link.ticket < |v.sp.issued| && v.sp.issued[s.link.ticket].buf == s.data.buf
    requires SubmitError(v.world.pool) == 0 && SignalChoice(Queued(v.world.pool, v.nextId), woken)
    ensures s.link.Link? ==> s.link.ticket in v.world.comps
    ensures Good(DataView(v, s, block, woken))
    ensures block != Zeros(v.sp.bs) ==> IsTight(DataView(v, s, block, woken))
  {
    hide Inv, QueueOk, Ordered, Placed, Tight, SignalChoice, SubmitError, Content, GuiltOk, MadeOk;
    PushQueue(v.world.subs, v.ids, v.nextId, s);
    JoinGuilt(v.world.subs, v.ids, v.error, v.makers, s, s.link);
    if s.link.Link? {
      HeldUpdate(v.sp, v.world, s.link.ticket);
    }
    SubmitDataInv(v.sp, v.world, v.nextId, s, block, woken);
    if v.open {
      DataOrdered(v.sp, v.world.subs, v.ids, v.h, v.outer, v.standing, v.nextId, s, block);
      DataPlaced(v.sp, v.world.subs, v.ids, v.carriers, v.standing, v.nextId, s, block);
    }
  }

  lemma DataOrdered(sp: Spec, subs: map<nat, Submission>, ids: seq<nat>, h: nat, outer: seq<byte>,
                    standing: seq<seq<byte>>, id: nat, s: Submission, block: seq<byte>)
    requires Ordered(sp, subs, ids, h, outer, standing) && id !in subs && s.index == |sp.blocks| && !s.data.NoData?
    ensures Ordered(sp.(blocks := sp.blocks + [block]), subs[id := s], ids + [id], h, outer, standing + [block])
    ensures block != Zeros(sp.bs) ==> Tight(subs[id := s], ids + [id], h, standing + [block], sp.bs)
  {
    hide Covers;
    CoversAppend(subs, ids, h, standing, sp.bs, id, s, [block]);
    assert (standing + [block])[..h] == standing[..h];
  }

  lemma DataPlaced(sp: Spec, subs: map<nat, Submission>, ids: seq<nat>, carriers: seq<int>, standing: seq<seq<byte>>,
                   id: nat, s: Submission, block: seq<byte>)
    requires Placed(sp, subs, ids, carriers, standing) && s.index == |sp.blocks| && !s.data.NoData? && id !in subs
    requires Carried(carriers, id)
    ensures Placed(sp.(blocks := sp.blocks + [block]), subs[id := s], ids + [id], carriers + [id], standing + [block])
  {
    var sp', subs' := sp.(blocks := sp.blocks + [block]), subs[id := s];
    forall i | 0 <= i < |carriers| + 1
      ensures PlaceOk(sp', subs', ids + [id], (carriers + [id])[i], i, (standing + [block])[i])
    {
      if i < |carriers| {
        assert PlaceOk(sp, subs, ids, carriers[i], i, standing[i]);
      }
    }
  }

  function InitWorld(size: nat, threads: nat): World {
    World(Pool([], size, seq(threads, _ => Starting), 0, false, 0), map[], map[], [], false, false, Quiet, map[], [])
  }

  lemma InitParts(size: nat, threads: nat)
    ensures var w := InitWorld(size, threads);
            && w.pool.size == size && w.caller.Quiet? && !w.draining && w.mem == map[] && w.faults == []
  {
  }

  lemma InitWorldInv(sp: Spec, size: nat, threads: nat)
    requires sp.bs >= 16 && threads > 0 && sp.blocks == [] && sp.issued == [] && sp.live == sp.broken == {}
    ensures Inv(sp, InitWorld(size, threads))
  {
    hide PoolOk, JobsOk, PhaseOk;
    InitPool(size, threads);
  }

  lemma InitPool(size: nat, threads: nat)
    requires threads > 0
    ensures var p := InitWorld(size, threads).pool; PoolOk(p) && JobsOk(p, map[]) && PhaseOk(p, map[])
  {
    var p := InitWorld(size, threads).pool;
    CountMember(p.workers, KWaiting);
    CountMember(p.workers, KSignalled);
    forall id: nat
      ensures HeldCount(p, id) == 0
    {
      BusyMember(p.workers, id);
    }
  }

  ghost function InitView(sp: Spec, size: nat, threads: nat): View {
    View(sp, InitWorld(size, threads), [], 0, 0, true, 0, 0, [], [], [], [])
  }

  lemma InitGood(sp: Spec, size: nat, threads: nat)
    requires sp.bs >= 16 && threads > 0 && sp.blocks == [] && sp.issued == [] && sp.live == sp.broken == {}
    ensures Good(InitView(sp, size, threads)) && HistoryOk([], {}, [], [])
  {
    hide Inv;
    InitWorldInv(sp, size, threads);
  }

  lemma BeginGood(v: View, userData: nat, buf: nat)
    requires Good(v) && v.world.caller.Quiet? && FirstFault(v.world.faults, |v.sp.issued|) == 0
    requires |v.sp.live| < v.sp.depth
    ensures |v.sp.issued| !in v.sp.live
    ensures var w' := BeginUpdate(v.world, |v.sp.issued|, userData, buf);
            && Good(v.(sp := Started(v.sp, userData, buf), world := w'))
            && w'.caller == Holding(|v.sp.issued|) && w'.mem == v.world.mem && w'.draining == v.world.draining
            && w'.faults == v.world.faults && w'.pool == v.world.pool && w'.subs == v.world.subs
  {
    hide Inv, QueueOk, Ordered, Placed;
    BeginUpdateInv(v.sp, v.world, userData, buf);
    SpecGood(v, Started(v.sp, userData, buf), BeginUpdate(v.world, |v.sp.issued|, userData, buf));
  }

  /** What is said of queue and blocks does not depend on the updates. */
  lemma SpecGood(v: View, sp: Spec, w: World)
    requires Good(v) && Inv(sp, w) && w.subs == v.world.subs
    requires sp == v.sp.(issued := sp.issued, live := sp.live, broken := sp.broken)
    ensures Good(v.(sp := sp, world := w))
  {
    hide Inv, QueueOk;
    if v.open {
      assert forall i :: 0 <= i < |v.carriers| ==>
        PlaceOk(sp, w.subs, v.ids, v.carriers[i], i, v.standing[i])
        == PlaceOk(v.sp, w.subs, v.ids, v.carriers[i], i, v.standing[i]);
    }
  }

  lemma BeginHistory(issued: seq<Issue>, live: set<nat>, delivered: seq<Record>, faults: seq<Fault>, x: Issue)
    requires HistoryOk(issued, live, delivered, faults)
    ensures FirstFault(faults, |issued|) == 0 && |issued| !in live
    ensures HistoryOk(issued + [x], live + {|issued|}, delivered, faults)
  {
  }

  /** The call of update `t` failed, with the error of a submission that was taken off the queue. */
  lemma FailureGood(v: View, t: nat)
    requires Good(v) && v.world.caller == Holding(t) && v.error != 0
    ensures t in v.world.comps
    ensures var w' := SetFault(v.world, t, v.error);
            && Good(v.(sp := v.sp.(broken := v.sp.broken + {t}), world := w'))
            && Kept(v.world, w') && FirstFault(w'.faults, t) != 0
  {
    hide Inv, QueueOk, Ordered, Placed, MadeOk, SetFault, Rely, Kept, FirstFault;
    HeldUpdate(v.sp, v.world, t);
    var id :| Guilty(v.world.subs, v.ids, v.error, id);
    BreakInv(v.sp, v.world, t, id);
    RelyKept(v.world, SetFault(v.world, t, v.error));
    SetFaultParts(v.world, t, v.error);
    SpecGood(v, v.sp.(broken := v.sp.broken + {t}), SetFault(v.world, t, v.error));
    FaultAppend(v.world.faults, Fault(t, v.error), t);
  }

  /** The steps of dropping the caller's own reference. */
  lemma ReleaseGood(v: View, w': World)
    requires Good(v) && Inv(v.sp, w') && w'.subs == v.world.subs
    ensures Good(v.(world := w'))
  {
  }

  /** Whom a signal wakes is up to the scheduler. */
  method ChooseWoken(q: Pool) returns (woken: set<nat>)
    ensures SignalChoice(q, woken)
  {
    woken := *;
    if !SignalChoice(q, woken) {
      woken := if NeedWakeup(q) then WaitingSet(q.workers) else {};
    }
  }

  /** Every update that was started is live or was delivered, once, with its user data and its first error. */
  ghost predicate HistoryOk(issued: seq<Issue>, live: set<nat>, delivered: seq<Record>, faults: seq<Fault>) {
    && live !! Tickets(delivered)
    && (forall t: nat :: t < |issued| <==> t in live || t in Tickets(delivered))
    && (forall j, k :: 0 <= j < k < |delivered| ==> delivered[j].ticket != delivered[k].ticket)
    && (forall k :: 0 <= k < |delivered| ==>
          && delivered[k].ticket < |issued|
          && delivered[k].userData == issued[delivered[k].ticket].userData
          && delivered[k].error == FirstFault(faults, delivered[k].ticket))
    && (forall t: nat :: t >= |issued| ==> FirstFault(faults, t) == 0)
  }

  lemma HistoryRecord(issued: seq<Issue>, live: set<nat>, delivered: seq<Record>, faults: seq<Fault>, r: Record)
    requires HistoryOk(issued, live, delivered, faults) && r in delivered
    ensures r.ticket < |issued| && r.userData == issued[r.ticket].userData && r.error == FirstFault(faults, r.ticket)
  {
  }

  /** An update that was delivered is finished. */
  lemma DeliveredOnce(sp: Spec, w: World, delivered: seq<Record>, r: Record)
    requires Inv(sp, w) && HistoryOk(sp.issued, sp.live, delivered, w.faults) && r in delivered
    ensures r.ticket !in w.comps
  {
    hide PoolOk, JobsOk, PhaseOk, DataOk, LinkOk, RefsOk, FireOk, FaultOk, NotifyOk, NoticeOk, ErrorsOk, BlameOk;
    assert r.ticket in Tickets(delivered);
  }

  /** Records taken from the queue are records of live updates. */
  lemma TakenOk(sp: Spec, w: World, count: nat)
    requires Inv(sp, w)
    ensures forall r :: r in w.cq[..TakeCount(w, count)] ==>
              && r.ticket in sp.live && r.ticket < |sp.issued|
              && r.userData == sp.issued[r.ticket].userData && r.error == FirstFault(w.faults, r.ticket)
  {
    hide PoolOk, JobsOk, PhaseOk, DataOk, LinkOk, RefsOk, FireOk, NotifyOk, NoticeOk, ErrorsOk, FirstFault;
    forall r | r in w.cq[..TakeCount(w, count)]
      ensures r in w.cq && r.ticket in Tickets(w.cq)
    {
    }
  }

  lemma TakeHistory(sp: Spec, w: World, count: nat, delivered: seq<Record>)
    requires Inv(sp, w) && HistoryOk(sp.issued, sp.live, delivered, w.faults)
    ensures HistoryOk(sp.issued, Delivered(sp, w, count).live, delivered + w.cq[..TakeCount(w, count)], w.faults)
  {
    var taken := w.cq[..TakeCount(w, count)];
    TakenOk(sp, w, count);
    TicketsConcat(delivered, taken);
    forall j, k | 0 <= j < |delivered| && 0 <= k < |taken|
      ensures delivered[j].ticket != taken[k].ticket
    {
      assert taken[k] in taken && delivered[j].ticket in Tickets(delivered);
    }
  }

  lemma NoTickets()
    ensures Tickets([]) == {}
  {
  }

  lemma TicketsConcat(a: seq<Record>, b: seq<Record>)
    ensures Tickets(a + b) == Tickets(a) + Tickets(b)
  {
    forall t | t in Tickets(a) + Tickets(b)
      ensures t in Tickets(a + b)
    {
      if t in Tickets(a) {
        var k :| 0 <= k < |a| && a[k].ticket == t;
        assert (a + b)[k].ticket == t;
      } else {
        var k :| 0 <= k < |b| && b[k].ticket == t;
        assert (a + b)[|a| + k].ticket == t;
      }
    }
  }

  lemma TakeGood(v: View, count: nat)
    requires Good(v) && v.world.caller.Quiet?
    ensures Good(v.(sp := Delivered(v.sp, v.world, count), world := TakeRecords(v.world, count)))
  {
    hide Inv, QueueOk, Ordered, Placed;
    TakeRecordsInv(v.sp, v.world, count);
    SpecGood(v, Delivered(v.sp, v.world, count), TakeRecords(v.world, count));
  }

  /** The 64-bit length counter follows the length of the message. */
  lemma LengthGrows(m: seq<byte>, data: seq<byte>)
    ensures (|m| % TWO64 + |data|) % TWO64 == |m + data| % TWO64
  {
  }

  lemma SealGood(v: View, outer: seq<byte>)
    requires Good(v)
    ensures Good(v.(open := false, outer := outer))
  {
  }

  lemma DigestIs(D: seq<byte> -> seq<byte>, bs: nat, m: seq<byte>, blocks: seq<seq<byte>>, length: nat)
    requires bs > 0 && blocks == Blocks(m, bs) && length == |m| % TWO64
    ensures |m| < TWO64 ==> D(DigestCat(D, blocks) + LE64(length)) == BlockDigest(D, bs, m)
  {
  }

  /** What the outer digest holds: the digest of every block as it stands, up to a tail of zero blocks that no
      submission stands behind. */
  ghost predicate Hashed(v: View) {
    && |v.standing| == |v.carriers| == |v.sp.blocks|
    && ZeroRange(v.standing, v.sp.bs, v.h, |v.standing|) && v.outer == DigestCat(v.sp.D, v.standing[..v.h])
    && forall i :: 0 <= i < |v.sp.blocks| ==> v.standing[i] == Stands(v.sp, v.carriers[i], i)
  }

  /** The queue is empty: every block is hashed as it stands, and without an error every block stands for itself
      and every submission was freed. */
  lemma AllHashed(v: View)
    requires Good(v) && v.open && v.ids == []
    ensures Hashed(v) && (IsTight(v) ==> v.h == |v.standing| && v.standing[..v.h] == v.standing)
    ensures IsShort(v) ==> v.h < |v.standing|
    ensures v.error == 0 ==> v.standing == v.sp.blocks && v.world.subs == map[]
  {
    hide Inv, QueueOk;
    assert v.standing[..|v.standing|] == v.standing;
    assert v.error == 0 ==> forall id :: id in v.world.subs ==> id in v.ids;
    forall i | 0 <= i < |v.sp.blocks|
      ensures v.standing[i] == Stands(v.sp, v.carriers[i], i)
    {
      assert PlaceOk(v.sp, v.world.subs, v.ids, v.carriers[i], i, v.standing[i]);
    }
  }
}
