/** The order in which block digests reach the outer digest.

    Zero blocks have no submission of their own: they are the gaps between the indices of the queued
    submissions, filled in when the next submission is hashed. */
module Ordering {
  import opened Streams
  import opened Shared

  ghost predicate ZeroRange(blocks: seq<seq<byte>>, bs: nat, lo: nat, hi: nat) {
    lo <= hi <= |blocks| && forall i :: lo <= i < hi ==> blocks[i] == Zeros(bs)
  }

  /** The queue accounts for every block from h on: a data submission for its own index, and only zero
      blocks in the gaps. */
  ghost predicate Covers(subs: map<nat, Submission>, ids: seq<nat>, h: nat, blocks: seq<seq<byte>>, bs: nat)
    decreases ids
  {
    if ids == [] then ZeroRange(blocks, bs, h, |blocks|)
    else
      && ids[0] in subs
      && ZeroRange(blocks, bs, h, subs[ids[0]].index)
      && if subs[ids[0]].data.NoData? then Covers(subs, ids[1..], subs[ids[0]].index, blocks, bs)
         else subs[ids[0]].index < |blocks| && Covers(subs, ids[1..], subs[ids[0]].index + 1, blocks, bs)
  }

  /** Queue order is block order: indices never go down, and go up after a data submission. */
  lemma {:induction false} CoversSorted(subs: map<nat, Submission>, ids: seq<nat>, h: nat,
                                        blocks: seq<seq<byte>>, bs: nat, k: nat)
    requires Covers(subs, ids, h, blocks, bs) && k < |ids|
    ensures ids[k] in subs && h <= subs[ids[k]].index
    ensures forall j :: 0 <= j < k ==>
              && ids[j] in subs && subs[ids[j]].index <= subs[ids[k]].index
              && (!subs[ids[j]].data.NoData? ==> subs[ids[j]].index < subs[ids[k]].index)
    decreases ids
  {
    if k > 0 {
      var next := if subs[ids[0]].data.NoData? then subs[ids[0]].index else subs[ids[0]].index + 1;
      CoversSorted(subs, ids[1..], next, blocks, bs, k - 1);
      forall j | 0 < j < k
        ensures ids[j] in subs && subs[ids[j]].index <= subs[ids[k]].index
        ensures !subs[ids[j]].data.NoData? ==> subs[ids[j]].index < subs[ids[k]].index
      {
        assert ids[1..][j - 1] == ids[j];
      }
    }
  }

  /** Taking the head off the queue. */
  lemma CoversHead(subs: map<nat, Submission>, id: nat, rest: seq<nat>, h: nat, blocks: seq<seq<byte>>, bs: nat)
    requires Covers(subs, [id] + rest, h, blocks, bs)
    ensures id in subs && ZeroRange(blocks, bs, h, subs[id].index)
    ensures subs[id].data.NoData? ==> Covers(subs, rest, subs[id].index, blocks, bs)
    ensures !subs[id].data.NoData? ==>
              subs[id].index < |blocks| && Covers(subs, rest, subs[id].index + 1, blocks, bs)
  {
  }

  /** Workers change neither index nor kind of a submission, so they cannot disturb the order. */
  lemma {:induction false} CoversSame(subs: map<nat, Submission>, subs': map<nat, Submission>, ids: seq<nat>,
                                      h: nat, blocks: seq<seq<byte>>, bs: nat)
    requires Covers(subs, ids, h, blocks, bs)
    requires forall id :: id in ids && id in subs ==>
               id in subs' && subs'[id].index == subs[id].index && subs'[id].data == subs[id].data
    ensures Covers(subs', ids, h, blocks, bs)
    decreases ids
  {
    if ids != [] {
      var s := subs[ids[0]];
      CoversSame(subs, subs', ids[1..], if s.data.NoData? then s.index else s.index + 1, blocks, bs);
    }
  }

  /** Blocks found to be zero may be left as a gap for the next submission. */
  lemma CoversLower(subs: map<nat, Submission>, ids: seq<nat>, h: nat, h': nat, blocks: seq<seq<byte>>, bs: nat)
    requires Covers(subs, ids, h', blocks, bs) && ZeroRange(blocks, bs, h, h')
    ensures Covers(subs, ids, h, blocks, bs)
  {
  }

  /** What the queue accounts for does not depend on the blocks before it. */
  lemma {:induction false} CoversFrom(subs: map<nat, Submission>, ids: seq<nat>, h: nat,
                                      blocks: seq<seq<byte>>, blocks': seq<seq<byte>>, bs: nat)
    requires Covers(subs, ids, h, blocks, bs) && |blocks'| == |blocks|
    requires forall i :: h <= i < |blocks| ==> blocks'[i] == blocks[i]
    ensures Covers(subs, ids, h, blocks', bs)
    decreases ids
  {
    if ids != [] {
      var s := subs[ids[0]];
      CoversFrom(subs, ids[1..], if s.data.NoData? then s.index else s.index + 1, blocks, blocks', bs);
    }
  }

  /** A head that failed is skipped: from now on its block reads as zeros. */
  lemma CoversPatch(subs: map<nat, Submission>, id: nat, rest: seq<nat>, h: nat, blocks: seq<seq<byte>>, bs: nat)
    requires Covers(subs, [id] + rest, h, blocks, bs) && id in subs && !subs[id].data.NoData?
    ensures h <= subs[id].index < |blocks|
    ensures Covers(subs, rest, h, blocks[subs[id].index := Zeros(bs)], bs)
  {
    var i := subs[id].index;
    CoversHead(subs, id, rest, h, blocks, bs);
    CoversFrom(subs, rest, i + 1, blocks, blocks[i := Zeros(bs)], bs);
    CoversLower(subs, rest, h, i + 1, blocks[i := Zeros(bs)], bs);
  }

  lemma {:induction false} CoversZeros(subs: map<nat, Submission>, ids: seq<nat>, h: nat,
                                       blocks: seq<seq<byte>>, bs: nat, count: nat)
    requires Covers(subs, ids, h, blocks, bs)
    ensures Covers(subs, ids, h, blocks + seq(count, _ => Zeros(bs)), bs)
    decreases ids
  {
    if ids != [] {
      var s := subs[ids[0]];
      CoversZeros(subs, ids[1..], if s.data.NoData? then s.index else s.index + 1, blocks, bs, count);
    }
  }

  /** The submission that stands for the block about to be consumed, or a marker behind the last one. */
  lemma {:induction false} CoversAppend(subs: map<nat, Submission>, ids: seq<nat>, h: nat,
                                        blocks: seq<seq<byte>>, bs: nat, id: nat, s: Submission, more: seq<seq<byte>>)
    requires Covers(subs, ids, h, blocks, bs) && id !in subs && s.index == |blocks|
    requires |more| == if s.data.NoData? then 0 else 1
    ensures Covers(subs[id := s], ids + [id], h, blocks + more, bs)
    decreases ids
  {
    var subs', ids', blocks' := subs[id := s], ids + [id], blocks + more;
    if ids == [] {
      assert ids' == [id] && ids'[1..] == [];
      assert ZeroRange(blocks', bs, h, s.index);
      assert Covers(subs', [], |blocks'|, blocks', bs);
    } else {
      var first := subs[ids[0]];
      var next := if first.data.NoData? then first.index else first.index + 1;
      CoversAppend(subs, ids[1..], next, blocks, bs, id, s, more);
      assert ids'[1..] == ids[1..] + [id];
    }
  }

  /** The last queued submission reaches to the very end, so no zero gap is left behind it. */
  ghost predicate Tight(subs: map<nat, Submission>, ids: seq<nat>, h: nat, blocks: seq<seq<byte>>, bs: nat) {
    if ids == [] then h == |blocks|
    else
      var last := ids[|ids| - 1];
      && last in subs
      && if subs[last].data.NoData? then subs[last].index == |blocks|
         else subs[last].index + 1 == |blocks| && blocks[subs[last].index] != Zeros(bs)
  }

  /** How many blocks a submission accounts for, itself included. */
  function Reach(s: Submission): nat {
    if s.data.NoData? then s.index else s.index + 1
  }

  /** No queued submission reaches to the end: the last block will not be hashed. */
  ghost predicate Short(subs: map<nat, Submission>, ids: seq<nat>, h: nat, size: nat) {
    h < size && forall id :: id in ids && id in subs ==> Reach(subs[id]) < size
  }

  lemma ShortTail(subs: map<nat, Submission>, id: nat, rest: seq<nat>, h: nat, h': nat, size: nat)
    requires Short(subs, [id] + rest, h, size) && id in subs && h' <= Reach(subs[id])
    ensures Short(subs, rest, h', size)
  {
    assert id in [id] + rest && forall x :: x in rest ==> x in [id] + rest;
  }

  /** The queue stays tight when its head is hashed: a last block that is not zero is not taken for zeros. */
  lemma TightTail(sp: Spec, mem: map<nat, seq<byte>>, subs: map<nat, Submission>, id: nat, rest: seq<nat>, h: nat,
                  h': nat, blocks: seq<seq<byte>>)
    requires Tight(subs, [id] + rest, h, blocks, sp.bs) && id in subs && |blocks| == |sp.blocks|
    requires SubOk(sp, mem, subs[id]) && subs[id].computed && subs[id].error == 0
    requires !subs[id].data.NoData? ==> blocks[subs[id].index] == sp.blocks[subs[id].index]
    requires h' == if subs[id].zero then subs[id].index else subs[id].index + 1
    ensures Tight(subs, rest, h', blocks, sp.bs)
  {
  }

  lemma DigestCatNext(D: seq<byte> -> seq<byte>, blocks: seq<seq<byte>>, h: nat)
    requires h < |blocks|
    ensures DigestCat(D, blocks[..h + 1]) == DigestCat(D, blocks[..h]) + D(blocks[h])
  {
    assert blocks[..h + 1] == blocks[..h] + [blocks[h]];
    DigestCatSnoc(D, blocks[..h], blocks[h]);
  }
}
