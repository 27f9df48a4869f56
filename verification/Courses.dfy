/** Which submissions a stream of blocks gives rise to, and whether one of them is doomed.

    All of it is decided by the bytes and the calls that hand them over: no worker has a say in it. */
module Courses {
  import opened Streams

  /** With which error the digest of a submission fails, the block size, and how many zero blocks need a marker. */
  datatype Rules = Rules(fails: nat -> nat, bs: nat, batch: nat)

  /** How many blocks were consumed, the block index at the last submission, the number of the next submission,
      and whether none of those in the queue is doomed. */
  datatype Course = Course(index: nat, sent: nat, next: nat, clear: bool)

  const START := Course(0, 0, 0, true)

  /** Zero blocks need one marker, if together with those before them they are a batch. */
  function SkipBlocks(c: Course, r: Rules, count: nat): Course {
    var index := c.index + count;
    if index - c.sent >= r.batch then Course(index, index, c.next + 1, c.clear) else c.(index := index)
  }

  /** A full zero block needs no digest, and no submission either if it would have to be copied. */
  function AddBlock(c: Course, r: Rules, block: seq<byte>, copied: bool): Course {
    if copied && block == Zeros(r.bs) then
      SkipBlocks(c, r, 1)
    else
      Course(c.index + 1, c.index, c.next + 1, c.clear && (block == Zeros(r.bs) || r.fails(c.next) == 0))
  }

  /** The full blocks of `data`. */
  function AddFull(c: Course, r: Rules, data: seq<byte>, copied: bool): Course
    decreases |data|
  {
    if r.bs == 0 || |data| < r.bs then c
    else AddFull(AddBlock(c, r, data[..r.bs], copied), r, data[r.bs..], copied)
  }

  /** A pending block that more bytes may complete; pending bytes are always copied. */
  function Complete(c: Course, r: Rules, pend: seq<byte>, data: seq<byte>): Course {
    if |pend| > r.bs || |pend| + |data| < r.bs then c else AddBlock(c, r, pend + data[..r.bs - |pend|], true)
  }

  /** How many of `len` bytes a pending block takes. */
  function Taken(r: Rules, pend: seq<byte>, len: nat): (n: nat)
    ensures n <= len
  {
    if |pend| == 0 || |pend| > r.bs then 0 else if |pend| + len < r.bs then len else r.bs - |pend|
  }

  /** An update of `data` with `pend` pending. */
  function AddData(c: Course, r: Rules, pend: seq<byte>, data: seq<byte>, copied: bool): Course {
    AddFull(if pend == [] then c else Complete(c, r, pend, data), r, data[Taken(r, pend, |data|)..], copied)
  }

  /** The full blocks of `len` zeros. */
  function SkipFull(c: Course, r: Rules, len: nat): Course {
    if r.bs == 0 || len < r.bs then c else SkipBlocks(c, r, len / r.bs)
  }

  /** A call for `len` zeros with `pend` pending. */
  function AddZeros(c: Course, r: Rules, pend: seq<byte>, len: nat): Course {
    SkipFull(if pend == [] then c else Complete(c, r, pend, Zeros(len)), r, len - Taken(r, pend, len))
  }

  /** The course a call took: the planned one if it succeeded, and success if nothing on the way was doomed. */
  predicate Follows(plan: Course, now: Course, ok: bool) {
    (ok ==> now == plan) && (plan.clear ==> ok)
  }

  /** What is doomed stays so. */
  lemma {:induction false} FullClear(c: Course, r: Rules, data: seq<byte>, copied: bool)
    ensures AddFull(c, r, data, copied).clear ==> c.clear
    decreases |data|
  {
    if r.bs > 0 && |data| >= r.bs {
      FullClear(AddBlock(c, r, data[..r.bs], copied), r, data[r.bs..], copied);
    }
  }

  lemma FullNext(c: Course, r: Rules, data: seq<byte>, pos: nat, copied: bool)
    requires r.bs > 0 && pos + r.bs <= |data|
    ensures AddFull(c, r, data[pos..], copied)
         == AddFull(AddBlock(c, r, data[pos..pos + r.bs], copied), r, data[pos + r.bs..], copied)
  {
    assert data[pos..][..r.bs] == data[pos..pos + r.bs] && data[pos..][r.bs..] == data[pos + r.bs..];
  }

  lemma NoFull(c: Course, r: Rules, data: seq<byte>, copied: bool)
    ensures |data| < r.bs ==> AddFull(c, r, data, copied) == c
  {
  }

  lemma SkipClear(c: Course, r: Rules, len: nat)
    ensures SkipFull(c, r, len).clear == c.clear
  {
  }

  lemma DataClear(c: Course, r: Rules, pend: seq<byte>, data: seq<byte>, copied: bool)
    ensures AddData(c, r, pend, data, copied).clear ==> c.clear
  {
    hide AddFull;
    FullClear(if pend == [] then c else Complete(c, r, pend, data), r, data[Taken(r, pend, |data|)..], copied);
  }

  /** Whether finishing the hash succeeds, with `pend` pending. */
  predicate Passes(c: Course, r: Rules, pend: seq<byte>) {
    c.clear && (pend == [] || r.fails(c.next) == 0)
  }
}
