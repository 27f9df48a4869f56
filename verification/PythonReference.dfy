/** The sequential reference implementation of the test suite: one thread, no zero detection. */
module PythonReference {
  import opened Streams

  const READ_SIZE: nat := 1024 * 1024

  class Blkhash {
    const D: seq<byte> -> seq<byte>
    const blockSize: nat
    var outerHash: seq<byte>
    var pending: seq<byte>
    var length: nat
    var finalized: bool
    ghost var blocks: seq<seq<byte>>
    ghost var message: seq<byte>

    ghost predicate Valid()
      reads this
    {
      && blockSize > 0
      && length == |Concat(blocks)|
      && message == Concat(blocks) + pending
      && if finalized
         then pending == [] && |message| < TWO64
              && outerHash == DigestCat(D, Blocks(message, blockSize)) + LE64(|message|)
         else AllSized(blocks, blockSize) && |pending| < blockSize
              && outerHash == DigestCat(D, blocks)
    }

    constructor (D: seq<byte> -> seq<byte>, blockSize: nat)
      requires blockSize > 0
      ensures Valid() && message == [] && !finalized && this.D == D && this.blockSize == blockSize
    {
      this.D, this.blockSize := D, blockSize;
      outerHash, pending, length, finalized := [], [], 0, false;
      blocks, message := [], [];
    }

    /** `m` is what the blocks and the pending bytes hold between two steps of an update. */
    ghost predicate Holds(m: seq<byte>)
      reads this
    {
      && !finalized && blockSize > 0
      && AllSized(blocks, blockSize) && |pending| < blockSize
      && length == |Concat(blocks)| && outerHash == DigestCat(D, blocks)
      && m == Concat(blocks) + pending
    }

    /** Appends `data` to the message, whatever its alignment. */
    method Update(data: seq<byte>)
      requires Valid() && !finalized
      modifies this
      ensures Valid() && !finalized && message == old(message) + data
    {
      var pos := FillPending(data);
      pos := ConsumeBlocks(data, pos);
      TakeMore(message, data, pos, |data| - pos);
      assert data[..|data|] == data && (pos < |data| ==> Concat(blocks) == message + data[..pos]);
      if pos < |data| {
        pending := data[pos..|data|];
      }
      message := message + data;
    }

    method FillPending(data: seq<byte>) returns (pos: nat)
      requires Holds(message)
      modifies this`outerHash, this`length, this`blocks, this`pending
      ensures pos <= |data| && (pos < |data| ==> pending == [])
      ensures Holds(message + data[..pos])
    {
      pos := 0;
      if pending != [] {
        pos := blockSize - |pending|;
        if pos > |data| { pos := |data|; }
        pending := pending + data[..pos];
        assert Concat(blocks) + pending == message + data[..pos];
        if |pending| == blockSize {
          AddBlock(pending);
          pending := [];
        }
      }
    }

    method ConsumeBlocks(data: seq<byte>, start: nat) returns (pos: nat)
      requires start <= |data| && (start < |data| ==> pending == [])
      requires Holds(message + data[..start])
      modifies this`outerHash, this`length, this`blocks
      ensures start <= pos <= |data| && |data| - pos < blockSize
      ensures pos < |data| ==> pending == []
      ensures Holds(message + data[..pos])
    {
      pos := start;
      while |data| - pos >= blockSize
        invariant start <= pos <= |data| && (start < |data| ==> pending == [])
        invariant Holds(message + data[..pos])
      {
        TakeMore(message, data, pos, blockSize);
        AddBlock(data[pos..pos + blockSize]);
        pos := pos + blockSize;
      }
    }

    method AddBlock(data: seq<byte>)
      modifies this`outerHash, this`length, this`blocks
      ensures blocks == old(blocks) + [data] && Concat(blocks) == old(Concat(blocks)) + data
      ensures length == old(length) + |data|
      ensures old(outerHash == DigestCat(D, blocks)) ==> outerHash == DigestCat(D, blocks)
    {
      ConcatSnoc(blocks, data);
      DigestCatSnoc(D, blocks, data);
      outerHash := outerHash + D(data);
      length := length + |data|;
      blocks := blocks + [data];
    }

    /** The digest of everything appended; asking again gives the same answer. */
    method HexDigest() returns (md: seq<byte>)
      requires Valid() && |message| < TWO64
      modifies this
      ensures Valid() && finalized && message == old(message)
      ensures md == BlockDigest(D, blockSize, message)
    {
      if !finalized {
        finalized := true;
        BlocksOfConcat(blocks, pending, blockSize);
        if pending != [] {
          AddBlock(pending);
          pending := [];
        }
        assert blocks == Blocks(message, blockSize);
        outerHash := outerHash + LE64(length);
      }
      md := D(outerHash);
    }
  }

  /** The digest of a whole file, read a piece at a time. */
  method Checksum(D: seq<byte> -> seq<byte>, blockSize: nat, data: seq<byte>) returns (md: seq<byte>)
    requires blockSize > 0 && |data| < TWO64
    ensures md == BlockDigest(D, blockSize, data)
  {
    hide BlockDigest, Blkhash.Valid;
    var h := new Blkhash(D, blockSize);
    var pos := 0;
    while pos < |data|
      invariant pos <= |data| && h.Valid() && !h.finalized && h.message == data[..pos]
    {
      var end := if |data| - pos < READ_SIZE then |data| else pos + READ_SIZE;
      assert data[..pos] + data[pos..end] == data[..end];
      h.Update(data[pos..end]);
      pos := end;
    }
    assert data[..pos] == data;
    md := h.HexDigest();
  }
}
