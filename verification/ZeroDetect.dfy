/** Detection of all-zero buffers, and the digest that stands for a zero block. */
module ZeroDetect {
  import opened Streams

  /** Look at the first 16 bytes as two words, then compare the buffer with itself shifted by 16. */
  predicate IsZero(buf: seq<byte>)
    requires |buf| >= 16
  {
    FromLittleEndian(buf[..8]) == 0 && FromLittleEndian(buf[8..16]) == 0
    && buf[..|buf| - 16] == buf[16..]
  }

  /** The overlapping comparison carries the zeros of the first 16 bytes to the end of the buffer. */
  lemma IsZeroExact(buf: seq<byte>)
    requires |buf| >= 16
    ensures IsZero(buf) <==> buf == Zeros(|buf|)
  {
    WordIsZero(buf[..8]);
    WordIsZero(buf[8..16]);
    if IsZero(buf) {
      forall i | 0 <= i < |buf|
        ensures buf[i] == 0
      {
        ZeroByShift(buf, i);
      }
    }
  }

  lemma {:induction false} ZeroByShift(buf: seq<byte>, i: nat)
    requires i < |buf| && 16 <= |buf|
    requires buf[..8] == Zeros(8) && buf[8..16] == Zeros(8)
    requires buf[..|buf| - 16] == buf[16..]
    ensures buf[i] == 0
  {
    if i < 8 {
      assert buf[i] == buf[..8][i];
    } else if i < 16 {
      assert buf[i] == buf[8..16][i - 8];
    } else {
      ZeroByShift(buf, i - 16);
      assert buf[i] == buf[16..][i - 16] == buf[..|buf| - 16][i - 16];
    }
  }

  /** A buffer is treated as a zero block only when it fills a whole block. */
  predicate IsZeroBlock(buf: seq<byte>, blockSize: nat)
    requires blockSize >= 16
  {
    |buf| == blockSize && IsZero(buf)
  }

  /** The precomputed digest of a zero block is the digest of any block so detected. */
  lemma ZeroDigestStandsIn(D: seq<byte> -> seq<byte>, buf: seq<byte>, blockSize: nat)
    requires blockSize >= 16 && IsZeroBlock(buf, blockSize)
    ensures D(buf) == D(Zeros(blockSize))
  {
    IsZeroExact(buf);
  }
}
