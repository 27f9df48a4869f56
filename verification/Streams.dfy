/** Bytes, little-endian words, and the block digest that every implementation must compute.

    The message digest `D` is a parameter: any total function from byte strings to byte
    strings.  A streaming digest is the string of bytes fed to it so far. */
module Streams {

  type byte = i: int | 0 <= i < 256

  const TWO64: nat := 0x1_0000_0000_0000_0000

  function Zeros(n: nat): (z: seq<byte>)
    ensures |z| == n
  {
    seq(n, _ => 0)
  }

  /** The n low bytes of `value`, least significant byte first. */
  function LittleEndian(value: nat, n: nat): (bytes: seq<byte>)
    ensures |bytes| == n
  {
    if n == 0 then [] else [value % 256] + LittleEndian(value / 256, n - 1)
  }

  function FromLittleEndian(bytes: seq<byte>): nat {
    if bytes == [] then 0 else bytes[0] + 256 * FromLittleEndian(bytes[1..])
  }

  function Pow256(n: nat): (p: nat)
    ensures p > 0
  {
    if n == 0 then 1 else 256 * Pow256(n - 1)
  }

  /** The encoding of the length is lossless up to the width of the word. */
  lemma {:induction false} LittleEndianRoundTrip(value: nat, n: nat)
    requires value < Pow256(n)
    ensures FromLittleEndian(LittleEndian(value, n)) == value
  {
    if n > 0 {
      assert value / 256 < Pow256(n - 1);
      LittleEndianRoundTrip(value / 256, n - 1);
      assert LittleEndian(value, n)[1..] == LittleEndian(value / 256, n - 1);
    }
  }

  lemma {:induction false} WordIsZero(bytes: seq<byte>)
    ensures FromLittleEndian(bytes) == 0 <==> bytes == Zeros(|bytes|)
  {
    if bytes != [] {
      WordIsZero(bytes[1..]);
      assert Zeros(|bytes|)[1..] == Zeros(|bytes| - 1);
      assert bytes == [bytes[0]] + bytes[1..];
      if bytes[0] == 0 && bytes[1..] == Zeros(|bytes| - 1) {
        assert bytes == Zeros(|bytes|);
      }
    }
  }

  /** The length as the outer digest sees it: an unsigned 64-bit little-endian word. */
  function LE64(value: nat): (bytes: seq<byte>)
    requires value < TWO64
    ensures |bytes| == 8
  {
    LittleEndian(value, 8)
  }

  /** Two messages of different length never share a length suffix. */
  lemma LE64Injective(a: nat, b: nat)
    requires a < TWO64 && b < TWO64
    requires LE64(a) == LE64(b)
    ensures a == b
  {
    assert Pow256(8) == TWO64 by {
      assert Pow256(2) == 0x1_0000;
      assert Pow256(4) == 0x1_0000_0000;
      assert Pow256(6) == 0x1_0000_0000_0000;
    }
    LittleEndianRoundTrip(a, 8);
    LittleEndianRoundTrip(b, 8);
  }

  function Concat(blocks: seq<seq<byte>>): seq<byte> {
    if blocks == [] then [] else blocks[0] + Concat(blocks[1..])
  }

  lemma {:induction false} ConcatAppend(a: seq<seq<byte>>, b: seq<seq<byte>>)
    ensures Concat(a + b) == Concat(a) + Concat(b)
  {
    if a == [] {
      assert a + b == b;
    } else {
      ConcatAppend(a[1..], b);
      assert (a + b)[1..] == a[1..] + b;
      assert Concat(a + b) == a[0] + (Concat(a[1..]) + Concat(b));
    }
  }

  lemma ConcatSnoc(a: seq<seq<byte>>, b: seq<byte>)
    ensures Concat(a + [b]) == Concat(a) + b
  {
    ConcatAppend(a, [b]);
    assert Concat([b]) == b + Concat([]);
  }

  function Times(a: nat, b: nat): nat {
    a * b
  }

  method DivMod(a: nat, b: nat) returns (q: nat, r: nat)
    requires b > 0
    ensures q == a / b && Times(q, b) + r == a && r < b && (a < b ==> Times(q, b) == 0) && (a >= b ==> q > 0)
  {
    q, r := a / b, a % b;
  }

  lemma {:induction false} ConcatZeros(count: nat, size: nat)
    ensures Concat(seq(count, _ => Zeros(size))) == Zeros(Times(count, size))
  {
    var zs := seq(count, _ => Zeros(size));
    if count > 0 {
      ConcatZeros(count - 1, size);
      assert zs[1..] == seq(count - 1, _ => Zeros(size));
      assert Times(count, size) == size + Times(count - 1, size);
    }
  }

  ghost predicate AllSized(blocks: seq<seq<byte>>, size: nat) {
    forall i :: 0 <= i < |blocks| ==> |blocks[i]| == size
  }

  lemma {:induction false} ConcatLength(blocks: seq<seq<byte>>, size: nat)
    requires AllSized(blocks, size)
    ensures |Concat(blocks)| == size * |blocks|
  {
    if blocks != [] {
      ConcatLength(blocks[1..], size);
      assert size * |blocks| == size + size * (|blocks| - 1);
    }
  }

  /** A message cut into blocks of `size` bytes; only the last one may be shorter. */
  function Blocks(message: seq<byte>, size: nat): (blocks: seq<seq<byte>>)
    requires size > 0
    decreases |message|
  {
    if message == [] then []
    else if |message| <= size then [message]
    else [message[..size]] + Blocks(message[size..], size)
  }

  /** Cutting is the inverse of joining: full blocks followed by a short tail come back as they were. */
  lemma {:induction false} BlocksOfConcat(blocks: seq<seq<byte>>, tail: seq<byte>, size: nat)
    requires size > 0 && AllSized(blocks, size) && |tail| < size
    ensures Blocks(Concat(blocks) + tail, size) == blocks + (if tail == [] then [] else [tail])
  {
    var message := Concat(blocks) + tail;
    if blocks == [] {
      assert message == tail;
    } else {
      var rest := Concat(blocks[1..]) + tail;
      assert message == blocks[0] + rest;
      assert message[..size] == blocks[0] && message[size..] == rest;
      BlocksOfConcat(blocks[1..], tail, size);
      if rest == [] {
        ConcatLength(blocks[1..], size);
        assert blocks[1..] == [];
        assert message == blocks[0];
      }
      assert blocks == [blocks[0]] + blocks[1..];
    }
  }

  /** Block i of a message is the slice at offset i * size. */
  lemma {:induction false} BlockAt(message: seq<byte>, size: nat, i: nat)
    requires size > 0 && i < |Blocks(message, size)|
    ensures i * size < |message|
    ensures Blocks(message, size)[i]
         == message[i * size .. if (i + 1) * size <= |message| then (i + 1) * size else |message|]
    decreases i
  {
    if i > 0 {
      var rest := message[size..];
      BlockAt(rest, size, i - 1);
      assert (i - 1) * size == i * size - size && (i + 1) * size == i * size + size;
    }
  }

  /** What is left of a message after its full blocks. */
  function Tail(message: seq<byte>, size: nat): (tail: seq<byte>)
    requires size > 0
    ensures |tail| < size
  {
    message[|message| - |message| % size..]
  }

  lemma TailOfConcat(blocks: seq<seq<byte>>, tail: seq<byte>, size: nat)
    requires AllSized(blocks, size) && |tail| < size
    ensures Tail(Concat(blocks) + tail, size) == tail
  {
    hide Concat;
    ConcatLength(blocks, size);
    Remainder(|blocks|, size, |tail|);
  }

  lemma Remainder(q: nat, size: nat, rest: nat)
    requires rest < size
    ensures (size * q + rest) % size == rest
  {
    var n := size * q + rest;
    var a, b := n / size, n % size;
    assert size * (a - q) == rest - b;
    if a > q {
      Scaled(a - q, size);
    } else if a < q {
      Scaled(q - a, size);
    }
  }

  lemma Scaled(k: nat, size: nat)
    requires k > 0
    ensures size * k >= size
  {
    assert size * k == size * (k - 1) + size;
  }


  /** The digests of the blocks, in order: what the outer digest is fed. */
  function DigestCat(D: seq<byte> -> seq<byte>, blocks: seq<seq<byte>>): seq<byte> {
    if blocks == [] then [] else DigestCat(D, blocks[..|blocks| - 1]) + D(blocks[|blocks| - 1])
  }

  /** D( D(block 0) || ... || D(block N-1) || length ) */
  function BlockDigest(D: seq<byte> -> seq<byte>, size: nat, message: seq<byte>): seq<byte>
    requires size > 0 && |message| < TWO64
  {
    D(DigestCat(D, Blocks(message, size)) + LE64(|message|))
  }

  lemma DigestCatSnoc(D: seq<byte> -> seq<byte>, blocks: seq<seq<byte>>, b: seq<byte>)
    ensures DigestCat(D, blocks + [b]) == DigestCat(D, blocks) + D(b)
  {
  }

  /** Consuming the next n bytes of `data` after `base`. */
  lemma TakeMore(base: seq<byte>, data: seq<byte>, pos: nat, n: nat)
    requires pos + n <= |data|
    ensures (base + data[..pos]) + data[pos..pos + n] == base + data[..pos + n]
  {
  }

  lemma SliceOfPrefix(data: seq<byte>, len: nat, pos: nat, n: nat)
    requires pos + n <= len <= |data|
    ensures data[..len][pos..pos + n] == data[pos..pos + n]
  {
  }

  lemma AtLeast16(n: nat, size: nat)
    requires size >= 16
    ensures Times(n, size) >= 16 * n
  {
  }

  lemma NoZeros(m: seq<byte>)
    ensures m + Zeros(0) == m
  {
  }

  lemma MoreZeros(m: seq<byte>, a: nat, b: nat)
    ensures (m + Zeros(a)) + Zeros(b) == m + Zeros(a + b)
  {
  }
}
