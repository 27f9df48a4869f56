/** The buffer for a partial block: it holds data, or counts zeros it never writes. */
module Buffers {
  import opened Streams

  class Buffer {
    const data: array<byte>
    var len: nat
    var zero: bool

    ghost predicate Valid()
      reads this
    {
      len <= data.Length
    }

    /** The pending bytes: a run of zeros that was never written out, or the head of the buffer. */
    ghost function Bytes(): (p: seq<byte>)
      reads this, data
      requires Valid()
      ensures |p| == len
    {
      if zero then Zeros(len) else data[..len]
    }

    constructor (size: nat)
      ensures Valid() && fresh(data) && data.Length == size && Bytes() == []
    {
      data := new byte[size];
      len, zero := 0, false;
    }

    method Fill(from: nat, to: nat)
      requires from <= to <= data.Length
      modifies data
      ensures data[..from] == old(data[..from]) && data[from..to] == Zeros(to - from)
    {
      forall i | from <= i < to {
        data[i] := 0;
      }
    }

    method Copy(at: nat, bytes: seq<byte>)
      requires at + |bytes| <= data.Length
      modifies data
      ensures data[..at] == old(data[..at]) && data[at..at + |bytes|] == bytes
    {
      forall i | 0 <= i < |bytes| {
        data[at + i] := bytes[i];
      }
    }

    /** Appends as many bytes as fit; counted zeros are written out first. */
    method AddData(bytes: seq<byte>) returns (n: nat)
      requires Valid()
      modifies this, data
      ensures Valid() && n == (if |bytes| < data.Length - old(len) then |bytes| else data.Length - old(len))
      ensures Bytes() == old(Bytes()) + bytes[..n] && !zero
    {
      n := if |bytes| < data.Length - len then |bytes| else data.Length - len;
      if zero {
        Fill(0, len);
        zero := false;
        assert data[..len] == data[0..len];
      }
      assert data[..len] == old(Bytes());
      Copy(len, bytes[..n]);
      assert data[..len + n] == data[..len] + data[len..len + n];
      len := len + n;
    }

    /** Appends as many zeros as fit; an empty buffer starts counting zeros, others have them written. */
    method AddZeros(count: nat) returns (n: nat)
      requires Valid()
      modifies this, data
      ensures Valid() && n == (if count < data.Length - old(len) then count else data.Length - old(len))
      ensures Bytes() == old(Bytes()) + Zeros(n)
      ensures zero == old(len == 0 || zero) && (zero ==> data[..] == old(data[..]))
    {
      n := if count < data.Length - len then count else data.Length - len;
      if len == 0 {
        zero := true;
      } else if !zero {
        Fill(len, len + n);
        assert data[..len + n] == data[..len] + data[len..len + n];
      }
      len := len + n;
    }

    /** The bytes of the buffer, after zeros that were only counted are written to it. */
    method AsData() returns (bytes: seq<byte>)
      requires Valid()
      modifies data
      ensures bytes == old(Bytes())
    {
      if zero {
        Fill(0, len);
      }
      bytes := data[0..len];
    }

    method Clear()
      modifies this
      ensures Valid() && Bytes() == []
    {
      len, zero := 0, false;
    }
  }
}
