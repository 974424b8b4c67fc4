/** Bytes and big-endian numbers. */
module Bytes {
  import opened Words

  type Byte = x: nat | x < 256

  function Zeros(n: nat): (r: seq<Byte>)
    ensures |r| == n && forall i :: 0 <= i < n ==> r[i] == 0
  {
    seq(n, _ => 0)
  }

  /** One past the largest number of `count` bytes. */
  function Span(count: nat): (r: nat)
    ensures r > 0
  {
    if count == 0 then 1 else 256 * Span(count - 1)
  }

  function BigEndian(value: nat, count: nat): (r: seq<Byte>)
    ensures |r| == count
  {
    if count == 0 then [] else BigEndian(value / 256, count - 1) + [value % 256]
  }

  function Number(bytes: seq<Byte>): nat {
    if bytes == [] then 0 else 256 * Number(bytes[..|bytes| - 1]) + bytes[|bytes| - 1]
  }

  lemma {:induction false} NumberOfBigEndian(value: nat, count: nat)
    requires value < Span(count)
    ensures Number(BigEndian(value, count)) == value
    decreases count
  {
    if count > 0 {
      NumberOfBigEndian(value / 256, count - 1);
      assert BigEndian(value, count)[..count - 1] == BigEndian(value / 256, count - 1);
    }
  }

  lemma {:induction false} BigEndianOfNumber(bytes: seq<Byte>)
    ensures BigEndian(Number(bytes), |bytes|) == bytes && Number(bytes) < Span(|bytes|)
    decreases |bytes|
  {
    if bytes != [] {
      BigEndianOfNumber(bytes[..|bytes| - 1]);
    }
  }

  lemma EightBytesAreAWord()
    ensures Span(8) == LIMIT && Span(2) == 0x1_0000
  {
    assert Span(4) == 0x1_0000_0000;
  }

  /** `value >> (8 * count)`. */
  function DropBytes(value: nat, count: nat): nat {
    if count == 0 then value else DropBytes(value / 256, count - 1)
  }

  lemma {:induction false} BigEndianAt(value: nat, count: nat, i: nat)
    requires i < count
    ensures BigEndian(value, count)[i] == DropBytes(value, count - 1 - i) % 256
    decreases count
  {
    if i < count - 1 {
      BigEndianAt(value / 256, count - 1, i);
    }
  }

  /** Writes the low `count` bytes of a number into a buffer, highest first. */
  method Put(value: nat, data: array<Byte>, offset: nat, count: nat)
    requires offset + count <= data.Length
    modifies data
    ensures data[offset..offset + count] == BigEndian(value, count)
    ensures forall i :: 0 <= i < data.Length && !(offset <= i < offset + count) ==> data[i] == old(data[i])
  {
    for index := 0 to count
      invariant forall i :: 0 <= i < index ==> data[offset + i] == BigEndian(value, count)[i]
      invariant forall i :: 0 <= i < data.Length && !(offset <= i < offset + index) ==> data[i] == old(data[i])
    {
      BigEndianAt(value, count, index);
      data[offset + index] := DropBytes(value, count - index - 1) % 256;
    }
  }

  /** Copies bytes into a buffer. */
  method Copy(bytes: seq<Byte>, data: array<Byte>, offset: nat)
    requires offset + |bytes| <= data.Length
    modifies data
    ensures data[offset..offset + |bytes|] == bytes
    ensures forall i :: 0 <= i < data.Length && !(offset <= i < offset + |bytes|) ==> data[i] == old(data[i])
  {
    for index := 0 to |bytes|
      invariant data[offset..offset + index] == bytes[..index]
      invariant forall i :: 0 <= i < data.Length && !(offset <= i < offset + index) ==> data[i] == old(data[i])
    {
      data[offset + index] := bytes[index];
    }
  }
}
