module Options {
  datatype Option<+T> = None | Some(value: T)
}

/** Machine integers and the big-endian byte buffer of inc/ByteArray.h. */
module Bytes {
  type byte = x: int | 0 <= x < 0x100
  type u16 = x: int | 0 <= x < 0x1_0000
  type u32 = x: int | 0 <= x < 0x1_0000_0000

  const U32_RANGE: int := 0x1_0000_0000

  function U16(v: u16): seq<byte> {
    [v / 0x100, v % 0x100]
  }

  function U32(v: u32): seq<byte> {
    U16(v / 0x1_0000) + U16(v % 0x1_0000)
  }

  function ReadU16(s: seq<byte>, i: nat): u16
    requires i + 1 < |s|
  {
    s[i] as int * 0x100 + s[i + 1]
  }

  function ReadU32(s: seq<byte>, i: nat): u32
    requires i + 3 < |s|
  {
    ReadU16(s, i) as int * 0x1_0000 + ReadU16(s, i + 2)
  }

  /** What was appended at position |before| is what is read there. */
  lemma ReadBackU16(before: seq<byte>, v: u16, after: seq<byte>)
    ensures ReadU16(before + U16(v) + after, |before|) == v
  {
    var s := before + U16(v) + after;
    assert s[|before|] == U16(v)[0] && s[|before| + 1] == U16(v)[1];
  }

  lemma ReadBackU32(before: seq<byte>, v: u32, after: seq<byte>)
    ensures ReadU32(before + U32(v) + after, |before|) == v
  {
    var high, low := U16(v / 0x1_0000), U16(v % 0x1_0000);
    var s := before + U32(v) + after;
    assert s == before + high + (low + after);
    ReadBackU16(before, v / 0x1_0000, low + after);
    assert s == (before + high) + low + after;
    ReadBackU16(before + high, v % 0x1_0000, after);
  }

  lemma U16OfRead(s: seq<byte>, i: nat)
    requires i + 1 < |s|
    ensures U16(ReadU16(s, i)) == s[i..i + 2]
  {
  }

  lemma U32OfRead(s: seq<byte>, i: nat)
    requires i + 3 < |s|
    ensures U32(ReadU32(s, i)) == s[i..i + 4]
  {
    U16OfRead(s, i);
    U16OfRead(s, i + 2);
    assert s[i..i + 4] == s[i..i + 2] + s[i + 2..i + 4];
  }

  lemma ShiftBy8(q: int, r: byte)
    ensures (q * 0x100 + r) / 0x100 == q && (q * 0x100 + r) % 0x100 == r
  {
  }

  /** The four shifts of a 32-bit writer are two 16-bit writers. */
  lemma ShiftsOfU32(v: u32)
    ensures U32(v) == [v / 0x100_0000, v / 0x1_0000 % 0x100, v / 0x100 % 0x100, v % 0x100]
  {
    var high, low := v / 0x1_0000, v % 0x1_0000;
    ShiftBy8(high * 0x100 + low / 0x100, low % 0x100);
    ShiftBy8(high, low / 0x100);
    assert high / 0x100 == v / 0x100_0000;
  }

  lemma Associative<T>(a: seq<T>, b: seq<T>, c: seq<T>)
    ensures (a + b) + c == a + (b + c)
  {
  }

  /** ByteArray: a growing buffer, every writer appends in network byte order. */
  class ByteArray {
    var data: seq<byte>

    constructor ()
      ensures data == []
    {
      data := [];
    }

    method PushBack(b: byte)
      modifies this
      ensures data == old(data) + [b]
    {
      data := data + [b];
    }

    method Insert(tail: seq<byte>)
      modifies this
      ensures data == old(data) + tail
    {
      data := data + tail;
    }

    method WriteU16BE(v: u16)
      modifies this
      ensures data == old(data) + U16(v)
    {
      PushBack(v / 0x100 % 0x100);
      PushBack(v % 0x100);
    }

    method WriteU32BE(v: u32)
      modifies this
      ensures data == old(data) + U32(v)
    {
      ShiftsOfU32(v);
      PushBack(v / 0x100_0000 % 0x100);
      PushBack(v / 0x1_0000 % 0x100);
      PushBack(v / 0x100 % 0x100);
      PushBack(v % 0x100);
    }
  }
}
