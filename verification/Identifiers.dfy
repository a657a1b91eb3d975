/** Fixed-length identifiers and the vehicle identification response (inc/DoIPIdentifiers.h, inc/DoIPMessage.h). */
module Identifiers {
  import opened Options
  import opened Bytes
  import opened Message

  /** The template parameters of GenericFixedId. */
  datatype Kind = Kind(length: nat, zeroPadding: bool, padChar: byte) {
    /** What stands behind the bytes that were given: the array starts out zeroed, pad may overwrite it. */
    function Filler(): byte {
      if zeroPadding then padChar else 0
    }
  }

  const VIN_KIND := Kind(17, true, '0' as byte)
  const EID_KIND := Kind(6, false, 0)

  function Min(a: nat, b: nat): nat {
    if a < b then a else b
  }

  function Repeat(b: byte, n: nat): seq<byte> {
    seq(n, _ => b)
  }

  /** The identifier built from bytes: cut or filled up to the length of its kind. */
  function Fixed(kind: Kind, s: seq<byte>): seq<byte> {
    var n := Min(|s|, kind.length);
    s[..n] + Repeat(kind.Filler(), kind.length - n)
  }

  function UpToNul(s: seq<byte>): seq<byte> {
    if s == [] || s[0] == 0 then [] else [s[0]] + UpToNul(s[1..])
  }

  /** v >> 8 * i, arithmetic on a negative v. */
  function ShiftRight(v: int, i: nat): int
    decreases i
  {
    if i == 0 then v else ShiftRight(v / 0x100, i - 1)
  }

  /** The n low bytes of v, highest first. */
  function LowBytes(v: int, n: nat): seq<byte> {
    seq(n, j requires 0 <= j < n => ShiftRight(v, n - 1 - j) % 0x100)
  }

  /** The identifier built from an integer of `width` bytes: left-aligned, and no padding character behind it. */
  function Integral(kind: Kind, v: int, width: nat): seq<byte> {
    var n := Min(width, kind.length);
    LowBytes(v, n) + Repeat(0, kind.length - n)
  }

  function Upper(s: seq<byte>): seq<byte> {
    seq(|s|, i requires 0 <= i < |s| => if 'a' as int <= s[i] <= 'z' as int then s[i] - 0x20 else s[i])
  }

  function VinOfString(s: seq<byte>): seq<byte> {
    Fixed(VIN_KIND, Upper(s))
  }

  /** The std::string behind a C string, the empty one for a null pointer. */
  function CString(memory: Option<seq<byte>>): seq<byte> {
    match memory
    case None => []
    case Some(s) => UpToNul(s)
  }

  // ---------------------------------------------------------------- the class

  class GenericFixedId {
    const kind: Kind
    const id: array<byte>

    ghost predicate Valid() {
      id.Length == kind.length
    }

    /** From a string, a ByteArray, or a pointer with a length. */
    constructor FromBytes(kind: Kind, s: seq<byte>)
      ensures Valid() && fresh(id) && this.kind == kind
      ensures id[..] == Fixed(kind, s)
    {
      this.kind := kind;
      id := new byte[kind.length](_ => 0);
      new;
      var copyLength := Min(|s|, kind.length);
      for i := 0 to copyLength
        invariant forall j :: 0 <= j < i ==> id[j] == s[j]
        invariant forall j :: i <= j < kind.length ==> id[j] == 0
      {
        id[i] := s[i];
      }
      Pad(copyLength);
    }

    constructor FromIntegral(kind: Kind, v: int, width: nat)
      ensures Valid() && fresh(id) && this.kind == kind
      ensures id[..] == Integral(kind, v, width)
    {
      this.kind := kind;
      id := new byte[kind.length](_ => 0);
      new;
      var len := Min(width, kind.length);
      var shifted := v;
      for i := 0 to len
        invariant shifted == ShiftRight(v, i)
        invariant forall j :: len - i <= j < len ==> id[j] == ShiftRight(v, len - 1 - j) % 0x100
        invariant forall j :: len <= j < kind.length ==> id[j] == 0
      {
        id[len - 1 - i] := shifted % 0x100;
        ShiftRightOnce(v, i);
        shifted := shifted / 0x100;
      }
    }

    method Pad(start: nat)
      requires Valid() && start <= kind.length
      modifies id
      ensures id[..] ==
        if kind.zeroPadding then old(id[..start]) + Repeat(kind.padChar, kind.length - start) else old(id[..])
    {
      if kind.zeroPadding {
        for i := start to kind.length
          invariant id[..start] == old(id[..start])
          invariant forall j :: start <= j < i ==> id[j] == kind.padChar
        {
          id[i] := kind.padChar;
        }
      }
    }

    method ToString() returns (s: seq<byte>)
      requires Valid()
      ensures s == UpToNul(id[..])
    {
      var effective := 0;
      for i := 0 to kind.length
        invariant effective == i
        invariant 0 !in id[..i]
      {
        if id[i] == 0 {
          break;
        }
        effective := i + 1;
      }
      UpToNulIs(id[..], effective);
      s := id[..effective];
    }
  }

  lemma {:induction false} ShiftRightOnce(v: int, i: nat)
    ensures ShiftRight(v, i + 1) == ShiftRight(v, i) / 0x100
    decreases i
  {
    if i > 0 {
      ShiftRightOnce(v / 0x100, i - 1);
    }
  }

  lemma {:induction false} UpToNulIs(s: seq<byte>, n: nat)
    requires n <= |s| && 0 !in s[..n] && (n < |s| ==> s[n] == 0)
    ensures UpToNul(s) == s[..n]
  {
    if n > 0 {
      assert s[0] == s[..n][0] && s[1..][..n - 1] == s[..n][1..];
      UpToNulIs(s[1..], n - 1);
    }
  }

  lemma {:induction false} UpToNulCuts(s: seq<byte>)
    ensures var n := |UpToNul(s)|;
      n <= |s| && UpToNul(s) == s[..n] && 0 !in s[..n] && (n < |s| ==> s[n] == 0)
  {
    if s != [] && s[0] != 0 {
      UpToNulCuts(s[1..]);
      var n := |UpToNul(s)|;
      assert s[..n] == [s[0]] + s[1..][..n - 1];
    }
  }

  // ---------------------------------------------------------------- print and rebuild

  /** Printing an identifier and building one from the text gives it back exactly when its first NUL, if any, starts a
      tail of filler bytes. */
  lemma RebuildFromText(kind: Kind, id: seq<byte>)
    requires |id| == kind.length
    ensures Fixed(kind, UpToNul(id)) == id <==>
      forall k :: |UpToNul(id)| <= k < |id| ==> id[k] == kind.Filler()
  {
    UpToNulCuts(id);
    var n := |UpToNul(id)|;
    var rebuilt := Fixed(kind, UpToNul(id));
    assert rebuilt == id[..n] + Repeat(kind.Filler(), |id| - n);
    assert forall k :: n <= k < |id| ==> rebuilt[k] == kind.Filler();
    if forall k :: n <= k < |id| ==> id[k] == kind.Filler() {
      assert rebuilt == id;
    }
  }

  lemma UpperOfFixed(s: seq<byte>)
    ensures Upper(VinOfString(s)) == VinOfString(s)
  {
  }

  /** An identifier built from bytes takes as many as fit, then its padding character, or zeros. */
  lemma FixedBytes(kind: Kind, s: seq<byte>)
    ensures |Fixed(kind, s)| == kind.length
    ensures forall i :: 0 <= i < kind.length && i < |s| ==> Fixed(kind, s)[i] == s[i]
    ensures forall i :: |s| <= i < kind.length ==> Fixed(kind, s)[i] == if kind.zeroPadding then kind.padChar else 0
  {
  }

  predicate IsLowerCase(b: byte) {
    97 <= b <= 122
  }

  /** The same byte, or the two cases of one letter. */
  predicate SameButCase(a: byte, b: byte) {
    a == b || (IsLowerCase(a) && a == b + 32) || (IsLowerCase(b) && b == a + 32)
  }

  /** A VIN has 17 bytes and no lower-case letter; it takes the string's bytes, letters in upper case and everything
      else as it is, and '0' where there are none. */
  lemma VinOfStringBytes(s: seq<byte>)
    ensures var vin := VinOfString(s);
      && |vin| == 17
      && (forall i :: 0 <= i < 17 ==> !IsLowerCase(vin[i]))
      && (forall i :: 0 <= i < 17 && i < |s| ==> SameButCase(vin[i], s[i]))
      && (forall i :: 0 <= i < 17 && i < |s| && !IsLowerCase(s[i]) ==> vin[i] == s[i])
      && (forall i :: 0 <= i < 17 && |s| <= i ==> vin[i] == 48)
  {
    assert forall i :: 0 <= i < 17 && i < |s| ==> VinOfString(s)[i] == Upper(s)[i];
  }

  /** Strings that differ only in the case of letters are the same VIN, and strings of up to 17 bytes are only then. */
  lemma VinIgnoresCase(s: seq<byte>, t: seq<byte>)
    requires |s| == |t|
    ensures (forall i :: 0 <= i < |s| ==> SameButCase(s[i], t[i])) ==> VinOfString(s) == VinOfString(t)
    ensures |s| <= 17 && VinOfString(s) == VinOfString(t) ==> forall i :: 0 <= i < |s| ==> SameButCase(s[i], t[i])
  {
    VinOfStringBytes(s);
    VinOfStringBytes(t);
    var v, w := VinOfString(s), VinOfString(t);
    if forall i :: 0 <= i < |s| ==> SameButCase(s[i], t[i]) {
      assert Upper(s) == Upper(t);
    }
    if |s| <= 17 && v == w {
      forall i | 0 <= i < |s|
        ensures SameButCase(s[i], t[i])
      {
        assert SameButCase(v[i], s[i]) && SameButCase(w[i], t[i]);
      }
    }
  }

  /** The transformation of the string, and the identifier built from it. */
  method MakeVin(s: seq<byte>) returns (vin: GenericFixedId)
    ensures fresh(vin) && fresh(vin.id) && vin.Valid() && vin.kind == VIN_KIND
    ensures vin.id[..] == VinOfString(s)
  {
    var upper: seq<byte> := [];
    for i := 0 to |s|
      invariant upper == Upper(s)[..i]
    {
      upper := upper + [if 97 <= s[i] <= 122 then s[i] - 32 else s[i]];
    }
    assert Upper(s)[..|s|] == Upper(s);
    vin := new GenericFixedId.FromBytes(VIN_KIND, upper);
  }

  /** A VIN survives print-and-rebuild exactly when the characters it took from the string hold no NUL. */
  lemma VinSurvivesPrinting(s: seq<byte>)
    ensures VinOfString(UpToNul(VinOfString(s))) == VinOfString(s) <==> 0 !in s[..Min(|s|, VIN_KIND.length)]
  {
    var vin, taken := VinOfString(s), Min(|s|, VIN_KIND.length);
    UpToNulCuts(vin);
    UpperOfFixed(s);
    var n := |UpToNul(vin)|;
    assert Upper(vin[..n]) == vin[..n];
    RebuildFromText(VIN_KIND, vin);
    assert forall i :: 0 <= i < taken ==> vin[i] == Upper(s)[i] && (vin[i] == 0 <==> s[..taken][i] == 0);
    assert forall i :: taken <= i < |vin| ==> vin[i] == VIN_KIND.padChar;
    if 0 in s[..taken] {
      var i :| 0 <= i < taken && s[..taken][i] == 0;
      assert vin[i] == 0;
      assert forall j :: 0 <= j < n ==> vin[j] in vin[..n];
      assert n <= i && vin[i] != VIN_KIND.Filler();
    } else {
      assert forall i :: 0 <= i < |vin| ==> vin[i] != 0;
      assert n == |vin|;
    }
  }

  /** So every VIN built from a C string does. */
  lemma VinOfCStringSurvivesPrinting(memory: Option<seq<byte>>)
    ensures VinOfString(UpToNul(VinOfString(CString(memory)))) == VinOfString(CString(memory))
  {
    var s := CString(memory);
    if memory.Some? {
      UpToNulCuts(memory.value);
    }
    assert 0 !in s;
    VinSurvivesPrinting(s);
  }

  // ---------------------------------------------------------------- integers

  function Pow256(n: nat): (p: int)
    ensures p >= 1
  {
    if n == 0 then 1 else 0x100 * Pow256(n - 1)
  }

  /** The number a byte string denotes in network byte order. */
  function Value(s: seq<byte>): int {
    if s == [] then 0 else Value(s[..|s| - 1]) * 0x100 + s[|s| - 1]
  }

  lemma ModByPower(v: int, p: int)
    requires p >= 1
    ensures (v / 0x100) % p * 0x100 + v % 0x100 == v % (0x100 * p)
  {
    var q, r := v / 0x100, v % 0x100;
    var low := q % p * 0x100 + r;
    assert v == 0x100 * q + r && q == p * (q / p) + q % p;
    assert v == (0x100 * p) * (q / p) + low by {
      assert 0x100 * (p * (q / p)) == (0x100 * p) * (q / p);
    }
    assert 0 <= low < 0x100 * p;
    Remainder(v, 0x100 * p, q / p, low);
  }

  lemma Remainder(v: int, m: int, k: int, r: int)
    requires m > 0 && v == m * k + r && 0 <= r < m
    ensures v % m == r
  {
    var d := v / m - k;
    assert v == m * (v / m) + v % m;
    assert m * d == r - v % m by {
      assert m * (v / m - k) == m * (v / m) - m * k;
    }
    ProductGrows(m, d);
  }

  lemma ProductGrows(m: int, d: int)
    requires m > 0
    ensures d >= 1 ==> m * d >= m
    ensures d <= -1 ==> m * d <= -m
  {
  }

  lemma {:induction false} LowBytesValue(v: int, n: nat)
    ensures Value(LowBytes(v, n)) == v % Pow256(n)
    decreases n
  {
    if n > 0 {
      var s := LowBytes(v, n);
      assert forall k: nat :: k < n - 1 ==> ShiftRight(v, k + 1) == ShiftRight(v / 0x100, k);
      assert s[..n - 1] == LowBytes(v / 0x100, n - 1);
      assert ShiftRight(v, 0) == v;
      LowBytesValue(v / 0x100, n - 1);
      ModByPower(v, Pow256(n - 1));
    }
  }

  lemma {:induction false} ValueOfShifted(s: seq<byte>, k: nat)
    ensures Value(s + Repeat(0, k)) == Value(s) * Pow256(k)
  {
    if k == 0 {
      assert s + Repeat(0, 0) == s;
    } else {
      var t := s + Repeat(0, k);
      assert t[..|t| - 1] == s + Repeat(0, k - 1);
      ValueOfShifted(s, k - 1);
      assert Value(s) * Pow256(k - 1) * 0x100 == Value(s) * (0x100 * Pow256(k - 1));
    }
  }

  /** The number an identifier denotes when it was built from an integer: reduced to the bytes that fit, and moved to
      the left when the integer is narrower than the identifier. */
  lemma IntegralValue(kind: Kind, v: int, width: nat)
    ensures var n := Min(width, kind.length);
      Value(Integral(kind, v, width)) == v % Pow256(n) * Pow256(kind.length - n)
  {
    var n := Min(width, kind.length);
    LowBytesValue(v, n);
    ValueOfShifted(LowBytes(v, n), kind.length - n);
  }

  lemma {:induction false} Pow256Grows(m: nat, n: nat)
    requires m <= n
    ensures Pow256(m) <= Pow256(n) && (m < n ==> 0x100 * Pow256(m) <= Pow256(n))
  {
    if m < n {
      Pow256Grows(m, n - 1);
    }
  }

  /** The identifier denotes the integer itself exactly when the type of the integer is wide enough and its value fits,
      or when the integer is zero. */
  lemma IntegralIsExact(kind: Kind, v: int, width: nat)
    requires 0 <= v < Pow256(width)
    ensures Value(Integral(kind, v, width)) == v <==> v == 0 || (kind.length <= width && v < Pow256(kind.length))
  {
    IntegralValue(kind, v, width);
    if kind.length <= width {
      ModIsExact(v, Pow256(kind.length));
      assert Pow256(0) == 1;
    } else {
      ModIsExact(v, Pow256(width));
      Pow256Grows(0, kind.length - width);
      MultipleIsLarger(v, Pow256(kind.length - width));
    }
  }

  lemma ModIsExact(v: int, m: int)
    requires v >= 0 && m > 0
    ensures v % m == v <==> v < m
  {
    if v < m {
      Remainder(v, m, 0, v);
    }
  }

  lemma MultipleIsLarger(v: int, p: int)
    requires v >= 0 && p > 1
    ensures v * p == v <==> v == 0
  {
    if v > 0 {
      ProductGrows(v, p - 1);
      assert v * p == v * (p - 1) + v;
    }
  }

  /** An EID built from a 64-bit integer is that integer modulo 2^48 in network byte order; built from a 32-bit integer
      it is the integer in the first four bytes and two zeros behind them. */
  lemma EidOfInteger(v: int)
    ensures Value(Integral(EID_KIND, v, 8)) == v % 0x1_0000_0000_0000
    ensures Value(Integral(EID_KIND, v, 4)) == v % 0x1_0000_0000 * 0x1_0000
    ensures Integral(EID_KIND, v, 4)[4..] == [0, 0]
  {
    IntegralValue(EID_KIND, v, 8);
    IntegralValue(EID_KIND, v, 4);
    PowersOf256();
  }

  lemma PowersOf256()
    ensures Pow256(0) == 1 && Pow256(2) == 0x1_0000 && Pow256(4) == 0x1_0000_0000 && Pow256(6) == 0x1_0000_0000_0000
  {
    assert Pow256(1) == 0x100;
    assert Pow256(3) == 0x100_0000;
    assert Pow256(5) == 0x100_0000_0000;
  }

  // ---------------------------------------------------------------- vehicle identification response

  const RESPONSE_SIZE: nat := 33

  function IdentificationPayload(
      vin: seq<byte>, la: u16, eid: seq<byte>, gid: seq<byte>, far: byte, sync: byte): seq<byte>
  {
    vin + U16(la) + eid + gid + [far, sync]
  }

  method MakeVehicleIdentificationResponse(
      vin: GenericFixedId, la: u16, eid: GenericFixedId, gid: GenericFixedId, far: byte, sync: byte)
      returns (msg: DoIPMessage)
    requires vin.Valid() && eid.Valid() && gid.Valid()
    requires vin.kind == VIN_KIND && eid.kind == EID_KIND && gid.kind == EID_KIND
    ensures msg ==
      Build(VEHICLE_IDENTIFICATION_RESPONSE, IdentificationPayload(vin.id[..], la, eid.id[..], gid.id[..], far, sync))
  {
    var payload := new ByteArray();
    payload.Insert(vin.id[..]);
    payload.WriteU16BE(la);
    payload.Insert(eid.id[..]);
    payload.Insert(gid.id[..]);
    payload.PushBack(far);
    payload.PushBack(sync);
    assert payload.data == IdentificationPayload(vin.id[..], la, eid.id[..], gid.id[..], far, sync);
    msg := BuildMessage(VEHICLE_IDENTIFICATION_RESPONSE, payload.data);
  }

  predicate Announces(msg: DoIPMessage, size: nat) {
    msg.PayloadType() == VEHICLE_IDENTIFICATION_RESPONSE && |msg.Payload()| >= size
  }

  function GetVin(msg: DoIPMessage): Option<seq<byte>> {
    if Announces(msg, 17) then Some(Fixed(VIN_KIND, msg.Payload()[..17])) else None
  }

  function GetLogicalAddress(msg: DoIPMessage): Option<u16> {
    if Announces(msg, 19) then Some(ReadU16(msg.Payload(), 17)) else None
  }

  function GetEid(msg: DoIPMessage): Option<seq<byte>> {
    if Announces(msg, 25) then Some(Fixed(EID_KIND, msg.Payload()[19..25])) else None
  }

  function GetGid(msg: DoIPMessage): Option<seq<byte>> {
    if Announces(msg, 31) then Some(Fixed(EID_KIND, msg.Payload()[25..31])) else None
  }

  /** The guard asks for 31 bytes and the 32nd is read: a response of exactly 31 bytes has no defined result. */
  predicate FurtherActionIsDefined(msg: DoIPMessage) {
    Announces(msg, 31) ==> |msg.Payload()| > 31
  }

  function GetFurtherAction(msg: DoIPMessage): Option<byte>
    requires FurtherActionIsDefined(msg)
  {
    if Announces(msg, 31) then Some(msg.Payload()[31]) else None
  }

  /** What a payload of any length and type yields: each field exactly in identification responses that are long enough,
      taken from its place. */
  lemma FieldsOfPayload(t: u16, p: seq<byte>)
    ensures var m, n := Build(t, p), |p|;
      && GetVin(m) == (if t == 4 && n >= 17 then Some(p[..17]) else None)
      && GetLogicalAddress(m) == (if t == 4 && n >= 19 then Some(p[17] as int * 256 + p[18]) else None)
      && GetEid(m) == (if t == 4 && n >= 25 then Some(p[19..25]) else None)
      && GetGid(m) == (if t == 4 && n >= 31 then Some(p[25..31]) else None)
      && (n != 31 ==>
          && FurtherActionIsDefined(m)
          && GetFurtherAction(m) == (if t == 4 && n >= 32 then Some(p[31]) else None))
  {
    BuiltFields(t, p);
    if |p| >= 31 {
      FixedOfExact(EID_KIND, p[25..31]);
    }
    if |p| >= 25 {
      FixedOfExact(EID_KIND, p[19..25]);
    }
    if |p| >= 17 {
      FixedOfExact(VIN_KIND, p[..17]);
    }
  }

  /** The failure of the guard: exactly a response of 31 bytes defeats it, and such a response is a valid message that
      the parser accepts. */
  lemma FurtherActionUndefined(payload: seq<byte>)
    ensures var m := Build(VEHICLE_IDENTIFICATION_RESPONSE, payload);
      && (FurtherActionIsDefined(m) <==> |payload| != 31)
      && (|payload| == 31 ==> ValidFrame(m) && TryParse(m.data) == Some(m))
  {
    BuiltFields(VEHICLE_IDENTIFICATION_RESPONSE, payload);
    ParseOfBuilt(VEHICLE_IDENTIFICATION_RESPONSE, payload, []);
    var m := Build(VEHICLE_IDENTIFICATION_RESPONSE, payload);
    assert m.data + [] == m.data;
  }

  lemma FixedOfExact(kind: Kind, s: seq<byte>)
    requires |s| == kind.length
    ensures Fixed(kind, s) == s
  {
  }

  lemma PayloadLayout(vin: seq<byte>, la: u16, eid: seq<byte>, gid: seq<byte>, far: byte, sync: byte)
    requires |vin| == VIN_KIND.length && |eid| == |gid| == EID_KIND.length
    ensures var p := IdentificationPayload(vin, la, eid, gid, far, sync);
      && |p| == RESPONSE_SIZE
      && p[..17] == vin && ReadU16(p, 17) == la && p[19..25] == eid && p[25..31] == gid
      && p[31] == far && p[32] == sync
  {
    var p := IdentificationPayload(vin, la, eid, gid, far, sync);
    ReadBackU16(vin, la, eid + gid + [far, sync]);
    assert p == vin + U16(la) + (eid + gid + [far, sync]);
    assert p == (vin + U16(la)) + eid + (gid + [far, sync]);
    assert p == (vin + U16(la) + eid) + gid + [far, sync];
  }

  /** What the getters read from the response, received with anything behind it, is what it was made from. */
  lemma IdentificationRoundTrip(
      vin: seq<byte>, la: u16, eid: seq<byte>, gid: seq<byte>, far: byte, sync: byte, trailing: seq<byte>)
    requires |vin| == VIN_KIND.length && |eid| == |gid| == EID_KIND.length
    ensures var sent := Build(VEHICLE_IDENTIFICATION_RESPONSE, IdentificationPayload(vin, la, eid, gid, far, sync));
      var received := TryParse(sent.data + trailing);
      && received == Some(sent)
      && Announces(sent, RESPONSE_SIZE)
      && GetVin(sent) == Some(vin)
      && GetLogicalAddress(sent) == Some(la)
      && GetEid(sent) == Some(eid)
      && GetGid(sent) == Some(gid)
      && GetFurtherAction(sent) == Some(far)
  {
    var payload := IdentificationPayload(vin, la, eid, gid, far, sync);
    PayloadLayout(vin, la, eid, gid, far, sync);
    ParseOfBuilt(VEHICLE_IDENTIFICATION_RESPONSE, payload, trailing);
    BuiltFields(VEHICLE_IDENTIFICATION_RESPONSE, payload);
    FixedOfExact(VIN_KIND, vin);
    FixedOfExact(EID_KIND, eid);
    FixedOfExact(EID_KIND, gid);
  }

  /** The VIN of the application's string, upper-cased and filled with '0', is what a tester prints. */
  lemma AnnouncedVinIsPrinted(
      s: seq<byte>, la: u16, eid: seq<byte>, gid: seq<byte>, far: byte, sync: byte)
    requires 0 !in s && |eid| == |gid| == EID_KIND.length
    ensures var sent :=
        Build(VEHICLE_IDENTIFICATION_RESPONSE, IdentificationPayload(VinOfString(s), la, eid, gid, far, sync));
      && GetVin(sent).Some?
      && UpToNul(GetVin(sent).value) == VinOfString(s)
      && |UpToNul(GetVin(sent).value)| == 17
      && (forall i :: 0 <= i < 17 ==> !IsLowerCase(UpToNul(GetVin(sent).value)[i]))
      && (forall i :: 0 <= i < 17 && i < |s| ==> SameButCase(UpToNul(GetVin(sent).value)[i], s[i]))
  {
    PrintedVin(s);
    VinOfStringBytes(s);
    PayloadLayout(VinOfString(s), la, eid, gid, far, sync);
    BuiltFields(VEHICLE_IDENTIFICATION_RESPONSE, IdentificationPayload(VinOfString(s), la, eid, gid, far, sync));
    FixedOfExact(VIN_KIND, VinOfString(s));
  }

  lemma PrintedVin(s: seq<byte>)
    requires 0 !in s
    ensures UpToNul(VinOfString(s)) == VinOfString(s)
  {
    var vin := VinOfString(s);
    assert forall i :: 0 <= i < |s| ==> s[i] in s;
    UpToNulIs(vin, VIN_KIND.length);
    assert vin[..VIN_KIND.length] == vin;
  }
}
