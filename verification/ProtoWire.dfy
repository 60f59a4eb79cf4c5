/** The protobuf wire format as internal/output/sparkplugb/proto.go writes it: varints,
    little-endian fixed widths, length-delimited fields; and a reader for it. */
module ProtoWire {
  import opened ByteOrder
  import opened Wrappers

  /** A value and how many bytes it took. */
  datatype Parsed<T> = Parsed(value: T, length: nat)

  // Varints.

  function Varint(v: nat): (b: seq<Byte>)
    ensures b != []
  {
    if v < 128 then [v] else [v % 128 + 128] + Varint(v / 128)
  }

  function ReadVarint(b: seq<Byte>): (r: Option<Parsed<nat>>)
    ensures r.Some? ==> 0 < r.value.length <= |b|
  {
    if b == [] then None
    else if b[0] < 128 then Some(Parsed(b[0], 1))
    else match ReadVarint(b[1..])
      case None => None
      case Some(p) => Some(Parsed(b[0] - 128 + 128 * p.value, p.length + 1))
  }

  method AppendVarint(b0: seq<Byte>, v0: nat) returns (b: seq<Byte>)
    ensures b == b0 + Varint(v0)
  {
    b := b0;
    var v := v0;
    while v >= 0x80
      invariant b + Varint(v) == b0 + Varint(v0)
    {
      b := b + [v % 128 + 128];
      v := v / 128;
    }
    b := b + [v];
  }

  lemma {:induction false} VarintRead(v: nat, rest: seq<Byte>)
    ensures ReadVarint(Varint(v) + rest) == Some(Parsed(v, |Varint(v)|))
  {
    var b := Varint(v) + rest;
    if v >= 128 {
      VarintRead(v / 128, rest);
      assert b[1..] == Varint(v / 128) + rest;
    } else {
      assert b[0] == v;
    }
  }

  /** No byte string that reads as v is shorter than the varint of v. */
  lemma {:induction false} VarintMinimal(b: seq<Byte>)
    ensures ReadVarint(b).Some? ==> |Varint(ReadVarint(b).value.value)| <= ReadVarint(b).value.length
  {
    if b != [] && b[0] >= 128 && ReadVarint(b[1..]).Some? {
      VarintMinimal(b[1..]);
      var p := ReadVarint(b[1..]).value;
      var v: nat := b[0] - 128 + 128 * p.value;
      assert v / 128 == p.value;
    }
  }

  /** 128 to the power n. */
  function Power(n: nat): nat {
    if n == 0 then 1 else 128 * Power(n - 1)
  }

  lemma {:induction false} VarintLength(v: nat, n: nat)
    requires n > 0 && v < Power(n)
    ensures |Varint(v)| <= n
  {
    assert Power(1) == 128 * Power(0);
    if v >= 128 {
      VarintLength(v / 128, n - 1);
    }
  }

  /** A 64-bit value takes at most ten bytes. */
  lemma VarintTen(v: nat)
    requires v < 0x1_0000_0000_0000_0000
    ensures |Varint(v)| <= 10
  {
    assert Power(5) == 128 * Power(4) == 128 * 128 * Power(3) == 128 * 128 * 128 * Power(2);
    assert Power(2) == 128 * Power(1) == 128 * 128 * Power(0);
    assert Power(10) == 128 * Power(9) == 128 * 128 * Power(8) == 128 * 128 * 128 * Power(7);
    assert Power(7) == 128 * Power(6) == 128 * 128 * Power(5);
    VarintLength(v, 10);
  }

  // Fixed widths, little-endian.

  function Little(v: nat, n: nat): (b: seq<Byte>)
    ensures |b| == n
    decreases n
  {
    if n == 0 then [] else [v % 256] + Little(v / 256, n - 1)
  }

  function ReadLittle(b: seq<Byte>): nat {
    if b == [] then 0 else b[0] + 256 * ReadLittle(b[1..])
  }

  /** 256 to the power n. */
  function Bound(n: nat): nat {
    if n == 0 then 1 else 256 * Bound(n - 1)
  }

  lemma {:induction false} LittleRead(v: nat, n: nat)
    requires v < Bound(n)
    ensures ReadLittle(Little(v, n)) == v
    decreases n
  {
    if n > 0 {
      LittleRead(v / 256, n - 1);
      assert Little(v, n)[1..] == Little(v / 256, n - 1);
    }
  }

  /** Low groups and low bytes come first. */
  lemma LowFirst()
    ensures Varint(300) == [0xAC, 0x02] && Little(0x0102_0304, 4) == [4, 3, 2, 1]
  {
    assert Varint(2) == [2];
    assert Little(1, 1) == [1] + Little(0, 0);
    assert Little(0x0102, 2) == [2] + Little(1, 1);
    assert Little(0x01_0203, 3) == [3] + Little(0x0102, 2);
  }

  // Fields.

  datatype Field = VarintField(number: nat, v: nat)
    | Fixed64Field(number: nat, bits: nat)
    | BytesField(number: nat, data: seq<Byte>)
    | Fixed32Field(number: nat, bits: nat)

  predicate FieldValid(f: Field) {
    (f.Fixed64Field? ==> f.bits < Bound(8)) && (f.Fixed32Field? ==> f.bits < Bound(4))
  }

  ghost predicate FieldsValid(fs: seq<Field>) {
    forall i :: 0 <= i < |fs| ==> FieldValid(fs[i])
  }

  function WireType(f: Field): nat {
    match f
    case VarintField(_, _) => 0
    case Fixed64Field(_, _) => 1
    case BytesField(_, _) => 2
    case Fixed32Field(_, _) => 5
  }

  function Payload(f: Field): seq<Byte> {
    match f
    case VarintField(_, v) => Varint(v)
    case Fixed64Field(_, bits) => Little(bits, 8)
    case BytesField(_, data) => Varint(|data|) + data
    case Fixed32Field(_, bits) => Little(bits, 4)
  }

  /** field << 3 | wire */
  function Tag(number: nat, wire: nat): nat {
    8 * number + wire
  }

  function EncodeField(f: Field): (b: seq<Byte>)
    ensures b != []
  {
    Varint(Tag(f.number, WireType(f))) + Payload(f)
  }

  function ReadPayload(number: nat, wire: nat, b: seq<Byte>): (r: Option<Parsed<Field>>)
    ensures r.Some? ==> r.value.length <= |b|
  {
    if wire == 0 then
      match ReadVarint(b)
      case None => None
      case Some(p) => Some(Parsed(VarintField(number, p.value), p.length))
    else if wire == 1 then
      if |b| < 8 then None else Some(Parsed(Fixed64Field(number, ReadLittle(b[..8])), 8))
    else if wire == 2 then
      match ReadVarint(b)
      case None => None
      case Some(p) =>
        var end := p.length + p.value;
        if end > |b| then None else Some(Parsed(BytesField(number, b[p.length..end]), end))
    else if wire == 5 then
      if |b| < 4 then None else Some(Parsed(Fixed32Field(number, ReadLittle(b[..4])), 4))
    else None
  }

  function ReadField(b: seq<Byte>): (r: Option<Parsed<Field>>)
    ensures r.Some? ==> 0 < r.value.length <= |b|
  {
    match ReadVarint(b)
    case None => None
    case Some(tag) =>
      match ReadPayload(tag.value / 8, tag.value % 8, b[tag.length..])
      case None => None
      case Some(p) => Some(Parsed(p.value, tag.length + p.length))
  }

  lemma PayloadRead(f: Field, rest: seq<Byte>)
    requires FieldValid(f)
    ensures ReadPayload(f.number, WireType(f), Payload(f) + rest) == Some(Parsed(f, |Payload(f)|))
  {
    match f
    case VarintField(_, v) =>
      VarintRead(v, rest);
    case Fixed64Field(_, bits) =>
      LittleRead(bits, 8);
      assert (Little(bits, 8) + rest)[..8] == Little(bits, 8);
    case BytesField(_, data) =>
      assert Payload(f) + rest == Varint(|data|) + (data + rest);
      VarintRead(|data|, data + rest);
      var n := |Varint(|data|)|;
      assert (Payload(f) + rest)[n..n + |data|] == data;
    case Fixed32Field(_, bits) =>
      LittleRead(bits, 4);
      assert (Little(bits, 4) + rest)[..4] == Little(bits, 4);
  }

  lemma FieldRead(f: Field, rest: seq<Byte>)
    requires FieldValid(f)
    ensures ReadField(EncodeField(f) + rest) == Some(Parsed(f, |EncodeField(f)|))
  {
    hide ReadVarint, Varint, ReadPayload, Payload;
    var tag := Tag(f.number, WireType(f));
    assert EncodeField(f) + rest == Varint(tag) + (Payload(f) + rest);
    VarintRead(tag, Payload(f) + rest);
    PayloadRead(f, rest);
    assert tag / 8 == f.number && tag % 8 == WireType(f);
    assert (EncodeField(f) + rest)[|Varint(tag)|..] == Payload(f) + rest;
  }

  // Messages.

  function EncodeFields(fs: seq<Field>): seq<Byte> {
    if fs == [] then [] else EncodeField(fs[0]) + EncodeFields(fs[1..])
  }

  function ReadFields(b: seq<Byte>): Option<seq<Field>>
    decreases |b|
  {
    if b == [] then Some([])
    else match ReadField(b)
      case None => None
      case Some(p) =>
        match ReadFields(b[p.length..])
        case None => None
        case Some(fs) => Some([p.value] + fs)
  }

  /** Reading what was written gives the fields back. */
  lemma {:induction false} FieldsRead(fs: seq<Field>)
    requires FieldsValid(fs)
    ensures ReadFields(EncodeFields(fs)) == Some(fs)
  {
    if fs != [] {
      var rest := EncodeFields(fs[1..]);
      FieldsRead(fs[1..]);
      FieldRead(fs[0], rest);
      assert EncodeFields(fs)[|EncodeField(fs[0])|..] == rest;
      assert [fs[0]] + fs[1..] == fs;
    }
  }

  lemma {:induction false} EncodeFieldsMore(a: seq<Field>, b: seq<Field>)
    ensures EncodeFields(a + b) == EncodeFields(a) + EncodeFields(b)
  {
    if a == [] {
      assert a + b == b;
    } else {
      assert (a + b)[1..] == a[1..] + b;
      EncodeFieldsMore(a[1..], b);
    }
  }

}
