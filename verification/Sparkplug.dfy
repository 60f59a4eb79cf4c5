/** The Sparkplug payload encoder (internal/output/sparkplugb/proto.go) and a decoder for
    its field numbers. */
module Sparkplug {
  import opened ByteOrder
  import opened ProtoWire
  import opened Wrappers

  type U64 = x: int | 0 <= x < 0x1_0000_0000_0000_0000

  const DATA_TYPE_UINT64 := 8
  const DATA_TYPE_FLOAT := 9
  const DATA_TYPE_DOUBLE := 10
  const DATA_TYPE_BOOLEAN := 11
  const DATA_TYPE_STRING := 12
  const DATA_TYPE_TEXT := 14

  /** What the conversions toFloat64, toInt64, toBool and toString make of a value: the bits
      of the double and of the float, the signed integer, the truth value, the text. */
  datatype Value = Value(doubleBits: U64, floatBits: U32, whole: int, truth: bool, text: seq<Byte>)

  datatype Metric = Metric(name: seq<Byte>, alias: U64, timestamp: U64, dataType: U32, isNull: bool,
                           value: Option<Value>)

  predicate Fits64(whole: int) {
    -0x8000_0000_0000_0000 <= whole < 0x8000_0000_0000_0000
  }

  predicate MetricValid(m: Metric) {
    m.value.Some? ==> Fits64(m.value.value.whole)
  }

  /** Two's complement. */
  function ToU64(x: int): U64 {
    x % 0x1_0000_0000_0000_0000
  }

  function FromU64(v: int): int {
    if v < 0x8000_0000_0000_0000 then v else v - 0x1_0000_0000_0000_0000
  }

  // What is written, as fields.

  function TextField(number: nat, data: seq<Byte>): seq<Field> {
    if data == [] then [] else [BytesField(number, data)]
  }

  function NumberField(number: nat, v: nat): seq<Field> {
    if v == 0 then [] else [VarintField(number, v)]
  }

  function ValueField(dataType: int, v: Value): Field {
    if dataType == DATA_TYPE_DOUBLE then Fixed64Field(8, v.doubleBits)
    else if dataType == DATA_TYPE_FLOAT then Fixed32Field(9, v.floatBits)
    else if dataType == DATA_TYPE_BOOLEAN then VarintField(12, if v.truth then 1 else 0)
    else if dataType == DATA_TYPE_STRING || dataType == DATA_TYPE_TEXT then BytesField(13, v.text)
    else if dataType == DATA_TYPE_UINT64 then VarintField(11, ToU64(v.whole))
    else VarintField(10, ToU64(v.whole))
  }

  function HeadFields(m: Metric): seq<Field> {
    TextField(1, m.name) + NumberField(2, m.alias) + NumberField(3, m.timestamp) + NumberField(4, m.dataType)
  }

  function LastField(m: Metric): seq<Field> {
    if m.isNull then [VarintField(7, 1)]
    else match m.value
      case None => []
      case Some(v) => [ValueField(m.dataType, v)]
  }

  function MetricFields(m: Metric): seq<Field> {
    HeadFields(m) + LastField(m)
  }

  // The encoder.

  method AppendTag(b0: seq<Byte>, number: nat, wire: nat) returns (b: seq<Byte>)
    ensures b == b0 + Varint(Tag(number, wire))
  {
    b := AppendVarint(b0, 8 * number + wire);
  }

  method AppendVarintField(b0: seq<Byte>, number: nat, v: nat) returns (b: seq<Byte>)
    ensures b == b0 + EncodeField(VarintField(number, v))
  {
    hide Varint, Tag;
    var b1 := AppendTag(b0, number, 0);
    b := AppendVarint(b1, v);
    assert b == b0 + (Varint(Tag(number, 0)) + Varint(v));
  }

  method AppendBytesField(b0: seq<Byte>, number: nat, data: seq<Byte>) returns (b: seq<Byte>)
    ensures b == b0 + EncodeField(BytesField(number, data))
  {
    hide Varint, Tag;
    var b1 := AppendTag(b0, number, 2);
    var b2 := AppendVarint(b1, |data|);
    b := b2 + data;
    assert b == b0 + (Varint(Tag(number, 2)) + (Varint(|data|) + data));
  }

  method AppendValue(b0: seq<Byte>, dataType: int, v: Value) returns (b: seq<Byte>)
    ensures b == b0 + EncodeField(ValueField(dataType, v))
  {
    hide Varint, Little, Tag;
    if dataType == DATA_TYPE_DOUBLE {
      b := AppendTag(b0, 8, 1);
      b := b + Little(v.doubleBits, 8);
    } else if dataType == DATA_TYPE_FLOAT {
      b := AppendTag(b0, 9, 5);
      b := b + Little(v.floatBits, 4);
    } else if dataType == DATA_TYPE_BOOLEAN {
      b := AppendVarintField(b0, 12, if v.truth then 1 else 0);
    } else if dataType == DATA_TYPE_STRING || dataType == DATA_TYPE_TEXT {
      b := AppendBytesField(b0, 13, v.text);
    } else if dataType == DATA_TYPE_UINT64 {
      b := AppendVarintField(b0, 11, ToU64(v.whole));
    } else {
      b := AppendVarintField(b0, 10, ToU64(v.whole));
    }
  }

  lemma AppendsField(b: seq<Byte>, fs: seq<Field>, f: Field)
    requires b == EncodeFields(fs)
    ensures b + EncodeField(f) == EncodeFields(fs + [f])
  {
    EncodeFieldsMore(fs, [f]);
    OneField(f);
  }

  method EncodeMetric(m: Metric) returns (b: seq<Byte>)
    ensures b == EncodeFields(MetricFields(m))
  {
    hide EncodeField, EncodeFields, ValueField;
    b := [];
    ghost var fs: seq<Field> := [];
    assert b == EncodeFields(fs) by { EncodesNone(); }
    if m.name != [] {
      AppendsField(b, fs, BytesField(1, m.name));
      b := AppendBytesField(b, 1, m.name);
      fs := fs + [BytesField(1, m.name)];
    }
    if m.alias != 0 {
      AppendsField(b, fs, VarintField(2, m.alias));
      b := AppendVarintField(b, 2, m.alias);
      fs := fs + [VarintField(2, m.alias)];
    }
    if m.timestamp != 0 {
      AppendsField(b, fs, VarintField(3, m.timestamp));
      b := AppendVarintField(b, 3, m.timestamp);
      fs := fs + [VarintField(3, m.timestamp)];
    }
    if m.dataType != 0 {
      AppendsField(b, fs, VarintField(4, m.dataType));
      b := AppendVarintField(b, 4, m.dataType);
      fs := fs + [VarintField(4, m.dataType)];
    }
    assert fs == HeadFields(m);
    if m.isNull {
      AppendsField(b, fs, VarintField(7, 1));
      b := AppendVarintField(b, 7, 1);
      return;
    }
    if m.value.None? {
      assert fs + [] == fs;
      return;
    }
    AppendsField(b, fs, ValueField(m.dataType, m.value.value));
    b := AppendValue(b, m.dataType, m.value.value);
  }

  lemma EncodesNone()
    ensures EncodeFields([]) == []
  {
  }

  /** One length-delimited field for each metric that is not empty. */
  function MetricsFields(ms: seq<Metric>): seq<Field> {
    if ms == [] then []
    else
      var init := MetricsFields(ms[..|ms| - 1]);
      var mb := EncodeFields(MetricFields(ms[|ms| - 1]));
      if mb == [] then init else init + [BytesField(5, mb)]
  }

  function PayloadFields(sequence: U32, ms: seq<Metric>, now: int): seq<Field> {
    [VarintField(1, ToU64(now)), VarintField(2, sequence)] + MetricsFields(ms)
  }

  /** now is in milliseconds since 1970. */
  method EncodePayload(sequence: U32, ms: seq<Metric>, now: int) returns (b: seq<Byte>)
    ensures b == EncodeFields(PayloadFields(sequence, ms, now))
  {
    hide EncodeField, EncodeFields, MetricsFields;
    ghost var head := [VarintField(1, ToU64(now)), VarintField(2, sequence)];
    b := AppendVarintField([], 1, ToU64(now));
    b := AppendVarintField(b, 2, sequence);
    assert b == EncodeFields(head + MetricsFields(ms[..0])) by {
      EncodesNone();
      AppendsField([], [], head[0]);
      AppendsField(EncodeFields([] + [head[0]]), [] + [head[0]], head[1]);
      assert [] + [head[0]] + [head[1]] == head;
      MetricsNone();
      assert head + [] == head;
    }
    for i := 0 to |ms|
      invariant b == EncodeFields(head + MetricsFields(ms[..i]))
    {
      var mb := EncodeMetric(ms[i]);
      MetricsMore(ms, i);
      if |mb| == 0 {
        continue;
      }
      AppendsField(b, head + MetricsFields(ms[..i]), BytesField(5, mb));
      assert head + MetricsFields(ms[..i]) + [BytesField(5, mb)] == head + MetricsFields(ms[..i + 1]);
      b := AppendBytesField(b, 5, mb);
    }
    assert ms[..|ms|] == ms;
  }

  lemma MetricsNone()
    ensures MetricsFields([]) == []
  {
  }

  lemma MetricsMore(ms: seq<Metric>, i: nat)
    requires i < |ms|
    ensures var mb := EncodeFields(MetricFields(ms[i]));
      MetricsFields(ms[..i + 1]) ==
        if mb == [] then MetricsFields(ms[..i]) else MetricsFields(ms[..i]) + [BytesField(5, mb)]
  {
    assert ms[..i + 1][..i] == ms[..i];
  }

  // The decoder.

  datatype DecodedValue = Double(bits: nat) | Float(bits: nat) | Boolean(truth: bool) | Text(data: seq<Byte>)
    | Unsigned(v: nat) | Signed(whole: int)

  datatype Decoded = Decoded(name: seq<Byte>, alias: nat, timestamp: nat, dataType: nat, isNull: bool,
                             value: Option<DecodedValue>)

  datatype DecodedPayload = DecodedPayload(timestamp: nat, sequence: nat, metrics: seq<Decoded>)

  /** Take one field into a metric; unknown fields are skipped. */
  function Take(d: Decoded, f: Field): Decoded {
    match f
    case BytesField(1, data) => d.(name := data)
    case VarintField(2, v) => d.(alias := v)
    case VarintField(3, v) => d.(timestamp := v)
    case VarintField(4, v) => d.(dataType := v)
    case VarintField(7, v) => d.(isNull := v != 0)
    case Fixed64Field(8, bits) => d.(value := Some(Double(bits)))
    case Fixed32Field(9, bits) => d.(value := Some(Float(bits)))
    case VarintField(10, v) => d.(value := Some(Signed(FromU64(v))))
    case VarintField(11, v) => d.(value := Some(Unsigned(v)))
    case VarintField(12, v) => d.(value := Some(Boolean(v != 0)))
    case BytesField(13, data) => d.(value := Some(Text(data)))
    case _ => d
  }

  function TakeAll(d: Decoded, fs: seq<Field>): Decoded
    decreases |fs|
  {
    if fs == [] then d else TakeAll(Take(d, fs[0]), fs[1..])
  }

  const BLANK := Decoded([], 0, 0, 0, false, None)

  function DecodeMetric(b: seq<Byte>): Option<Decoded> {
    match ReadFields(b)
    case None => None
    case Some(fs) => Some(TakeAll(BLANK, fs))
  }

  function TakePayload(p: DecodedPayload, f: Field): Option<DecodedPayload> {
    match f
    case VarintField(1, v) => Some(p.(timestamp := v))
    case VarintField(2, v) => Some(p.(sequence := v % 0x1_0000_0000))
    case BytesField(5, data) =>
      (match DecodeMetric(data)
       case None => None
       case Some(d) => Some(p.(metrics := p.metrics + [d])))
    case _ => Some(p)
  }

  function TakePayloads(p: DecodedPayload, fs: seq<Field>): Option<DecodedPayload>
    decreases |fs|
  {
    if fs == [] then Some(p)
    else match TakePayload(p, fs[0])
      case None => None
      case Some(p') => TakePayloads(p', fs[1..])
  }

  function DecodePayload(b: seq<Byte>): Option<DecodedPayload> {
    match ReadFields(b)
    case None => None
    case Some(fs) => TakePayloads(DecodedPayload(0, 0, []), fs)
  }

  // What a reader should see of a metric.

  function SeenValue(dataType: int, v: Value): DecodedValue {
    if dataType == DATA_TYPE_DOUBLE then Double(v.doubleBits)
    else if dataType == DATA_TYPE_FLOAT then Float(v.floatBits)
    else if dataType == DATA_TYPE_BOOLEAN then Boolean(v.truth)
    else if dataType == DATA_TYPE_STRING || dataType == DATA_TYPE_TEXT then Text(v.text)
    else if dataType == DATA_TYPE_UINT64 then Unsigned(ToU64(v.whole))
    else Signed(v.whole)
  }

  function Seen(m: Metric): Decoded {
    Decoded(m.name, m.alias, m.timestamp, m.dataType, m.isNull,
      if m.isNull || m.value.None? then None else Some(SeenValue(m.dataType, m.value.value)))
  }

  predicate Empty(m: Metric) {
    m.name == [] && m.alias == 0 && m.timestamp == 0 && m.dataType == 0 && !m.isNull && m.value.None?
  }

  function SeenAll(ms: seq<Metric>): seq<Decoded> {
    if ms == [] then []
    else
      var init := SeenAll(ms[..|ms| - 1]);
      if Empty(ms[|ms| - 1]) then init else init + [Seen(ms[|ms| - 1])]
  }

  lemma {:induction false} TakeAllMore(d: Decoded, a: seq<Field>, b: seq<Field>)
    ensures TakeAll(d, a + b) == TakeAll(TakeAll(d, a), b)
    decreases |a|
  {
    hide Take;
    if a == [] {
      assert a + b == b;
    } else {
      assert (a + b)[1..] == a[1..] + b;
      TakeAllMore(Take(d, a[0]), a[1..], b);
    }
  }

  lemma TakeOne(d: Decoded, f: Field)
    ensures TakeAll(d, [f]) == Take(d, f)
  {
    assert [f][1..] == [];
  }

  lemma TakeNumber(d: Decoded, number: nat, v: nat)
    ensures TakeAll(d, NumberField(number, v)) == if v == 0 then d else Take(d, VarintField(number, v))
  {
    if v != 0 {
      TakeOne(d, VarintField(number, v));
    }
  }

  lemma TakeHead(m: Metric)
    ensures TakeAll(BLANK, HeadFields(m)) == Decoded(m.name, m.alias, m.timestamp, m.dataType, false, None)
  {
    var d1 := BLANK.(name := m.name);
    var d2 := d1.(alias := m.alias);
    var d3 := d2.(timestamp := m.timestamp);
    if m.name != [] {
      TakeOne(BLANK, BytesField(1, m.name));
    }
    assert TakeAll(BLANK, TextField(1, m.name)) == d1;
    TakeNumber(d1, 2, m.alias);
    TakeNumber(d2, 3, m.timestamp);
    TakeNumber(d3, 4, m.dataType);
    hide TakeAll;
    TakeAllMore(BLANK, TextField(1, m.name), NumberField(2, m.alias));
    TakeAllMore(BLANK, TextField(1, m.name) + NumberField(2, m.alias), NumberField(3, m.timestamp));
    TakeAllMore(BLANK, TextField(1, m.name) + NumberField(2, m.alias) + NumberField(3, m.timestamp),
      NumberField(4, m.dataType));
  }

  /** A metric that was encoded decodes to what it says. */
  lemma MetricRoundTrip(m: Metric)
    requires MetricValid(m)
    ensures DecodeMetric(EncodeFields(MetricFields(m))) == Some(Seen(m))
  {
    assert Bound(4) == 256 * Bound(3) == 256 * 256 * Bound(2) == 256 * 256 * 256 * Bound(1);
    assert Bound(8) == 256 * Bound(7) == 256 * 256 * Bound(6) == 256 * 256 * 256 * Bound(5);
    assert Bound(5) == 256 * Bound(4) && Bound(1) == 256 * Bound(0);
    FieldsRead(MetricFields(m));
    TakeHead(m);
    TakeLast(m);
    hide TakeAll, HeadFields, LastField, Seen, ReadFields, EncodeFields;
    TakeAllMore(BLANK, HeadFields(m), LastField(m));
  }

  lemma TakeLast(m: Metric)
    requires MetricValid(m)
    ensures TakeAll(Decoded(m.name, m.alias, m.timestamp, m.dataType, false, None), LastField(m)) == Seen(m)
  {
    var d := Decoded(m.name, m.alias, m.timestamp, m.dataType, false, None);
    if m.isNull {
      TakeOne(d, VarintField(7, 1));
    } else if m.value.Some? {
      var v := m.value.value;
      TakeOne(d, ValueField(m.dataType, v));
      assert FromU64(ToU64(v.whole)) == v.whole;
    }
  }

  lemma EmptyIff(m: Metric)
    ensures EncodeFields(MetricFields(m)) == [] <==> Empty(m)
  {
    assert EncodeFields(MetricFields(m)) == [] <==> MetricFields(m) == [];
  }

  lemma {:induction false} TakePayloadsMore(p: DecodedPayload, a: seq<Field>, b: seq<Field>)
    ensures TakePayloads(p, a + b) ==
      (match TakePayloads(p, a) case None => None case Some(q) => TakePayloads(q, b))
    decreases |a|
  {
    hide TakePayload;
    if a == [] {
      assert a + b == b;
    } else {
      assert (a + b)[1..] == a[1..] + b;
      if TakePayload(p, a[0]).Some? {
        TakePayloadsMore(TakePayload(p, a[0]).value, a[1..], b);
      }
    }
  }

  lemma TakePayloadOne(p: DecodedPayload, f: Field)
    ensures TakePayloads(p, [f]) == TakePayload(p, f)
  {
    assert [f][1..] == [];
  }

  lemma {:induction false} MetricsRoundTrip(p: DecodedPayload, ms: seq<Metric>)
    requires forall i :: 0 <= i < |ms| ==> MetricValid(ms[i])
    ensures TakePayloads(p, MetricsFields(ms)) == Some(p.(metrics := p.metrics + SeenAll(ms)))
  {
    if ms == [] {
      assert p.metrics + [] == p.metrics;
    } else {
      hide TakePayloads, MetricFields, EncodeFields, Empty, Seen, MetricValid;
      var init, m := ms[..|ms| - 1], ms[|ms| - 1];
      MetricsRoundTrip(p, init);
      MetricTaken(p.(metrics := p.metrics + SeenAll(init)), m);
      TakePayloadsMore(p, MetricsFields(init), [BytesField(5, EncodeFields(MetricFields(m)))]);
      assert p.metrics + SeenAll(init) + [Seen(m)] == p.metrics + (SeenAll(init) + [Seen(m)]);
    }
  }

  lemma MetricTaken(p: DecodedPayload, m: Metric)
    requires MetricValid(m)
    ensures EncodeFields(MetricFields(m)) == [] <==> Empty(m)
    ensures TakePayloads(p, [BytesField(5, EncodeFields(MetricFields(m)))])
      == Some(p.(metrics := p.metrics + [Seen(m)]))
  {
    EmptyIff(m);
    MetricRoundTrip(m);
    TakePayloadOne(p, BytesField(5, EncodeFields(MetricFields(m))));
  }

  /** For every sequence number, time and list of metrics, decoding what encodePayload wrote
      gives the time, the sequence number and, in order, what each non-empty metric says. */
  lemma PayloadRoundTrip(sequence: U32, ms: seq<Metric>, now: int)
    requires forall i :: 0 <= i < |ms| ==> MetricValid(ms[i])
    ensures DecodePayload(EncodeFields(PayloadFields(sequence, ms, now)))
      == Some(DecodedPayload(ToU64(now), sequence, SeenAll(ms)))
  {
    hide TakePayloads, TakePayload, MetricsFields, ReadFields, EncodeFields, SeenAll, MetricValid;
    var head := [VarintField(1, ToU64(now)), VarintField(2, sequence)];
    MetricsFieldsValid(ms);
    TakeTimeAndSequence(sequence, now);
    FieldsRead(head + MetricsFields(ms));
    TakePayloadsMore(DecodedPayload(0, 0, []), head, MetricsFields(ms));
    MetricsRoundTrip(DecodedPayload(ToU64(now), sequence, []), ms);
    assert [] + SeenAll(ms) == SeenAll(ms);
  }

  lemma TakeTimeAndSequence(sequence: U32, now: int)
    ensures TakePayloads(DecodedPayload(0, 0, []), [VarintField(1, ToU64(now)), VarintField(2, sequence)])
      == Some(DecodedPayload(ToU64(now), sequence, []))
  {
    var head := [VarintField(1, ToU64(now)), VarintField(2, sequence)];
    assert head[1..] == [VarintField(2, sequence)];
    TakePayloadOne(DecodedPayload(ToU64(now), 0, []), head[1]);
  }

  lemma {:induction false} MetricsFieldsValid(ms: seq<Metric>)
    ensures FieldsValid(MetricsFields(ms))
  {
    if ms != [] {
      MetricsFieldsValid(ms[..|ms| - 1]);
    }
  }

  // Varints of the encoding.

  /** Every varint of the encoding is of a 64-bit number, so it takes at most ten bytes. */
  lemma MetricVarints(m: Metric, i: nat)
    requires i < |MetricFields(m)| && |m.name| < 0x1_0000_0000_0000_0000
    requires m.value.Some? ==> |m.value.value.text| < 0x1_0000_0000_0000_0000
    ensures var f := MetricFields(m)[i];
      && |Varint(Tag(f.number, WireType(f)))| == 1
      && (f.VarintField? ==> |Varint(f.v)| <= 10)
      && (f.BytesField? ==> |Varint(|f.data|)| <= 10)
  {
    var f := MetricFields(m)[i];
    assert Tag(f.number, WireType(f)) < 128;
    if f.VarintField? {
      VarintTen(f.v);
    }
    if f.BytesField? {
      VarintTen(|f.data|);
    }
  }

  // The bytes, by the published numbers.

  function NumberBytes(tag: Byte, v: nat): seq<Byte> {
    if v == 0 then [] else [tag] + Varint(v)
  }

  /** The value of a metric by its datatype number, behind the tag of its field. */
  function ValueBytes(dataType: int, v: Value): seq<Byte> {
    match dataType
    case 10 => [0x41] + Little(v.doubleBits, 8)
    case 9 => [0x4D] + Little(v.floatBits, 4)
    case 11 => [0x60, if v.truth then 1 else 0]
    case 12 => [0x6A] + Varint(|v.text|) + v.text
    case 14 => [0x6A] + Varint(|v.text|) + v.text
    case 8 => [0x58] + Varint(v.whole % 0x1_0000_0000_0000_0000)
    case _ => [0x50] + Varint(v.whole % 0x1_0000_0000_0000_0000)
  }

  /** The encoding of every metric, byte for byte. */
  lemma MetricBytes(m: Metric)
    ensures EncodeFields(MetricFields(m)) ==
      (if m.name == [] then [] else [0x0A] + Varint(|m.name|) + m.name)
      + NumberBytes(0x10, m.alias) + NumberBytes(0x18, m.timestamp) + NumberBytes(0x20, m.dataType)
      + (if m.isNull then [0x38, 1] else if m.value.None? then [] else ValueBytes(m.dataType, m.value.value))
  {
    hide EncodeFields, HeadFields, LastField, ValueBytes, NumberBytes;
    EncodeFieldsMore(HeadFields(m), LastField(m));
    HeadBytes(m);
    LastBytes(m);
  }

  /** A payload begins with time and sequence number, and each metric that is not empty
      adds itself behind its length. */
  lemma PayloadBytes(sequence: U32, ms: seq<Metric>, m: Metric, now: int)
    ensures EncodeFields(PayloadFields(sequence, [], now)) ==
      [0x08] + Varint(now % 0x1_0000_0000_0000_0000) + [0x10] + Varint(sequence)
    ensures var mb := EncodeFields(MetricFields(m));
      EncodeFields(PayloadFields(sequence, ms + [m], now)) ==
        EncodeFields(PayloadFields(sequence, ms, now)) + if mb == [] then [] else [0x2A] + Varint(|mb|) + mb
  {
    hide *;
    PayloadHead(sequence, now);
    MetricsStep(ms, m);
    EncodeFieldsMore(PayloadFields(sequence, ms, now), MetricField(m));
    TextWire(5, 0x2A, EncodeFields(MetricFields(m)));
    PayloadStep(sequence, ms, m, now);
  }

  function MetricField(m: Metric): seq<Field> {
    TextField(5, EncodeFields(MetricFields(m)))
  }

  lemma MetricsStep(ms: seq<Metric>, m: Metric)
    ensures MetricsFields(ms + [m]) == MetricsFields(ms) + MetricField(m)
  {
    hide EncodeFields, MetricFields;
    assert (ms + [m])[..|ms|] == ms;
  }

  lemma PayloadStep(sequence: U32, ms: seq<Metric>, m: Metric, now: int)
    requires MetricsFields(ms + [m]) == MetricsFields(ms) + MetricField(m)
    ensures PayloadFields(sequence, ms + [m], now) == PayloadFields(sequence, ms, now) + MetricField(m)
    ensures MetricField(m) == TextField(5, EncodeFields(MetricFields(m)))
  {
    hide MetricsFields, EncodeFields, MetricFields;
  }

  lemma PayloadHead(sequence: U32, now: int)
    ensures EncodeFields(PayloadFields(sequence, [], now)) ==
      [0x08] + Varint(now % 0x1_0000_0000_0000_0000) + [0x10] + Varint(sequence)
  {
    var time, number := VarintField(1, ToU64(now)), VarintField(2, sequence);
    OneField(time);
    OneField(number);
    hide EncodeFields, Varint;
    EncodeFieldsMore([time], [number]);
    assert [time] + [number] == [time, number] + MetricsFields([]);
  }

  lemma HeadBytes(m: Metric)
    ensures EncodeFields(HeadFields(m)) ==
      (if m.name == [] then [] else [0x0A] + Varint(|m.name|) + m.name)
      + NumberBytes(0x10, m.alias) + NumberBytes(0x18, m.timestamp) + NumberBytes(0x20, m.dataType)
  {
    hide EncodeFields, NumberField, NumberBytes, Varint;
    var a, b := TextField(1, m.name), NumberField(2, m.alias);
    var c, d := NumberField(3, m.timestamp), NumberField(4, m.dataType);
    EncodeFieldsMore(a + b + c, d);
    EncodeFieldsMore(a + b, c);
    EncodeFieldsMore(a, b);
    NumberWire(2, m.alias);
    NumberWire(3, m.timestamp);
    NumberWire(4, m.dataType);
    TextWire(1, 0x0A, m.name);
  }

  lemma TextWire(number: nat, tag: Byte, data: seq<Byte>)
    requires tag == 8 * number + 2 < 128
    ensures EncodeFields(TextField(number, data)) == if data == [] then [] else [tag] + Varint(|data|) + data
  {
    if data != [] {
      OneField(BytesField(number, data));
      hide EncodeField, EncodeFields, Varint;
      assert EncodeFields([BytesField(number, data)]) == [tag] + (Varint(|data|) + data);
      Regroup([tag], Varint(|data|), data);
    }
  }

  lemma Regroup(a: seq<Byte>, b: seq<Byte>, c: seq<Byte>)
    ensures a + b + c == a + (b + c)
  {
  }

  lemma LastBytes(m: Metric)
    ensures EncodeFields(LastField(m)) ==
      if m.isNull then [0x38, 1] else if m.value.None? then [] else ValueBytes(m.dataType, m.value.value)
  {
    if m.isNull {
      OneField(VarintField(7, 1));
    } else if m.value.Some? {
      var f := ValueField(m.dataType, m.value.value);
      OneField(f);
      hide EncodeFields, Little;
      if f.BytesField? { assert [0x6A] + Varint(|f.data|) + f.data == [0x6A] + (Varint(|f.data|) + f.data); }
    }
  }

  lemma OneField(f: Field)
    ensures EncodeFields([f]) == EncodeField(f)
    ensures Tag(f.number, WireType(f)) < 128 ==> EncodeField(f) == [Tag(f.number, WireType(f))] + Payload(f)
  {
    assert [f][1..] == [];
    assert EncodeFields([f]) == EncodeField(f) + [];
  }

  lemma NumberWire(number: nat, v: nat)
    requires 8 * number < 128
    ensures EncodeFields(NumberField(number, v)) == NumberBytes(8 * number, v)
  {
    if v != 0 { OneField(VarintField(number, v)); }
  }
}
