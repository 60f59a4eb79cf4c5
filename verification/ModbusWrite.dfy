/** Encoding values for writing (encodeWriteValue, writeCoil and writeHolding of
    internal/driver/modbus/modbus.go) and reading them back. */
module ModbusWrite {
  import opened ByteOrder
  import opened ModbusDevice
  import opened ModbusPoint
  import opened Wrappers

  /** A written value after unscaling: its integer part and its single-precision bits. */
  datatype Engineering = Numeric(whole: int, bits: U32) | NotNumeric

  predicate InRange(dt: DataType, v: int) {
    match dt
    case Int16 => -0x8000 <= v < 0x8000
    case UInt16 => 0 <= v < 0x1_0000
    case Int32 => -0x8000_0000 <= v < 0x8000_0000
    case UInt32 => 0 <= v < 0x1_0000_0000
    case _ => false
  }

  predicate Encodable(dt: DataType) {
    dt.Int16? || dt.UInt16? || dt.Int32? || dt.UInt32? || dt.Float32?
  }

  /** What reading back a written value should give. */
  function Meant(v: Engineering, dt: DataType): Raw
    requires v.Numeric?
  {
    if dt.Float32? then FloatBits(v.bits) else Number(dt, v.whole)
  }

  /** An integer out of the range of its type is converted as the platform pleases; here
      it wraps. */
  method EncodeWriteValue(v: Engineering, dt: DataType, order: Order) returns (ok: bool, raw: seq<Byte>)
    ensures ok <==> v.Numeric? && Encodable(dt)
    ensures ok ==> |raw| == 2 * QuantityOf(dt)
    ensures ok && (dt.Float32? || InRange(dt, v.whole)) ==> DecodeValue(dt, raw, order) == Some(Meant(v, dt))
  {
    if v.NotNumeric? || !Encodable(dt) {
      return false, [];
    }
    hide Uint32, DecodeValue;
    FitsBack(v.whole, v.bits, dt, order);
    if dt.Int16? || dt.UInt16? {
      return true, Wire(v.whole % 0x1_0000);
    }
    var b := new Byte[4];
    var u: U32 := if dt.Float32? then v.bits else v.whole % 0x1_0000_0000;
    PutUint32(order, b, u);
    return true, b[..];
  }

  /** Both ways of encoding decode to the value. */
  lemma FitsBack(whole: int, bits: U32, dt: DataType, order: Order)
    ensures QuantityOf(dt) == 1 && InRange(dt, whole) ==>
      DecodeValue(dt, Wire(whole % 0x1_0000), order) == Some(Number(dt, whole))
    ensures QuantityOf(dt) == 2 && InRange(dt, whole) ==>
      forall b: seq<Byte> :: |b| == 4 && Uint32(order, b) == whole % 0x1_0000_0000 ==>
        DecodeValue(dt, b, order) == Some(Number(dt, whole))
    ensures forall b: seq<Byte> :: |b| == 4 && dt.Float32? && Uint32(order, b) == bits ==>
      DecodeValue(dt, b, order) == Some(FloatBits(bits))
  {
    hide Uint32;
  }

  function Join(hi: Byte, lo: Byte): (w: U16)
    ensures Wire(w) == [hi, lo]
  {
    hi as int * 256 + lo as int
  }

  function WordAfter(d: Device, register: int, raw: seq<Byte>, f: Table, a: int): U16 {
    var k := a - register;
    if f.Holding? && 0 <= k < |raw| / 2 then Join(raw[2 * k], raw[2 * k + 1]) else d.word(f, a)
  }

  /** Memory after writing raw to holding registers from a start on. */
  function Written(d: Device, register: int, raw: seq<Byte>): Device {
    d.(word := (f: Table, a: int) => WordAfter(d, register, raw, f, a))
  }

  lemma {:induction false} WordsWritten(d: Device, register: int, raw: seq<Byte>, n: nat)
    requires 2 * n <= |raw|
    ensures Words(Written(d, register, raw), Holding, register, n) == raw[..2 * n]
  {
    if n > 0 {
      WordsWritten(d, register, raw, n - 1);
      assert Written(d, register, raw).word(Holding, register + n - 1) == Join(raw[2 * n - 2], raw[2 * n - 1]);
    }
  }

  /** A value that was encoded and written to its registers reads back as itself. */
  lemma ReadBack(d: Device, order: Order, register: int, dt: DataType, raw: seq<Byte>, v: Engineering)
    requires v.Numeric? && |raw| == 2 * QuantityOf(dt) && DecodeValue(dt, raw, order) == Some(Meant(v, dt))
    ensures Meaning(Written(d, register, raw), order, Holding, register, dt) == Some(Meant(v, dt))
  {
    hide Meaning, DecodeValue, Words, Written;
    var q: nat := QuantityOf(dt);
    WordsWritten(d, register, raw, q);
    assert raw[..2 * q] == raw;
    RegistersInBlock(Written(d, register, raw), Holding, dt, order, register, q, 0);
    assert raw[2 * 0..2 * 0 + 2 * q] == raw;
  }
}
