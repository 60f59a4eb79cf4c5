/** What a point's response bytes mean (decodePoint, decodeValue, applyScale of
    internal/driver/modbus/modbus.go), against what the device's memory holds. */
module ModbusPoint {
  import opened ByteOrder
  import opened ModbusDevice
  import opened ReadPlan
  import opened Wrappers

  datatype DataType = Bool | Int16 | UInt16 | Int32 | UInt32 | Float32 | OtherType

  /** A decoded value; a float is its bit pattern. */
  datatype Raw = Flag(on: bool) | Number(dataType: DataType, value: int) | FloatBits(bits: U32)

  /** A scale factor is opaque; NoScale is the factor 0. */
  datatype Scale = NoScale | Factor(bits: nat)

  datatype Value = Plain(raw: Raw) | Scaled(raw: Raw, factor: Scale)

  datatype Address = Unparsable | At(table: Table, register: U16)

  datatype Point = Point(name: string, address: Address, dataType: DataType, scale: Scale)

  datatype DataPoint = BadPoint(name: string) | UncertainPoint(name: string) | GoodPoint(name: string, value: Value)

  datatype PollBlock = PollBlock(start: U16, count: U16)

  datatype Conn = Conn(device: Device, order: Order, pollBlocks: map<Table, seq<PollBlock>>)

  function QuantityOf(dt: DataType): int {
    if dt.Int32? || dt.UInt32? || dt.Float32? then 2 else 1
  }

  function Signed(v: int, half: int): int {
    if v < half then v else v - 2 * half
  }

  function DecodeValue(dt: DataType, raw: seq<Byte>, order: Order): Option<Raw> {
    if dt.Bool? then
      if |raw| < 1 then None else Some(Flag(raw[0] % 2 != 0))
    else if dt.Int16? || dt.UInt16? then
      if |raw| < 2 then None
      else
        var v := raw[0] as int * 256 + raw[1] as int;
        Some(Number(dt, if dt.Int16? then Signed(v, 0x8000) else v))
    else if dt.OtherType? then None
    else if |raw| < 4 then None
    else
      var v: int := Uint32(order, raw);
      if dt.Float32? then Some(FloatBits(v))
      else Some(Number(dt, if dt.Int32? then Signed(v, 0x8000_0000) else v))
  }

  function DecodePoint(f: Table, dt: DataType, it: Item, raw: seq<Byte>, blockStart: int, order: Order): Option<Raw>
    requires Readable(it)
  {
    var distance := Wrap16(it.register - blockStart);
    if IsBits(f) then
      if distance / 8 >= |raw| then None else Some(Flag(BitAt(raw, distance)))
    else
      var end := 2 * distance + 2 * it.quantity;
      if end > |raw| then None else DecodeValue(dt, raw[2 * distance..end], order)
  }

  function ApplyScale(raw: Raw, scale: Scale, dt: DataType): Value {
    if scale.NoScale? || dt.Bool? || raw.Flag? then Plain(raw) else Scaled(raw, scale)
  }

  function Filled(p: Point, decoded: Option<Raw>): DataPoint {
    match decoded
    case None => UncertainPoint(p.name)
    case Some(raw) => GoodPoint(p.name, ApplyScale(raw, p.scale, p.dataType))
  }

  // What a point means, stated on the device's memory alone.

  /** The value the memory holds for a point; None for a type the driver cannot decode. */
  function Meaning(d: Device, order: Order, f: Table, register: int, dt: DataType): Option<Raw> {
    var w := d.word(f, register);
    var both := RegistersUint32(order, w, d.word(f, register + 1));
    if IsBits(f) then Some(Flag(d.bit(f, register)))
    else match dt
      case Bool => Some(Flag((w / 256) % 2 != 0))
      case Int16 => Some(Number(Int16, Signed(w, 0x8000)))
      case UInt16 => Some(Number(UInt16, w))
      case Int32 => Some(Number(Int32, Signed(both, 0x8000_0000)))
      case UInt32 => Some(Number(UInt32, both))
      case Float32 => Some(FloatBits(both))
      case OtherType => None
  }

  function Stored(c: Conn, p: Point): DataPoint
    requires p.address.At?
  {
    Filled(p, Meaning(c.device, c.order, p.address.table, p.address.register, p.dataType))
  }

  /** raw is what the registers or the coil of a point say, register by register. */
  predicate Says(d: Device, order: Order, f: Table, n: int, dt: DataType, raw: Raw) {
    var hi, lo := d.word(f, n), d.word(f, n + 1);
    var hi', lo' := hi % 256 * 256 + hi / 256, lo % 256 * 256 + lo / 256;
    var both := match order
      case ABCD => hi * 65536 + lo
      case CDAB => lo * 65536 + hi
      case BADC => hi' * 65536 + lo'
      case DCBA => lo' * 65536 + hi';
    if f.Coil? || f.Discrete? then raw == Flag(d.bit(f, n))
    else match dt
      case Bool => raw == Flag(hi / 256 % 2 == 1)
      case Int16 => raw == Number(Int16, if hi < 32768 then hi else hi - 65536)
      case UInt16 => raw == Number(UInt16, hi)
      case Int32 => raw == Number(Int32, if both < 2147483648 then both else both - 4294967296)
      case UInt32 => raw == Number(UInt32, both)
      case Float32 => raw == FloatBits(both)
      case OtherType => false
  }

  /** v is the point's value: what its registers say, times its factor if it is a number
      and has one. */
  predicate Given(c: Conn, p: Point, v: Value) {
    && p.address.At?
    && Says(c.device, c.order, p.address.table, p.address.register, p.dataType, v.raw)
    && if v.raw.Flag? || p.scale.NoScale? then v.Plain? else v.Scaled? && v.factor == p.scale
  }

  /** The stored value is given by the memory, exactly for the types the driver knows. */
  lemma StoredIsGiven(c: Conn, p: Point)
    requires p.address.At?
    ensures Stored(c, p).name == p.name && !Stored(c, p).BadPoint?
    ensures Stored(c, p).GoodPoint? <==> !p.dataType.OtherType? || IsBits(p.address.table)
    ensures forall v :: Stored(c, p) == GoodPoint(p.name, v) <==> Given(c, p, v)
  {
  }

  /** Points that differ in their factors only have different values, unless these are
      flags. */
  lemma FactorShows(c: Conn, p: Point, q: Point, v: Value, w: Value)
    requires Given(c, p, v) && Given(c, q, w) && q == p.(scale := q.scale) && p.scale != q.scale
    ensures v == w <==> v.raw.Flag?
    ensures v.raw == w.raw
  {
  }

  function ItemOf(p: Point, index: nat): (it: Item)
    requires p.address.At?
    ensures Readable(it)
  {
    Item(index, p.address.register, QuantityOf(p.dataType))
  }

  /** Decoding from any response that covers the point gives what the memory holds. */
  lemma DecodeInBlock(c: Conn, p: Point, index: nat, start: int, quantity: int)
    requires p.address.At?
    requires Covers(Request(start, quantity), ItemOf(p, index))
    requires Respond(c.device, p.address.table, start, quantity).Some?
    ensures var it, f := ItemOf(p, index), p.address.table;
      Filled(p, DecodePoint(f, p.dataType, it, Respond(c.device, f, start, quantity).value, start, c.order))
        == Stored(c, p)
  {
    var it, f := ItemOf(p, index), p.address.table;
    var raw := Respond(c.device, f, start, quantity).value;
    assert DecodePoint(f, p.dataType, it, raw, start, c.order)
        == Meaning(c.device, c.order, f, it.register, p.dataType) by {
      var k: nat := it.register - start;
      assert Wrap16(k) == k;
      hide Meaning, DecodeValue, Words, Packed, BitAt;
      if IsBits(f) {
        BitInBlock(c.device, f, p.dataType, c.order, start, quantity, k);
      } else {
        RegistersInBlock(c.device, f, p.dataType, c.order, start, quantity, k);
      }
    }
  }

  /** What filling in a point from an answer that may not cover it can give: the stored
      value, no value, or, of a coil, that it is off. */
  ghost predicate Harmless(c: Conn, p: Point, r: DataPoint) {
    && p.address.At?
    && (r == Stored(c, p) || r.BadPoint? || r.UncertainPoint?
        || (IsBits(p.address.table) && r == Filled(p, Some(Flag(false)))))
  }

  /** An answer that begins at or before a point gives the stored value exactly if it
      covers it, for registers; past the end there is none. A coil past the end, but
      within the last byte, reads as off. */
  lemma DecodeBeyond(c: Conn, p: Point, index: nat, start: int, quantity: int)
    requires p.address.At? && start <= p.address.register
    requires Respond(c.device, p.address.table, start, quantity).Some?
    requires !Covers(Request(start, quantity), ItemOf(p, index))
    ensures var it, f := ItemOf(p, index), p.address.table;
      var decoded := DecodePoint(f, p.dataType, it, Respond(c.device, f, start, quantity).value, start, c.order);
      if !IsBits(f) then decoded == None
      else if it.register < start + quantity then Filled(p, decoded) == Stored(c, p)
      else decoded == if (it.register - start) / 8 < (quantity + 7) / 8 then Some(Flag(false)) else None
  {
    hide Packed, BitAt, Words, DecodeValue, Meaning;
    var k: nat := p.address.register - start;
    assert Wrap16(k) == k;
    if IsBits(p.address.table) {
      BitBeyond(c.device, p.address.table, p.dataType, c.order, start, quantity, k);
    }
  }

  lemma BitBeyond(d: Device, f: Table, dt: DataType, order: Order, start: int, quantity: nat, k: nat)
    requires IsBits(f)
    ensures k < quantity ==> Meaning(d, order, f, start + k, dt) == Some(Flag(BitAt(Packed(d, f, start, quantity), k)))
    ensures k >= quantity && k / 8 < (quantity + 7) / 8 ==> !BitAt(Packed(d, f, start, quantity), k)
  {
    hide Packed, BitAt, Meaning;
    if k < quantity {
      BitInBlock(d, f, dt, order, start, quantity, k);
    } else if k / 8 < (quantity + 7) / 8 {
      PaddingAt(d, f, start, quantity, k);
    }
  }

  /** The block of coils 65534 and 65535 asks for the first alone: the second reads as off,
      with good quality, whatever it is. */
  lemma TopCoilReadsOff(c: Conn, p: Point)
    requires p.address == At(Coil, 65535) && p.dataType.Bool? && c.device.bit(Coil, 65535)
    requires Respond(c.device, Coil, 65534, 1).Some?
    ensures var raw := Respond(c.device, Coil, 65534, 1).value;
      && Filled(p, DecodePoint(Coil, Bool, ItemOf(p, 1), raw, 65534, c.order)) == GoodPoint(p.name, Plain(Flag(false)))
      && Stored(c, p) == GoodPoint(p.name, Plain(Flag(true)))
  {
    DecodeBeyond(c, p, 1, 65534, 1);
  }

  lemma FilledIsHarmless(c: Conn, p: Point, index: nat, start: int, quantity: int)
    requires p.address.At? && start <= p.address.register
    requires Respond(c.device, p.address.table, start, quantity).Some?
    ensures var it, f := ItemOf(p, index), p.address.table;
      var raw := Respond(c.device, f, start, quantity).value;
      Harmless(c, p, Filled(p, DecodePoint(f, p.dataType, it, raw, start, c.order)))
  {
    hide DecodePoint, Stored;
    if Covers(Request(start, quantity), ItemOf(p, index)) {
      DecodeInBlock(c, p, index, start, quantity);
    } else {
      DecodeBeyond(c, p, index, start, quantity);
    }
  }

  lemma BitInBlock(d: Device, f: Table, dt: DataType, order: Order, start: int, quantity: nat, k: nat)
    requires IsBits(f) && k < quantity
    ensures Meaning(d, order, f, start + k, dt) == Some(Flag(BitAt(Packed(d, f, start, quantity), k)))
  {
    PackedAt(d, f, start, quantity, k);
  }

  lemma RegistersInBlock(d: Device, f: Table, dt: DataType, order: Order, start: int, quantity: nat, k: nat)
    requires !IsBits(f) && k + QuantityOf(dt) <= quantity
    ensures DecodeValue(dt, Words(d, f, start, quantity)[2 * k..2 * k + 2 * QuantityOf(dt)], order)
      == Meaning(d, order, f, start + k, dt)
  {
    hide DecodeValue, Meaning, Words;
    var raw := Words(d, f, start, quantity);
    WordAt(d, f, start, quantity, k);
    if QuantityOf(dt) == 1 {
      DecodesWords(d, order, f, start + k, dt);
    } else {
      WordAt(d, f, start, quantity, k + 1);
      assert raw[2 * k..2 * k + 4] == raw[2 * k..2 * k + 2] + raw[2 * k + 2..2 * k + 4];
      DecodesWords(d, order, f, start + k, dt);
    }
  }

  lemma DecodesWords(d: Device, order: Order, f: Table, register: int, dt: DataType)
    requires !IsBits(f)
    ensures QuantityOf(dt) == 1 ==>
      DecodeValue(dt, Wire(d.word(f, register)), order) == Meaning(d, order, f, register, dt)
    ensures QuantityOf(dt) == 2 ==>
      DecodeValue(dt, Wire(d.word(f, register)) + Wire(d.word(f, register + 1)), order) ==
        Meaning(d, order, f, register, dt)
  {
    hide Uint32, RegistersUint32, Signed;
    var w: U16, v: U16 := d.word(f, register), d.word(f, register + 1);
    assert w == w / 256 * 256 + w % 256;
    RegistersAgree(order, w, v);
  }
}
