/** Byte orders of 32-bit values over two registers (internal/driver/byteorder). */
module ByteOrder {
  type Byte = x: int | 0 <= x < 256
  type U16 = x: int | 0 <= x < 65536
  type U32 = x: int | 0 <= x < 0x1_0000_0000

  datatype Order = ABCD | BADC | CDAB | DCBA

  datatype Perm4 = Perm4(p0: nat, p1: nat, p2: nat, p3: nat) {
    predicate Valid() {
      p0 < 4 && p1 < 4 && p2 < 4 && p3 < 4
    }

    function At(i: nat): nat
      requires i < 4
    {
      if i == 0 then p0 else if i == 1 then p1 else if i == 2 then p2 else p3
    }
  }

  /** Where each byte of the value, high byte first, stands on the wire. */
  function Perm(order: Order): (p: Perm4)
    ensures p.Valid()
    ensures forall i: nat :: i < 4 ==> p.At(p.At(i)) == i
  {
    match order
    case CDAB => Perm4(2, 3, 0, 1)
    case BADC => Perm4(1, 0, 3, 2)
    case DCBA => Perm4(3, 2, 1, 0)
    case ABCD => Perm4(0, 1, 2, 3)
  }

  function FromBytes(b0: Byte, b1: Byte, b2: Byte, b3: Byte): U32 {
    ((b0 * 256 + b1) * 256 + b2) * 256 + b3
  }

  function Uint32(order: Order, b: seq<Byte>): U32
    requires |b| >= 4
  {
    var p := Perm(order);
    FromBytes(b[p.p0], b[p.p1], b[p.p2], b[p.p3])
  }

  /** Byte i of a value, high byte first. */
  function ByteOf(v: U32, i: nat): Byte
    requires i < 4
  {
    if i == 0 then v / 0x100_0000 else if i == 1 then (v / 0x1_0000) % 256
    else if i == 2 then (v / 256) % 256 else v % 256
  }

  /** Write v into the caller's buffer. */
  method PutUint32(order: Order, b: array<Byte>, v: U32)
    requires b.Length >= 4
    modifies b
    ensures Uint32(order, b[..]) == v
    ensures forall i :: 4 <= i < b.Length ==> b[i] == old(b[i])
  {
    var p := Perm(order);
    var hi, lo := v / 0x1_0000, v % 0x1_0000;
    assert v / 0x100_0000 == hi / 256 && (v / 256) % 256 == lo / 256 && v % 256 == lo % 256;
    Put(b, p.p0, ByteOf(v, 0), p.p1, ByteOf(v, 1), p.p2, ByteOf(v, 2), p.p3, ByteOf(v, 3));
  }

  method Put(b: array<Byte>, i0: nat, b0: Byte, i1: nat, b1: Byte, i2: nat, b2: Byte, i3: nat, b3: Byte)
    requires b.Length >= 4 && i0 < 4 && i1 < 4 && i2 < 4 && i3 < 4
    requires i0 != i1 && i0 != i2 && i0 != i3 && i1 != i2 && i1 != i3 && i2 != i3
    modifies b
    ensures b[i0] == b0 && b[i1] == b1 && b[i2] == b2 && b[i3] == b3
    ensures forall i :: 4 <= i < b.Length ==> b[i] == old(b[i])
  {
    b[i0] := b0;
    b[i1] := b1;
    b[i2] := b2;
    b[i3] := b3;
  }

  function Swap16(v: U16): U16 {
    (v % 256) * 256 + v / 256
  }

  /** The value of two adjacent registers as read from the bus. */
  function RegistersUint32(order: Order, hi: U16, lo: U16): U32 {
    match order
    case CDAB => lo * 65536 + hi
    case BADC => Swap16(hi) * 65536 + Swap16(lo)
    case DCBA => Swap16(lo) * 65536 + Swap16(hi)
    case ABCD => hi * 65536 + lo
  }

  /** A register on the wire: big-endian. */
  function Wire(r: U16): seq<Byte> {
    [r / 256, r % 256]
  }

  /** Decoding from registers and from wire bytes agree under every order. */
  lemma RegistersAgree(order: Order, hi: U16, lo: U16)
    ensures RegistersUint32(order, hi, lo) == Uint32(order, Wire(hi) + Wire(lo))
  {
    var b := Wire(hi) + Wire(lo);
    assert b[0] == hi / 256 && b[1] == hi % 256 && b[2] == lo / 256 && b[3] == lo % 256;
  }

  /** The four orders are the four combinations of swapping bytes in a register and
      swapping the registers. */
  function FromSwaps(interByte: int, outerOrder: int): Order {
    if interByte != 0 && outerOrder == 0 then BADC
    else if interByte == 0 && outerOrder != 0 then CDAB
    else if interByte != 0 && outerOrder != 0 then DCBA
    else ABCD
  }

  lemma SwapsMean(interByte: int, outerOrder: int, hi: U16, lo: U16)
    ensures var h := if interByte != 0 then Swap16(hi) else hi;
      var l := if interByte != 0 then Swap16(lo) else lo;
      RegistersUint32(FromSwaps(interByte, outerOrder), hi, lo)
        == if outerOrder != 0 then RegistersUint32(ABCD, l, h) else RegistersUint32(ABCD, h, l)
  {
  }
}
