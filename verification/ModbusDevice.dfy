/** What a Modbus device stores and how it answers a read request
    (MODBUS Application Protocol Specification V1.1b3: section 4.2 big-endian registers,
    section 6.1 coil packing and the limit of 2000, section 6.3 the limit of 125). */
module ModbusDevice {
  import opened ByteOrder
  import opened Wrappers

  /** What the driver calls the function of an address. */
  datatype Table = Holding | Input | Coil | Discrete | Unsupported(name: string)

  predicate IsBits(f: Table) {
    f.Coil? || f.Discrete?
  }

  function MaxQuantity(f: Table): (n: int)
    ensures n == match f case Coil => 2000 case Discrete => 2000 case _ => 125
  {
    if IsBits(f) then 2000 else 125
  }

  /** word and bit are the memory; answers says which requests succeed. */
  datatype Device = Device(
    word: (Table, int) -> U16,
    bit: (Table, int) -> bool,
    answers: (Table, int, int) -> bool)

  predicate Legal(f: Table, start: int, quantity: int) {
    0 <= start && 0 < quantity <= MaxQuantity(f) && start + quantity <= 65536
  }

  function Respond(d: Device, f: Table, start: int, quantity: int): Option<seq<Byte>> {
    if f.Unsupported? || !Legal(f, start, quantity) || !d.answers(f, start, quantity) then None
    else if IsBits(f) then Some(Packed(d, f, start, quantity))
    else Some(Words(d, f, start, quantity))
  }

  function Words(d: Device, f: Table, start: int, n: nat): (b: seq<Byte>)
    ensures |b| == 2 * n
  {
    if n == 0 then [] else Words(d, f, start, n - 1) + Wire(d.word(f, start + n - 1))
  }

  lemma {:induction false} WordAt(d: Device, f: Table, start: int, n: nat, k: nat)
    requires k < n
    ensures Words(d, f, start, n)[2 * k..2 * k + 2] == Wire(d.word(f, start + k))
  {
    var all := Words(d, f, start, n);
    var init := Words(d, f, start, n - 1);
    if k < n - 1 {
      WordAt(d, f, start, n - 1, k);
      assert all[2 * k..2 * k + 2] == init[2 * k..2 * k + 2];
    }
  }

  /** Coils, eight to a byte, the first in the lowest bit, the last byte padded with zeros. */
  function Packed(d: Device, f: Table, start: int, n: nat): (b: seq<Byte>)
    ensures |b| == (n + 7) / 8
    decreases n
  {
    if n == 0 then []
    else if n <= 8 then [PackByte(d, f, start, n)]
    else [PackByte(d, f, start, 8)] + Packed(d, f, start + 8, n - 8)
  }

  function Limit(m: nat): int
    requires m <= 8
  {
    if m == 0 then 1 else 2 * Limit(m - 1)
  }

  function PackByte(d: Device, f: Table, start: int, m: nat): (b: Byte)
    requires m <= 8
    ensures b < Limit(m) <= 256
    decreases m
  {
    if m == 0 then 0
    else
      LimitBound(m);
      (if d.bit(f, start) then 1 else 0) + 2 * PackByte(d, f, start + 1, m - 1)
  }

  lemma LimitBound(m: nat)
    requires m <= 8
    ensures Limit(m) <= 256
    decreases 8 - m
  {
    if m < 8 {
      LimitBound(m + 1);
    } else {
      assert Limit(8) == 2 * Limit(7) == 4 * Limit(6) == 8 * Limit(5) == 16 * Limit(4);
      assert Limit(4) == 2 * Limit(3) == 4 * Limit(2) == 8 * Limit(1) == 16 * Limit(0);
    }
  }

  function Shift(v: int, k: nat): int
    decreases k
  {
    if k == 0 then v else Shift(v / 2, k - 1)
  }

  /** raw[i / 8] >> (i % 8) & 1 */
  predicate BitAt(raw: seq<Byte>, i: nat)
    requires i / 8 < |raw|
  {
    Shift(raw[i / 8], i % 8) % 2 == 1
  }

  lemma {:induction false} PackedByte(d: Device, f: Table, start: int, m: nat, k: nat)
    requires k < m <= 8
    ensures Shift(PackByte(d, f, start, m), k) % 2 == (if d.bit(f, start + k) then 1 else 0)
    decreases m
  {
    if k > 0 {
      PackedByte(d, f, start + 1, m - 1, k - 1);
      assert PackByte(d, f, start, m) / 2 == PackByte(d, f, start + 1, m - 1);
    }
  }

  /** Bit i of the packed response is coil i of the request. */
  lemma {:induction false} PackedAt(d: Device, f: Table, start: int, n: nat, i: nat)
    requires i < n
    ensures BitAt(Packed(d, f, start, n), i) <==> d.bit(f, start + i)
    decreases n
  {
    hide PackByte, Shift, Limit;
    if i < 8 {
      assert i / 8 == 0 && i % 8 == i;
      PackedByte(d, f, start, if n <= 8 then n else 8, i);
    } else {
      PackedAt(d, f, start + 8, n - 8, i - 8);
      ByteLater(PackByte(d, f, start, 8), Packed(d, f, start + 8, n - 8), i);
    }
  }

  lemma {:induction false} ShiftedOut(v: int, m: nat, k: nat)
    requires m <= 8 && 0 <= v < Limit(m) && m <= k
    ensures Shift(v, k) == 0
    decreases k
  {
    if m > 0 {
      ShiftedOut(v / 2, m - 1, k - 1);
    } else if k > 0 {
      ShiftedOut(0, 0, k - 1);
    }
  }

  /** Bits of the last byte past the request are off. */
  lemma {:induction false} PaddingAt(d: Device, f: Table, start: int, n: nat, i: nat)
    requires n <= i && i / 8 < |Packed(d, f, start, n)|
    ensures !BitAt(Packed(d, f, start, n), i)
    decreases n
  {
    hide PackByte, Shift, Limit;
    if n <= 8 {
      assert i / 8 == 0 && i % 8 == i;
      ShiftedOut(PackByte(d, f, start, n), n, i);
    } else {
      PaddingAt(d, f, start + 8, n - 8, i - 8);
      ByteLater(PackByte(d, f, start, 8), Packed(d, f, start + 8, n - 8), i);
    }
  }

  lemma ByteLater(b: Byte, rest: seq<Byte>, i: nat)
    requires 8 <= i && (i - 8) / 8 < |rest|
    ensures i / 8 < |[b] + rest| && (BitAt([b] + rest, i) <==> BitAt(rest, i - 8))
  {
    assert i / 8 == (i - 8) / 8 + 1 && i % 8 == (i - 8) % 8;
  }
}
