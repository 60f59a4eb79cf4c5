/** Reading points through merged requests or declared poll blocks (Read, readGroup,
    readPollBlocks, fillResult of internal/driver/modbus/modbus.go). */
module ModbusRead {
  import opened ByteOrder
  import opened ModbusDevice
  import opened ModbusPoint
  import opened ReadPlan

  /** A request that covers the point and that the device does not answer. */
  ghost predicate Unanswered(c: Conn, p: Point) {
    && p.address.At?
    && exists r: Request ::
      && Legal(p.address.table, r.start, r.quantity)
      && Covers(r, ItemOf(p, 0))
      && Respond(c.device, p.address.table, r.start, r.quantity).None?
  }

  /** What a merged read may give for a point: the stored value, or bad for want of an answer. */
  ghost predicate MergedRight(c: Conn, p: Point, r: DataPoint) {
    p.address.At? && (r == Stored(c, p) || (r == BadPoint(p.name) && Unanswered(c, p)))
  }

  /** Items belong to the points they name. */
  ghost predicate ItemsOf(points: seq<Point>, f: Table, items: seq<Item>) {
    forall k :: 0 <= k < |items| ==>
      && items[k].index < |points|
      && points[items[k].index].address.At?
      && points[items[k].index].address.table == f
      && items[k] == ItemOf(points[items[k].index], items[k].index)
  }

  ghost predicate Mine(points: seq<Point>, f: Table, i: int) {
    0 <= i < |points| && points[i].address.At? && points[i].address.table == f
  }

  /** The point does not reach register 65535. */
  ghost predicate Ready(points: seq<Point>, f: Table, i: int) {
    Mine(points, f, i) && End(ItemOf(points[i], i)) <= 65535
  }

  /** The request that reads point i covers it: it does not reach register 65535, or every
      point of the table that is near enough to share a request with it does. */
  ghost predicate Clear(points: seq<Point>, f: Table, i: int) {
    && Mine(points, f, i)
    && (Ready(points, f, i)
        || forall j :: Ready(points, f, j) ==> End(ItemOf(points[i], i)) - points[j].address.register > MaxQuantity(f))
  }

  /** Some point of the table reaches past register 65535, so a request that covers it is illegal. */
  ghost predicate Overlong(points: seq<Point>, f: Table) {
    exists j :: Mine(points, f, j) && End(ItemOf(points[j], j)) > 65536
  }

  /** The same for a clear point; one that reaches register 65535 may share a request with
      one that makes it illegal. */
  ghost predicate MergedResult(c: Conn, points: seq<Point>, f: Table, i: int, r: DataPoint)
    requires 0 <= i < |points|
  {
    MergedRight(c, points[i], r) || (r == BadPoint(points[i].name) && !Ready(points, f, i) && Overlong(points, f))
  }

  ghost predicate Named(points: seq<Point>, r: seq<DataPoint>) {
    |r| == |points| && forall i :: 0 <= i < |r| ==> r[i].name == points[i].name
  }

  /** Only results of this table change. */
  ghost predicate OthersKept(points: seq<Point>, f: Table, r0: seq<DataPoint>, r: seq<DataPoint>) {
    |r| == |r0| == |points| && forall i :: 0 <= i < |r| && !Mine(points, f, i) ==> r[i] == r0[i]
  }

  /** Every result is as before or harmless, that of a clear point as before or the stored
      value. */
  ghost predicate OnlyStored(c: Conn, points: seq<Point>, f: Table, r0: seq<DataPoint>, r: seq<DataPoint>) {
    && |r| == |r0| == |points|
    && (forall i :: Mine(points, f, i) ==> r[i] == r0[i] || Harmless(c, points[i], r[i]))
    && forall i :: Clear(points, f, i) ==> r[i] == r0[i] || r[i] == Stored(c, points[i])
  }

  /** The results of the clear items are right for a merged read. */
  ghost predicate ItemsRight(c: Conn, points: seq<Point>, f: Table, items: seq<Item>, r: seq<DataPoint>) {
    |r| == |points| && forall k :: 0 <= k < |items| && Clear(points, f, items[k].index) ==>
      MergedResult(c, points, f, items[k].index, r[items[k].index])
  }

  ghost predicate AllBad(points: seq<Point>, f: Table, r: seq<DataPoint>) {
    |r| == |points| && forall i :: Mine(points, f, i) ==> r[i] == BadPoint(points[i].name)
  }

  method FillResult(c: Conn, points: seq<Point>, f: Table, it: Item, raw: seq<Byte>, blockStart: int,
                    results: array<DataPoint>)
    requires it.index < |points| == results.Length && Mine(points, f, it.index) && Readable(it)
    modifies results
    ensures results[..] == old(results[..])[it.index :=
      Filled(points[it.index], DecodePoint(f, points[it.index].dataType, it, raw, blockStart, c.order))]
  {
    var p := points[it.index];
    results[it.index] := Filled(p, DecodePoint(f, p.dataType, it, raw, blockStart, c.order));
  }

  /** One request of a merged read. */
  method ReadBlock(c: Conn, points: seq<Point>, f: Table, b: Block, results: array<DataPoint>)
    requires ItemsOf(points, f, b.items) && Named(points, results[..]) && Serves(points, f, b)
    modifies results
    ensures Named(points, results[..]) && OthersKept(points, f, old(results[..]), results[..])
    ensures OnlyStored(c, points, f, old(results[..]), results[..])
    ensures OnlyBadOrStored(c, points, f, old(results[..])) ==> ItemsRight(c, points, f, b.items, results[..])
  {
    hide ItemsOf, Named, OthersKept, OnlyStored, Serves, OnlyBadOrStored, ItemsRight, ItemsStored;
    ghost var r0 := results[..];
    var response := Respond(c.device, f, b.start, b.quantity);
    BlockBegins(c, points, f, b, r0);
    if response.Some? {
      for k := 0 to |b.items|
        invariant Named(points, results[..]) && OthersKept(points, f, r0, results[..])
        invariant OnlyStored(c, points, f, r0, results[..])
        invariant ItemsStored(c, points, f, b.items[..k], results[..])
      {
        ItemIsMine(points, f, b.items, k);
        ghost var r := results[..];
        BlockStep(c, points, f, b, k, r0, r);
        FillResult(c, points, f, b.items[k], response.value, b.start, results);
      }
      assert b.items[..|b.items|] == b.items;
      BlockEnds(c, points, f, b.items, results[..]);
    } else {
      BlockFails(c, points, f, b, r0);
    }
  }

  /** Every result is harmless, that of a clear point bad or the stored value. */
  ghost predicate OnlyBadOrStored(c: Conn, points: seq<Point>, f: Table, r: seq<DataPoint>) {
    && |r| == |points|
    && (forall i :: Mine(points, f, i) ==> Harmless(c, points[i], r[i]))
    && forall i :: Clear(points, f, i) ==> r[i] == BadPoint(points[i].name) || r[i] == Stored(c, points[i])
  }

  ghost predicate ItemsStored(c: Conn, points: seq<Point>, f: Table, items: seq<Item>, r: seq<DataPoint>) {
    |r| == |points| && forall k :: 0 <= k < |items| && Clear(points, f, items[k].index) ==>
      r[items[k].index] == Stored(c, points[items[k].index])
  }

  /** The request of a block begins with its items and covers the clear ones; it is legal,
      unless those reach register 65535 and some point is overlong. */
  ghost predicate Serves(points: seq<Point>, f: Table, b: Block) {
    forall k :: 0 <= k < |b.items| ==>
      && b.start <= b.items[k].register
      && (Clear(points, f, b.items[k].index) ==>
            && Covers(Request(b.start, b.quantity), b.items[k])
            && (Legal(f, b.start, b.quantity) || (!Ready(points, f, b.items[k].index) && Overlong(points, f))))
  }

  lemma ItemIsMine(points: seq<Point>, f: Table, items: seq<Item>, k: nat)
    requires ItemsOf(points, f, items) && k < |items|
    ensures Mine(points, f, items[k].index) && Readable(items[k])
    ensures items[k] == ItemOf(points[items[k].index], items[k].index)
  {
  }

  lemma BlockBegins(c: Conn, points: seq<Point>, f: Table, b: Block, r0: seq<DataPoint>)
    requires Named(points, r0)
    ensures OthersKept(points, f, r0, r0) && OnlyStored(c, points, f, r0, r0)
    ensures ItemsStored(c, points, f, b.items[..0], r0)
    ensures |r0| == |points|
  {
  }

  /** Filling in one more item of an answered block. */
  lemma BlockStep(c: Conn, points: seq<Point>, f: Table, b: Block, k: nat, r0: seq<DataPoint>, r: seq<DataPoint>)
    requires ItemsOf(points, f, b.items) && k < |b.items| && Respond(c.device, f, b.start, b.quantity).Some?
    requires Named(points, r) && OthersKept(points, f, r0, r) && Serves(points, f, b)
    requires OnlyStored(c, points, f, r0, r) && ItemsStored(c, points, f, b.items[..k], r)
    ensures |r| == |points| && Mine(points, f, b.items[k].index) && Readable(b.items[k])
    ensures var it := b.items[k]; var p := points[it.index];
      var raw := Respond(c.device, f, b.start, b.quantity).value;
      var r' := r[it.index := Filled(p, DecodePoint(f, p.dataType, it, raw, b.start, c.order))];
      && Named(points, r') && OthersKept(points, f, r0, r')
      && OnlyStored(c, points, f, r0, r') && ItemsStored(c, points, f, b.items[..k + 1], r')
  {
    var it := b.items[k];
    var p := points[it.index];
    FilledIsHarmless(c, p, it.index, b.start, b.quantity);
    if Clear(points, f, it.index) {
      DecodeInBlock(c, p, it.index, b.start, b.quantity);
    }
    hide DecodePoint, Filled, Stored, Clear, Harmless;
    forall m | 0 <= m < k && Clear(points, f, b.items[m].index)
      ensures r[b.items[m].index] == Stored(c, points[b.items[m].index])
    {
      assert b.items[..k][m] == b.items[m];
    }
  }

  lemma BlockEnds(c: Conn, points: seq<Point>, f: Table, items: seq<Item>, r: seq<DataPoint>)
    ensures ItemsStored(c, points, f, items, r) ==> ItemsRight(c, points, f, items, r)
  {
    hide Stored;
    if ItemsStored(c, points, f, items, r) {
      forall k | 0 <= k < |items| && Clear(points, f, items[k].index)
        ensures MergedResult(c, points, f, items[k].index, r[items[k].index])
      {
      }
    }
  }

  lemma BlockFails(c: Conn, points: seq<Point>, f: Table, b: Block, r0: seq<DataPoint>)
    requires ItemsOf(points, f, b.items) && Respond(c.device, f, b.start, b.quantity).None? && Serves(points, f, b)
    ensures OnlyBadOrStored(c, points, f, r0) ==> ItemsRight(c, points, f, b.items, r0)
  {
    if OnlyBadOrStored(c, points, f, r0) {
      forall k | 0 <= k < |b.items| && Clear(points, f, b.items[k].index)
        ensures MergedResult(c, points, f, b.items[k].index, r0[b.items[k].index])
      {
        hide Clear, Overlong, Stored;
        var p := points[b.items[k].index];
        assert Covers(Request(b.start, b.quantity), ItemOf(p, 0));
      }
    }
  }

  // One table.

  /** The items of one table among the first n points, in order. */
  function Grouped(points: seq<Point>, f: Table, n: nat): seq<Item>
    requires n <= |points|
  {
    if n == 0 then []
    else
      var p := points[n - 1];
      Grouped(points, f, n - 1) + if p.address.At? && p.address.table == f then [ItemOf(p, n - 1)] else []
  }

  lemma {:induction false} GroupedItems(points: seq<Point>, f: Table, n: nat)
    requires n <= |points|
    ensures ItemsOf(points, f, Grouped(points, f, n)) && AllReadable(Grouped(points, f, n))
    ensures forall i :: Mine(points, f, i) && i < n ==> ItemOf(points[i], i) in Grouped(points, f, n)
  {
    if n > 0 {
      GroupedItems(points, f, n - 1);
    }
  }

  /** All requests of a plan, block by block. */
  method ReadGroup(c: Conn, points: seq<Point>, f: Table, items: seq<Item>, results: array<DataPoint>)
    requires items == Grouped(points, f, |points|)
    requires Named(points, results[..]) && AllBad(points, f, results[..])
    modifies results
    ensures Named(points, results[..]) && OthersKept(points, f, old(results[..]), results[..])
    ensures forall i :: Mine(points, f, i) ==> Harmless(c, points[i], results[i])
    ensures forall i :: Clear(points, f, i) ==> MergedResult(c, points, f, i, results[i])
  {
    hide Grouped, Named, OthersKept, OnlyStored, OnlyBadOrStored, ItemsRight, AllBad, Clear,
      ItemsOf, AllReadable, Greedy, MergedResult, Serves, Harmless;
    ghost var r0 := results[..];
    GroupedItems(points, f, |points|);
    var blocks := PlanBlocks(items, MaxQuantity(f));
    PlanServes(points, f, items, blocks);
    GroupBegins(c, points, f, r0);
    for n := 0 to |blocks|
      invariant Named(points, results[..]) && OthersKept(points, f, r0, results[..])
      invariant OnlyBadOrStored(c, points, f, results[..])
      invariant forall m :: 0 <= m < n ==> ItemsRight(c, points, f, blocks[m].items, results[..])
    {
      ghost var r := results[..];
      ReadBlock(c, points, f, blocks[n], results);
      GroupStep(c, points, f, r0, r, results[..]);
      forall m | 0 <= m < n ensures ItemsRight(c, points, f, blocks[m].items, results[..]) {
        StaysRight(c, points, f, blocks[m].items, r, results[..]);
      }
    }
    AllHarmless(c, points, f, results[..]);
    GroupEnds(c, points, f, items, blocks, results[..]);
  }

  lemma GroupBegins(c: Conn, points: seq<Point>, f: Table, r0: seq<DataPoint>)
    requires AllBad(points, f, r0)
    ensures OthersKept(points, f, r0, r0) && OnlyBadOrStored(c, points, f, r0)
  {
  }

  lemma AllHarmless(c: Conn, points: seq<Point>, f: Table, r: seq<DataPoint>)
    requires OnlyBadOrStored(c, points, f, r)
    ensures |r| == |points| && forall i :: Mine(points, f, i) ==> Harmless(c, points[i], r[i])
  {
    hide Harmless;
  }

  lemma GroupStep(c: Conn, points: seq<Point>, f: Table, r0: seq<DataPoint>, r: seq<DataPoint>, r': seq<DataPoint>)
    requires OthersKept(points, f, r0, r) && OthersKept(points, f, r, r')
    ensures OthersKept(points, f, r0, r')
    ensures OnlyBadOrStored(c, points, f, r) && OnlyStored(c, points, f, r, r') ==> OnlyBadOrStored(c, points, f, r')
  {
  }

  lemma StaysRight(c: Conn, points: seq<Point>, f: Table, items: seq<Item>, r: seq<DataPoint>, r': seq<DataPoint>)
    requires ItemsOf(points, f, items) && ItemsRight(c, points, f, items, r) && OnlyStored(c, points, f, r, r')
    ensures ItemsRight(c, points, f, items, r')
  {
    hide Stored, Clear, Harmless, Overlong;
    forall k | 0 <= k < |items| && Clear(points, f, items[k].index)
      ensures MergedResult(c, points, f, items[k].index, r'[items[k].index])
    {
      ItemIsMine(points, f, items, k);
    }
  }

  /** Every block of the plan is of this table and serves its clear points. */
  lemma PlanServes(points: seq<Point>, f: Table, items: seq<Item>, blocks: seq<Block>)
    requires ItemsOf(points, f, items) && AllReadable(items)
    requires Greedy(blocks, MaxQuantity(f)) && multiset(Flatten(blocks)) == multiset(items)
    ensures forall n :: 0 <= n < |blocks| ==> ItemsOf(points, f, blocks[n].items) && Serves(points, f, blocks[n])
  {
    hide Serves;
    forall n | 0 <= n < |blocks| ensures ItemsOf(points, f, blocks[n].items) && Serves(points, f, blocks[n]) {
      ItemsOfBlock(blocks, n);
      forall k | 0 <= k < |blocks[n].items| ensures blocks[n].items[k] in items {
        assert blocks[n].items[k] in multiset(Flatten(blocks));
      }
      BlockServes(points, f, items, blocks[n]);
    }
  }

  lemma BlockServes(points: seq<Point>, f: Table, items: seq<Item>, b: Block)
    requires ItemsOf(points, f, items) && AllReadable(items)
    requires Planned(b, MaxQuantity(f)) && forall k :: 0 <= k < |b.items| ==> b.items[k] in items
    ensures ItemsOf(points, f, b.items) && Serves(points, f, b)
  {
    hide BlockEnd, Clear;
    PlannedFacts(b, MaxQuantity(f));
    assert Readable(b.items[0]) && WithinLimit(b.items, MaxQuantity(f));
    forall k | 0 <= k < |b.items| && Clear(points, f, b.items[k].index)
      ensures Covers(Request(b.start, b.quantity), b.items[k])
      ensures Legal(f, b.start, b.quantity) || (!Ready(points, f, b.items[k].index) && Overlong(points, f))
    {
      if EndPast(b.items) {
        CoversWrapped(b, MaxQuantity(f));
        assert Mine(points, f, b.items[k].index);
        if !EndBy(b.items, 65536) { assert Overlong(points, f); }
      } else {
        CoversReady(b, MaxQuantity(f), k);
        ClearIsReady(points, f, b, k);
      }
    }
  }

  lemma ClearIsReady(points: seq<Point>, f: Table, b: Block, k: nat)
    requires ItemsOf(points, f, b.items) && Planned(b, MaxQuantity(f)) && WithinLimit(b.items, MaxQuantity(f))
    requires k < |b.items| && Clear(points, f, b.items[k].index) && !EndPast(b.items)
    ensures End(b.items[k]) <= 65535
  {
    hide BlockEnd;
    PlannedFacts(b, MaxQuantity(f));
    var n :| 0 <= n < |b.items| && End(b.items[n]) <= 65535;
    assert Ready(points, f, b.items[n].index);
    assert End(b.items[k]) - b.start <= MaxQuantity(f);
  }

  lemma GroupEnds(c: Conn, points: seq<Point>, f: Table, items: seq<Item>, blocks: seq<Block>, r: seq<DataPoint>)
    requires items == Grouped(points, f, |points|) && multiset(Flatten(blocks)) == multiset(items)
    requires |r| == |points| && forall m :: 0 <= m < |blocks| ==> ItemsRight(c, points, f, blocks[m].items, r)
    ensures forall i :: Clear(points, f, i) ==> 0 <= i < |r| && MergedResult(c, points, f, i, r[i])
  {
    hide Grouped, MergedResult, Ready;
    forall i | Clear(points, f, i) ensures 0 <= i < |r| && MergedResult(c, points, f, i, r[i]) {
      GroupedItems(points, f, |points|);
      var it := ItemOf(points[i], i);
      assert Mine(points, f, i) && it in multiset(Flatten(blocks));
      var m, k := BlockOf(blocks, it);
      assert ItemsRight(c, points, f, blocks[m].items, r);
    }
  }

  // Declared poll blocks.

  predicate PointInBlock(it: Item, b: PollBlock) {
    it.register >= b.start && Wrap16(it.register + it.quantity) <= Wrap16(b.start as int + b.count as int)
  }

  predicate Holds(b: PollBlock, it: Item) {
    b.start as int + b.count as int <= 65535 && Covers(Request(b.start, b.count), it)
  }

  /** Without wrap in the point, the 16-bit test holds exactly when the block holds the
      point and does not itself wrap. */
  lemma PointInBlockIff(it: Item, b: PollBlock)
    requires Readable(it) && End(it) <= 65535
    ensures PointInBlock(it, b) <==> Holds(b, it)
  {
    var sum := b.start as int + b.count as int;
    assert Wrap16(End(it)) == End(it);
    if sum > 65535 {
      assert Wrap16(sum) == sum - 65536 <= b.start;
    }
  }

  /** Some answered block holds the point. */
  ghost predicate InAnswered(c: Conn, p: Point, blocks: seq<PollBlock>) {
    p.address.At? && exists n :: 0 <= n < |blocks| && Hits(c, p, blocks[n])
  }

  ghost predicate Hits(c: Conn, p: Point, b: PollBlock) {
    && p.address.At?
    && Holds(b, ItemOf(p, 0))
    && Respond(c.device, p.address.table, b.start, b.count).Some?
  }

  ghost predicate PollRight(c: Conn, p: Point, blocks: seq<PollBlock>, r: DataPoint) {
    p.address.At? && r == if InAnswered(c, p, blocks) then Stored(c, p) else BadPoint(p.name)
  }

  ghost predicate AllPollRight(c: Conn, points: seq<Point>, f: Table, blocks: seq<PollBlock>, r: seq<DataPoint>) {
    && |r| == |points|
    && (forall i :: Mine(points, f, i) ==> Harmless(c, points[i], r[i]))
    && forall i :: Ready(points, f, i) ==> PollRight(c, points[i], blocks, r[i])
  }

  /** The first results of a block: those it hits, and only those, hold the stored value. */
  ghost predicate HitsStored(c: Conn, points: seq<Point>, f: Table, items: seq<Item>, b: PollBlock,
                             r0: seq<DataPoint>, r: seq<DataPoint>)
  {
    && |r| == |r0| == |points|
    && (forall i :: Mine(points, f, i) ==> r[i] == r0[i] || Harmless(c, points[i], r[i]))
    && (forall i :: Ready(points, f, i) ==> r[i] == r0[i] || (Hits(c, points[i], b) && r[i] == Stored(c, points[i])))
    && forall k :: 0 <= k < |items| && Ready(points, f, items[k].index) ==>
      (Hits(c, points[items[k].index], b) ==> r[items[k].index] == Stored(c, points[items[k].index]))
  }

  method ReadPollBlock(c: Conn, points: seq<Point>, f: Table, b: PollBlock, items: seq<Item>, results: array<DataPoint>)
    requires ItemsOf(points, f, items) && Named(points, results[..])
    modifies results
    ensures Named(points, results[..]) && OthersKept(points, f, old(results[..]), results[..])
    ensures HitsStored(c, points, f, items, b, old(results[..]), results[..])
  {
    hide ItemsOf, Named, OthersKept, HitsStored, Ready, PointInBlock, Harmless;
    ghost var r0 := results[..];
    PollBegins(c, points, f, items, b, r0);
    var response := Respond(c.device, f, b.start, b.count);
    if response.Some? {
      for k := 0 to |items|
        invariant Named(points, results[..]) && OthersKept(points, f, r0, results[..])
        invariant HitsStored(c, points, f, items[..k], b, r0, results[..])
      {
        PollStep(c, points, f, b, items, k, r0, results[..]);
        if PointInBlock(items[k], b) {
          FillResult(c, points, f, items[k], response.value, b.start, results);
        }
      }
      assert items[..|items|] == items;
    }
  }

  lemma PollBegins(c: Conn, points: seq<Point>, f: Table, items: seq<Item>, b: PollBlock, r0: seq<DataPoint>)
    requires Named(points, r0)
    ensures |r0| == |points| && OthersKept(points, f, r0, r0) && HitsStored(c, points, f, items[..0], b, r0, r0)
    ensures Respond(c.device, f, b.start, b.count).None? ==> HitsStored(c, points, f, items, b, r0, r0)
  {
  }

  lemma PollStep(c: Conn, points: seq<Point>, f: Table, b: PollBlock, items: seq<Item>, k: nat,
                 r0: seq<DataPoint>, r: seq<DataPoint>)
    requires ItemsOf(points, f, items) && k < |items| && Respond(c.device, f, b.start, b.count).Some?
    requires Named(points, r) && OthersKept(points, f, r0, r)
    requires HitsStored(c, points, f, items[..k], b, r0, r)
    ensures |r| == |points| && Mine(points, f, items[k].index) && Readable(items[k])
    ensures var it := items[k]; var p := points[it.index];
      var raw := Respond(c.device, f, b.start, b.count).value;
      var r' := if PointInBlock(it, b)
                then r[it.index := Filled(p, DecodePoint(f, p.dataType, it, raw, b.start, c.order))]
                else r;
      && Named(points, r') && OthersKept(points, f, r0, r')
      && HitsStored(c, points, f, items[..k + 1], b, r0, r')
  {
    var it := items[k];
    var p := points[it.index];
    ItemIsMine(points, f, items, k);
    if PointInBlock(it, b) { FilledIsHarmless(c, p, it.index, b.start, b.count); }
    if Ready(points, f, it.index) {
      PointInBlockIff(it, b);
      if Holds(b, it) {
        DecodeInBlock(c, p, it.index, b.start, b.count);
      }
    }
    hide DecodePoint, Filled, Stored, PointInBlock, Harmless;
    assert items[..k + 1] == items[..k] + [it];
  }

  method ReadPollBlocks(c: Conn, points: seq<Point>, f: Table, blocks: seq<PollBlock>, items: seq<Item>,
                        results: array<DataPoint>)
    requires items == Grouped(points, f, |points|)
    requires Named(points, results[..]) && AllBad(points, f, results[..])
    modifies results
    ensures Named(points, results[..]) && OthersKept(points, f, old(results[..]), results[..])
    ensures AllPollRight(c, points, f, blocks, results[..])
  {
    hide Grouped, Named, OthersKept, HitsStored, AllBad, ItemsOf, AllReadable, AllPollRight;
    ghost var r0 := results[..];
    GroupedItems(points, f, |points|);
    PollNone(c, points, f, r0);
    for n := 0 to |blocks|
      invariant Named(points, results[..]) && OthersKept(points, f, r0, results[..])
      invariant AllPollRight(c, points, f, blocks[..n], results[..])
    {
      ghost var r := results[..];
      ReadPollBlock(c, points, f, blocks[n], items, results);
      GroupStep(c, points, f, r0, r, results[..]);
      assert blocks[..n + 1] == blocks[..n] + [blocks[n]];
      PollMore(c, points, f, blocks[..n], blocks[n], items, r, results[..]);
    }
    assert blocks[..|blocks|] == blocks;
  }

  lemma PollNone(c: Conn, points: seq<Point>, f: Table, r0: seq<DataPoint>)
    requires AllBad(points, f, r0)
    ensures AllPollRight(c, points, f, [], r0) && OthersKept(points, f, r0, r0)
  {
  }

  lemma PollMore(c: Conn, points: seq<Point>, f: Table, blocks: seq<PollBlock>, b: PollBlock, items: seq<Item>,
                 r: seq<DataPoint>, r': seq<DataPoint>)
    requires items == Grouped(points, f, |points|)
    requires AllPollRight(c, points, f, blocks, r) && HitsStored(c, points, f, items, b, r, r')
    ensures AllPollRight(c, points, f, blocks + [b], r')
  {
    hide Harmless;
    forall i | Ready(points, f, i) ensures PollRight(c, points[i], blocks + [b], r'[i]) {
      GroupedItems(points, f, |points|);
      assert Mine(points, f, i);
      var k :| 0 <= k < |items| && items[k] == ItemOf(points[i], i);
      assert PollRight(c, points[i], blocks, r[i]);
      InAnsweredMore(c, points[i], blocks, b);
    }
  }

  lemma InAnsweredMore(c: Conn, p: Point, blocks: seq<PollBlock>, b: PollBlock)
    ensures InAnswered(c, p, blocks + [b]) <==> InAnswered(c, p, blocks) || Hits(c, p, b)
  {
    var all := blocks + [b];
    if InAnswered(c, p, all) {
      var n :| 0 <= n < |all| && Hits(c, p, all[n]);
      assert n < |blocks| ==> blocks[n] == all[n];
    }
    if InAnswered(c, p, blocks) {
      var n :| 0 <= n < |blocks| && Hits(c, p, blocks[n]);
      assert all[n] == blocks[n];
    }
    if Hits(c, p, b) {
      assert all[|blocks|] == b;
    }
  }

  // All tables.

  /** What Read may give for a point. */
  ghost predicate Right(c: Conn, p: Point, r: DataPoint) {
    if p.address.Unparsable? then r == BadPoint(p.name)
    else if p.address.table in c.pollBlocks then PollRight(c, p, c.pollBlocks[p.address.table], r)
    else MergedRight(c, p, r)
  }

  /** What Read gives for point i: right, if it does not reach register 65535; otherwise
      harmless, and right as well if the table has no declared blocks and the point is clear. */
  ghost predicate Result(c: Conn, points: seq<Point>, i: nat, r: DataPoint)
    requires i < |points|
  {
    if points[i].address.Unparsable? then r == BadPoint(points[i].name)
    else
      var f := points[i].address.table;
      && Harmless(c, points[i], r)
      && (Ready(points, f, i) ==> Right(c, points[i], r))
      && (f !in c.pollBlocks && Clear(points, f, i) ==> MergedResult(c, points, f, i, r))
  }

  ghost predicate GroupsAre(points: seq<Point>, n: nat, groups: map<Table, seq<Item>>) {
    n <= |points| && forall f: Table ::
      && (f in groups <==> Grouped(points, f, n) != [])
      && (f in groups ==> groups[f] == Grouped(points, f, n))
  }

  /** Tables not in todo are read, those in todo are still all bad. */
  ghost predicate ReadSoFar(c: Conn, points: seq<Point>, todo: set<Table>, r: seq<DataPoint>) {
    |r| == |points| && forall i :: 0 <= i < |r| ==>
      if points[i].address.Unparsable? || points[i].address.table in todo then r[i] == BadPoint(points[i].name)
      else Result(c, points, i, r[i])
  }

  method Read(c: Conn, points: seq<Point>) returns (out: seq<DataPoint>)
    ensures Named(points, out)
    ensures forall i :: 0 <= i < |points| ==> Result(c, points, i, out[i])
    ensures forall i :: 0 <= i < |points| && out[i].GoodPoint? ==>
      Given(c, points[i], out[i].value) || MayReadOff(points[i], out[i].value)
    ensures forall i :: 0 <= i < |points| && MustMatch(c, points, i) ==> out[i] == Alone(c, points[i])
  {
    var results := new DataPoint[|points|](i requires 0 <= i < |points| => BadPoint(points[i].name));
    var groups := Group(points);
    var todo := groups.Keys;
    assert ReadSoFar(c, points, todo, results[..]) && Named(points, results[..]) by {
      Begins(c, points, groups, results[..]);
    }
    while todo != {}
      invariant todo <= groups.Keys && Named(points, results[..]) && ReadSoFar(c, points, todo, results[..])
    {
      hide ReadSoFar, Named, OthersKept, MergedResult, Harmless, AllPollRight, AllBad, Clear, Result, Grouped;
      var f :| f in todo;
      ghost var r := results[..];
      if f in c.pollBlocks {
        ReadPollBlocks(c, points, f, c.pollBlocks[f], groups[f], results);
      } else {
        ReadGroup(c, points, f, groups[f], results);
      }
      TableEnds(c, points, todo, f, r, results[..]);
      todo := todo - {f};
    }
    out := results[..];
    AllRead(c, points, out);
    forall i | 0 <= i < |points| && out[i].GoodPoint?
      ensures Given(c, points[i], out[i].value) || MayReadOff(points[i], out[i].value)
    {
      ResultIsGiven(c, points, i, out[i]);
    }
    forall i | 0 <= i < |points| && MustMatch(c, points, i) ensures out[i] == Alone(c, points[i]) {
      MatchesAlone(c, points, i, out);
    }
  }

  /** The one wrong value: a coil that reaches register 65535 and reads as off. */
  predicate MayReadOff(p: Point, v: Value) {
    && p.address.At? && (p.address.table.Coil? || p.address.table.Discrete?)
    && End(ItemOf(p, 0)) > 65535 && v == Plain(Flag(false))
  }

  /** A good result is what the registers say, times the point's own factor. A point that
      does not reach register 65535 has a good result or is bad, unless its type is one the
      driver does not decode. */
  lemma ResultIsGiven(c: Conn, points: seq<Point>, i: nat, r: DataPoint)
    requires i < |points| && Result(c, points, i, r)
    ensures r.GoodPoint? ==> Given(c, points[i], r.value) || MayReadOff(points[i], r.value)
    ensures points[i].address.At? && Ready(points, points[i].address.table, i) && r.UncertainPoint? ==>
      points[i].dataType.OtherType?
  {
    if points[i].address.At? {
      hide Stored, Unanswered, InAnswered, Clear, Given;
      StoredIsGiven(c, points[i]);
    }
  }

  lemma AllRead(c: Conn, points: seq<Point>, r: seq<DataPoint>)
    requires ReadSoFar(c, points, {}, r)
    ensures forall i :: 0 <= i < |points| ==> Result(c, points, i, r[i])
  {
    hide Result;
    forall i | 0 <= i < |points| ensures Result(c, points, i, r[i]) {
      if points[i].address.At? {
        assert points[i].address.table !in {};
      } else {
        UnparsableIsBad(c, points, i, r[i]);
      }
    }
  }

  lemma UnparsableIsBad(c: Conn, points: seq<Point>, i: nat, r: DataPoint)
    requires i < |points| && points[i].address.Unparsable? && r == BadPoint(points[i].name)
    ensures Result(c, points, i, r)
  {
  }

  /** Point i has no declared blocks, its table answers every legal request, and the point
      is clear; if it reaches register 65535, no point makes its request illegal. */
  ghost predicate MustMatch(c: Conn, points: seq<Point>, i: nat)
    requires i < |points|
  {
    && points[i].address.At?
    && points[i].address.table !in c.pollBlocks
    && AnswersAll(c.device, points[i].address.table)
    && Clear(points, points[i].address.table, i)
    && (Ready(points, points[i].address.table, i) || !Overlong(points, points[i].address.table))
  }

  lemma MatchesAlone(c: Conn, points: seq<Point>, i: nat, r: seq<DataPoint>)
    requires i < |points| && MustMatch(c, points, i) && ReadSoFar(c, points, {}, r)
    ensures r[i] == Alone(c, points[i])
  {
    AllRead(c, points, r);
    var it := ItemOf(points[i], i);
    assert Mine(points, points[i].address.table, i);
    assert End(it) <= 65536;
    MergedEqualsAlone(c, points[i], r[i]);
  }

  /** Points by table, each with its place in the input. */
  method Group(points: seq<Point>) returns (groups: map<Table, seq<Item>>)
    ensures GroupsAre(points, |points|, groups)
  {
    groups := map[];
    for n := 0 to |points|
      invariant GroupsAre(points, n, groups)
    {
      hide GroupsAre;
      var p := points[n];
      if p.address.At? {
        groups := Appended(groups, p.address.table, ItemOf(p, n));
      }
    }
  }

  function Appended(groups: map<Table, seq<Item>>, f: Table, it: Item): map<Table, seq<Item>> {
    groups[f := (if f in groups then groups[f] else []) + [it]]
  }

  lemma Begins(c: Conn, points: seq<Point>, groups: map<Table, seq<Item>>, r: seq<DataPoint>)
    requires GroupsAre(points, |points|, groups)
    requires |r| == |points| && forall i :: 0 <= i < |r| ==> r[i] == BadPoint(points[i].name)
    ensures ReadSoFar(c, points, groups.Keys, r) && Named(points, r)
  {
    forall i | 0 <= i < |r| && points[i].address.At? ensures points[i].address.table in groups {
      GroupedItems(points, points[i].address.table, |points|);
      assert Mine(points, points[i].address.table, i);
    }
  }

  lemma TableEnds(c: Conn, points: seq<Point>, todo: set<Table>, f: Table, r: seq<DataPoint>, r': seq<DataPoint>)
    requires ReadSoFar(c, points, todo, r) && OthersKept(points, f, r, r') && f in todo
    requires if f in c.pollBlocks then AllPollRight(c, points, f, c.pollBlocks[f], r')
      else
        && (forall i :: Mine(points, f, i) ==> Harmless(c, points[i], r'[i]))
        && forall i :: Clear(points, f, i) ==> MergedResult(c, points, f, i, r'[i])
    ensures ReadSoFar(c, points, todo - {f}, r')
  {
    hide MergedResult, Harmless, PollRight, Clear, Ready, Result;
    forall i | 0 <= i < |r'|
      ensures
        if points[i].address.Unparsable? || points[i].address.table in todo - {f}
        then r'[i] == BadPoint(points[i].name)
        else Result(c, points, i, r'[i])
    {
      if Mine(points, f, i) {
        assert f !in todo - {f};
        TableResult(c, points, f, i, r'[i]);
      } else {
        assert r'[i] == r[i];
      }
    }
  }

  lemma TableResult(c: Conn, points: seq<Point>, f: Table, i: nat, r: DataPoint)
    requires Mine(points, f, i) && Harmless(c, points[i], r)
    requires if f in c.pollBlocks then Ready(points, f, i) ==> PollRight(c, points[i], c.pollBlocks[f], r)
      else Clear(points, f, i) ==> MergedResult(c, points, f, i, r)
    ensures Result(c, points, i, r)
  {
    hide Harmless, PollRight, MergedRight;
  }

  // Reading a point alone.

  /** The device answers every legal request on a table of its own. */
  ghost predicate AnswersAll(d: Device, f: Table) {
    !f.Unsupported? && forall start, quantity :: Legal(f, start, quantity) ==> d.answers(f, start, quantity)
  }

  /** A point alone, no poll blocks: exactly its own registers are requested. */
  function Alone(c: Conn, p: Point): DataPoint {
    if p.address.Unparsable? then BadPoint(p.name)
    else
      var it, f := ItemOf(p, 0), p.address.table;
      match Respond(c.device, f, it.register, it.quantity)
      case None => BadPoint(p.name)
      case Some(raw) => Filled(p, DecodePoint(f, p.dataType, it, raw, it.register, c.order))
  }

  lemma AloneIsStored(c: Conn, p: Point)
    requires p.address.At? && Respond(c.device, p.address.table, p.address.register, QuantityOf(p.dataType)).Some?
    ensures Alone(c, p) == Stored(c, p)
  {
    DecodeInBlock(c, p, 0, p.address.register, QuantityOf(p.dataType));
  }

  /** From a device that answers every legal request, a merged read gives every point what
      a read of that point alone gives. */
  lemma MergedEqualsAlone(c: Conn, p: Point, r: DataPoint)
    requires p.address.At? && p.address.register + QuantityOf(p.dataType) <= 65536
    requires AnswersAll(c.device, p.address.table) && MergedRight(c, p, r)
    ensures r == Alone(c, p)
  {
    AloneIsStored(c, p);
  }

  /** Whatever the device leaves unanswered, a read never gives a wrong value: if the point
      can be read alone, the result is that value or bad. */
  lemma NeverWrong(c: Conn, p: Point, r: DataPoint)
    requires p.address.At? && Right(c, p, r)
    requires Respond(c.device, p.address.table, p.address.register, QuantityOf(p.dataType)).Some?
    ensures r == Alone(c, p) || r == BadPoint(p.name)
  {
    AloneIsStored(c, p);
  }
}
