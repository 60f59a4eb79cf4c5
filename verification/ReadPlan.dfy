/** Merging points into few read requests (planBlocks of
    internal/driver/modbus/modbus.go). Register arithmetic is 16 bits wide. */
module ReadPlan {
  function Wrap16(x: int): int {
    x % 65536
  }

  /** A point to read: where, how many registers or coils, and its place in the input. */
  datatype Item = Item(index: nat, register: int, quantity: int)

  /** What parsing an address and the point's type give: 16-bit numbers. */
  predicate Readable(it: Item) {
    0 <= it.register < 65536 && 0 < it.quantity < 65536
  }

  ghost predicate AllReadable(s: seq<Item>) {
    forall i :: 0 <= i < |s| ==> Readable(s[i])
  }

  datatype Block = Block(start: int, quantity: int, items: seq<Item>)

  /** One past the last register, without wrap-around. */
  function End(it: Item): int {
    it.register + it.quantity
  }

  ghost predicate Sorted(s: seq<Item>) {
    forall i, j :: 0 <= i < j < |s| ==> s[i].register <= s[j].register
  }

  /** Sort by register; equal registers may come in any order. */
  method SortByRegister(items: seq<Item>) returns (s: seq<Item>)
    ensures Sorted(s) && multiset(s) == multiset(items)
  {
    s := [];
    for n := 0 to |items|
      invariant Sorted(s) && multiset(s) == multiset(items[..n])
    {
      hide Sorted;
      assert items[..n + 1] == items[..n] + [items[n]];
      s := InsertSorted(s, items[n]);
    }
    assert items[..|items|] == items;
  }

  method InsertSorted(s: seq<Item>, it: Item) returns (t: seq<Item>)
    requires Sorted(s)
    ensures Sorted(t) && multiset(t) == multiset(s) + multiset{it}
  {
    var p := |s|;
    while p > 0 && it.register < s[p - 1].register
      invariant 0 <= p <= |s|
      invariant forall i :: p <= i < |s| ==> it.register < s[i].register
    {
      hide Sorted;
      p := p - 1;
    }
    t := s[..p] + [it] + s[p..];
    InsertKeepsOrder(s, p, it);
    InsertAdds(s, p, it);
  }

  lemma InsertAdds<T>(s: seq<T>, p: nat, x: T)
    requires p <= |s|
    ensures multiset(s[..p] + [x] + s[p..]) == multiset(s) + multiset{x}
  {
    assert s == s[..p] + s[p..];
  }

  lemma InsertKeepsOrder(s: seq<Item>, p: nat, it: Item)
    requires Sorted(s) && p <= |s|
    requires p > 0 ==> s[p - 1].register <= it.register
    requires forall i :: p <= i < |s| ==> it.register < s[i].register
    ensures Sorted(s[..p] + [it] + s[p..])
  {
    var t := s[..p] + [it] + s[p..];
    forall i, j | 0 <= i < j < |t| ensures t[i].register <= t[j].register {
      assert i < p && p - 1 != i ==> s[i].register <= s[p - 1].register;
    }
  }

  /** The end of a block as the loop computes it, wrapped to 16 bits. */
  function BlockEnd(items: seq<Item>): int
    requires items != []
  {
    var e := Wrap16(End(items[|items| - 1]));
    if |items| == 1 then e
    else
      var prev := BlockEnd(items[..|items| - 1]);
      if e > prev then e else prev
  }

  /** A block as planned: it starts at its first item, and every further item fits. */
  ghost predicate Planned(b: Block, maxQty: int) {
    && b.items != []
    && b.start == b.items[0].register
    && b.quantity == Wrap16(BlockEnd(b.items) - b.start)
    && Sorted(b.items)
    && forall i :: 0 < i < |b.items| ==> End(b.items[i]) - b.start <= maxQty
  }

  /** Every block starts with an item that did not fit in the one before. */
  ghost predicate Greedy(blocks: seq<Block>, maxQty: int) {
    && (forall i :: 0 <= i < |blocks| ==> Planned(blocks[i], maxQty))
    && (forall i, j :: 0 <= i < j < |blocks| ==> blocks[i].start <= blocks[j].start)
    && forall i :: 0 < i < |blocks| ==> End(blocks[i].items[0]) - blocks[i - 1].start > maxQty
  }

  function Flatten(blocks: seq<Block>): seq<Item> {
    if blocks == [] then [] else Flatten(blocks[..|blocks| - 1]) + blocks[|blocks| - 1].items
  }

  lemma {:induction false} GreedyMore(blocks: seq<Block>, b: Block, maxQty: int)
    requires Greedy(blocks, maxQty) && Planned(b, maxQty)
    requires blocks != [] ==>
      blocks[|blocks| - 1].start <= b.start && End(b.items[0]) - blocks[|blocks| - 1].start > maxQty
    ensures Greedy(blocks + [b], maxQty)
    ensures Flatten(blocks + [b]) == Flatten(blocks) + b.items
  {
    var blocks' := blocks + [b];
    assert blocks'[..|blocks|] == blocks;
    forall i, j | 0 <= i < j < |blocks'| ensures blocks'[i].start <= blocks'[j].start {
      assert i < |blocks| - 1 ==> blocks[i].start <= blocks[|blocks| - 1].start;
    }
  }

  /** The inner loop: how far the block starting at items[start] reaches. */
  method Extend(items: seq<Item>, start: nat, maxQty: int) returns (b: Block, end: nat)
    requires Sorted(items) && AllReadable(items) && start < |items|
    ensures start < end <= |items|
    ensures b.items == items[start..end] && Planned(b, maxQty)
    ensures end < |items| ==> End(items[end]) - b.start > maxQty
  {
    hide Sorted, AllReadable, Planned, BlockEnd;
    var blockStart := items[start].register;
    var blockEnd := Wrap16(End(items[start]));
    end := start + 1;
    BlockEndOne(items, start);
    while end < |items|
      invariant start < end <= |items|
      invariant blockEnd == BlockEnd(items[start..end])
      invariant forall i :: start < i < end ==> End(items[i]) - blockStart <= maxQty
    {
      var next := items[end];
      NoWrap(items, start, end);
      if Wrap16(next.register - blockStart) + next.quantity > maxQty {
        break;
      }
      BlockEndMore(items, start, end);
      if Wrap16(End(next)) > blockEnd {
        blockEnd := Wrap16(End(next));
      }
      end := end + 1;
    }
    b := Block(blockStart, Wrap16(blockEnd - blockStart), items[start..end]);
    SliceIsPlanned(items, start, end, b, maxQty);
  }

  /** Within sorted items the 16-bit difference is the difference. */
  lemma NoWrap(items: seq<Item>, start: nat, end: nat)
    requires Sorted(items) && AllReadable(items) && start < end < |items|
    ensures Wrap16(items[end].register - items[start].register) == items[end].register - items[start].register
  {
  }

  lemma SliceIsPlanned(items: seq<Item>, start: nat, end: nat, b: Block, maxQty: int)
    requires Sorted(items) && start < end <= |items|
    requires b ==
      Block(items[start].register, Wrap16(BlockEnd(items[start..end]) - items[start].register), items[start..end])
    requires forall i :: start < i < end ==> End(items[i]) - items[start].register <= maxQty
    ensures Planned(b, maxQty)
  {
    var s := items[start..end];
    forall i | 0 < i < |s| ensures End(s[i]) - b.start <= maxQty {
      assert s[i] == items[start + i];
    }
  }

  lemma BlockEndOne(items: seq<Item>, start: nat)
    requires start < |items|
    ensures BlockEnd(items[start..start + 1]) == Wrap16(End(items[start]))
  {
    assert items[start..start + 1] == [items[start]];
  }

  lemma BlockEndMore(items: seq<Item>, start: nat, end: nat)
    requires start < end < |items|
    ensures BlockEnd(items[start..end + 1]) ==
      (var e, prev := Wrap16(End(items[end])), BlockEnd(items[start..end]); if e > prev then e else prev)
  {
    var s := items[start..end + 1];
    assert s[..|s| - 1] == items[start..end];
  }

  method PlanBlocks(items0: seq<Item>, maxQty: int) returns (blocks: seq<Block>)
    requires AllReadable(items0)
    ensures Greedy(blocks, maxQty)
    ensures Sorted(Flatten(blocks)) && multiset(Flatten(blocks)) == multiset(items0)
  {
    hide Greedy, Planned, AllReadable;
    var items := SortByRegister(items0);
    SameItems(items0, items);
    blocks := [];
    var start := 0;
    GreedyNone(maxQty);
    while start < |items|
      invariant 0 <= start <= |items|
      invariant Greedy(blocks, maxQty) && Flatten(blocks) == items[..start]
      invariant start < |items| && blocks != [] ==>
        && blocks[|blocks| - 1].start <= items[start].register
        && End(items[start]) - blocks[|blocks| - 1].start > maxQty
    {
      var b, end := Extend(items, start, maxQty);
      PlannedFacts(b, maxQty);
      GreedyMore(blocks, b, maxQty);
      assert items[..end] == items[..start] + items[start..end];
      blocks := blocks + [b];
      start := end;
    }
    assert items[..start] == items;
  }

  lemma SameItems(s: seq<Item>, t: seq<Item>)
    requires AllReadable(s) && multiset(s) == multiset(t)
    ensures AllReadable(t)
  {
    forall i | 0 <= i < |t| ensures Readable(t[i]) {
      assert t[i] in multiset(s);
    }
  }

  lemma GreedyNone(maxQty: int)
    ensures Greedy([], maxQty)
  {
  }

  lemma PlannedFacts(b: Block, maxQty: int)
    requires Planned(b, maxQty)
    ensures b.items != [] && b.start == b.items[0].register
    ensures forall n :: 0 <= n < |b.items| ==> b.start <= b.items[n].register
  {
  }

  // What a block covers.

  ghost predicate WithinLimit(s: seq<Item>, maxQty: int) {
    forall i :: 0 <= i < |s| ==> s[i].quantity <= maxQty
  }

  /** Every item ends at or before limit. */
  ghost predicate EndBy(s: seq<Item>, limit: int) {
    forall i :: 0 <= i < |s| ==> End(s[i]) <= limit
  }

  /** Every item reaches register 65535. */
  ghost predicate EndPast(s: seq<Item>) {
    forall i :: 0 <= i < |s| ==> End(s[i]) > 65535
  }

  /** The block requests every register of its items. */
  ghost predicate Covered(b: Block) {
    EndBy(b.items, b.start + b.quantity)
  }

  /** Every item starts at or after start and ends within maxQty of it. */
  ghost predicate Spans(s: seq<Item>, start: int, maxQty: int) {
    forall i :: 0 <= i < |s| ==> 0 <= start <= s[i].register && End(s[i]) <= start + maxQty
  }

  /** The block requests every register of those items that do not reach register 65535. */
  ghost predicate ReadyCovered(s: seq<Item>, end: int) {
    forall i :: 0 <= i < |s| && End(s[i]) <= 65535 ==> End(s[i]) <= end
  }

  /** The 16-bit end: either no item wraps, or all do, or the last that does not wins. */
  lemma {:induction false} BlockEndBounds(s: seq<Item>, start: int, maxQty: int)
    requires s != [] && AllReadable(s) && Spans(s, start, maxQty) && maxQty < 65536
    ensures ReadyCovered(s, BlockEnd(s)) && BlockEnd(s) <= start + maxQty
    ensures EndBy(s, 65535) ==> EndBy(s, BlockEnd(s)) && start < BlockEnd(s)
    ensures EndPast(s) && EndBy(s, 65536) ==> BlockEnd(s) == 0
    ensures EndPast(s) ==> EndBy(s, BlockEnd(s) + 65536) && BlockEnd(s) + 65536 <= start + maxQty
    ensures !EndPast(s) ==> start < BlockEnd(s) < 65536
  {
    var n := |s| - 1;
    assert Readable(s[n]);
    WrappedEnd(s[n], start, maxQty);
    if n > 0 {
      var rest := s[..n];
      assert s == rest + [s[n]];
      assert AllReadable(rest) && Spans(rest, start, maxQty);
      BlockEndBounds(rest, start, maxQty);
      EndsMore(rest, s[n]);
      hide AllReadable, Spans, EndBy, EndPast, ReadyCovered;
      assert BlockEnd(s) == var e := Wrap16(End(s[n])); if e > BlockEnd(rest) then e else BlockEnd(rest);
    }
  }

  lemma WrappedEnd(it: Item, start: int, maxQty: int)
    requires Readable(it) && 0 <= start <= it.register && End(it) <= start + maxQty && maxQty < 65536
    ensures End(it) <= 65535 ==> Wrap16(End(it)) == End(it) > start
    ensures End(it) > 65535 ==> Wrap16(End(it)) == End(it) - 65536 < start
  {
  }

  lemma EndsMore(s: seq<Item>, it: Item)
    ensures EndPast(s + [it]) <==> EndPast(s) && End(it) > 65535
    ensures forall limit :: EndBy(s + [it], limit) <==> EndBy(s, limit) && End(it) <= limit
    ensures forall limit, more :: limit <= more && EndBy(s, limit) ==> EndBy(s, more)
    ensures forall end, more :: end <= more && ReadyCovered(s, end) && (End(it) <= 65535 ==> End(it) <= more) ==>
      ReadyCovered(s + [it], more)
  {
    var t := s + [it];
    assert t[|s|] == it;
    if EndPast(t) {
      assert forall i :: 0 <= i < |s| ==> s[i] == t[i];
    }
    forall limit ensures EndBy(t, limit) <==> EndBy(s, limit) && End(it) <= limit {
      assert forall i :: 0 <= i < |s| ==> s[i] == t[i];
    }
  }

  /** A planned block covers its items and keeps within the limit if and only if the
      16-bit ends of its items wrap all or not at all. */
  lemma {:induction false} CoverageIff(b: Block, maxQty: int)
    requires Planned(b, maxQty) && AllReadable(b.items) && WithinLimit(b.items, maxQty) && maxQty < 65536
    ensures (Covered(b) && b.quantity <= maxQty) <==> (EndBy(b.items, 65535) || EndPast(b.items))
  {
    assert End(b.items[0]) <= b.start + maxQty;
    BlockEndBounds(b.items, b.start, maxQty);
    if !EndBy(b.items, 65535) && !EndPast(b.items) {
      var i :| 0 <= i < |b.items| && End(b.items[i]) > 65535;
      assert End(b.items[i]) > b.start + b.quantity;
    }
  }

  /** Where some item does not reach register 65535, the block covers exactly those. */
  lemma CoversReady(b: Block, maxQty: int, n: nat)
    requires Planned(b, maxQty) && AllReadable(b.items) && WithinLimit(b.items, maxQty) && maxQty < 65536
    requires !EndPast(b.items) && n < |b.items|
    ensures Covers(Request(b.start, b.quantity), b.items[n]) <==> End(b.items[n]) <= 65535
    ensures 0 < b.quantity <= maxQty && b.start + b.quantity <= 65535
  {
    hide BlockEnd;
    assert End(b.items[0]) <= b.start + maxQty;
    BlockEndBounds(b.items, b.start, maxQty);
  }

  /** Where all items reach register 65535, it covers them, and asks for nothing past it if
      no item does. */
  lemma CoversWrapped(b: Block, maxQty: int)
    requires Planned(b, maxQty) && AllReadable(b.items) && WithinLimit(b.items, maxQty) && maxQty < 65536
    requires EndPast(b.items)
    ensures Covered(b) && 0 < b.quantity <= maxQty
    ensures EndBy(b.items, 65536) ==> b.start + b.quantity == 65536
  {
    hide BlockEnd;
    assert End(b.items[0]) <= b.start + maxQty && Readable(b.items[0]);
    BlockEndBounds(b.items, b.start, maxQty);
    CoverageIff(b, maxQty);
  }

  /** One register at 65534 and one at 65535: the block of both asks for one register only. */
  lemma TopRegisterMissed(maxQty: int)
    requires maxQty >= 2
    ensures var b := Block(65534, 1, [Item(0, 65534, 1), Item(1, 65535, 1)]);
      Planned(b, maxQty) && AllReadable(b.items) && !Covered(b)
  {
    var items := [Item(0, 65534, 1), Item(1, 65535, 1)];
    assert items[..1] == [items[0]];
    assert End(items[1]) == 65536;
  }

  // Fewest requests.

  datatype Request = Request(start: int, quantity: int)

  predicate Covers(r: Request, it: Item) {
    r.start <= it.register && End(it) <= r.start + r.quantity
  }

  /** reqs reads every item, within the limit of a request. */
  ghost predicate Reads(reqs: seq<Request>, items: seq<Item>, maxQty: int) {
    && (forall i :: 0 <= i < |reqs| ==> reqs[i].quantity <= maxQty)
    && (forall k :: 0 <= k < |items| ==> exists i :: 0 <= i < |reqs| && Covers(reqs[i], items[k]))
  }

  /** No request covers the first items of two blocks, so no set of requests that reads
      all items has fewer requests than the plan has blocks. */
  lemma {:induction false} FewestRequests(blocks: seq<Block>, maxQty: int, reqs: seq<Request>)
    requires Greedy(blocks, maxQty) && Reads(reqs, Flatten(blocks), maxQty)
    ensures |blocks| <= |reqs|
  {
    var choice := seq(|blocks|, i requires 0 <= i < |blocks| => ReaderOf(blocks, i, reqs, maxQty));
    forall i, j | 0 <= i < j < |blocks| ensures choice[i] != choice[j] {
      assert blocks[i].start <= blocks[j - 1].start;
    }
    Pigeonhole(choice, |reqs|);
  }

  function Requests(blocks: seq<Block>): seq<Request> {
    seq(|blocks|, i requires 0 <= i < |blocks| => Request(blocks[i].start, blocks[i].quantity))
  }

  /** When no item reaches register 65535 the plan itself reads every item, so it is optimal. */
  lemma {:induction false} PlanReads(blocks: seq<Block>, maxQty: int)
    requires Greedy(blocks, maxQty) && maxQty < 65536
    requires var items := Flatten(blocks); AllReadable(items) && WithinLimit(items, maxQty) && EndBy(items, 65535)
    ensures Reads(Requests(blocks), Flatten(blocks), maxQty)
  {
    var items, reqs := Flatten(blocks), Requests(blocks);
    forall i | 0 <= i < |blocks| ensures Covered(blocks[i]) && blocks[i].quantity <= maxQty {
      ItemsOfBlock(blocks, i);
      CoverageIff(blocks[i], maxQty);
    }
    forall k | 0 <= k < |items| ensures exists i :: 0 <= i < |reqs| && Covers(reqs[i], items[k]) {
      var i, n := BlockOf(blocks, items[k]);
      PlannedFacts(blocks[i], maxQty);
      assert Covers(reqs[i], items[k]);
    }
  }

  /** A block's items are among all items. */
  lemma {:induction false} ItemsOfBlock(blocks: seq<Block>, i: nat)
    requires i < |blocks|
    ensures forall n :: 0 <= n < |blocks[i].items| ==> blocks[i].items[n] in Flatten(blocks)
  {
    if i < |blocks| - 1 {
      ItemsOfBlock(blocks[..|blocks| - 1], i);
    }
  }

  /** Every item is in some block. */
  lemma {:induction false} BlockOf(blocks: seq<Block>, it: Item) returns (i: nat, n: nat)
    requires it in Flatten(blocks)
    ensures i < |blocks| && n < |blocks[i].items| && blocks[i].items[n] == it
  {
    var last := |blocks| - 1;
    if it in blocks[last].items {
      i := last;
      n :| 0 <= n < |blocks[last].items| && blocks[last].items[n] == it;
    } else {
      i, n := BlockOf(blocks[..last], it);
    }
  }

  ghost function ReaderOf(blocks: seq<Block>, i: nat, reqs: seq<Request>, maxQty: int): (k: nat)
    requires i < |blocks| && Greedy(blocks, maxQty) && Reads(reqs, Flatten(blocks), maxQty)
    ensures k < |reqs| && Covers(reqs[k], blocks[i].items[0])
  {
    ItemsOfBlock(blocks, i);
    assert blocks[i].items[0] in Flatten(blocks);
    var n :| 0 <= n < |Flatten(blocks)| && Flatten(blocks)[n] == blocks[i].items[0];
    var k :| 0 <= k < |reqs| && Covers(reqs[k], Flatten(blocks)[n]);
    k
  }

  /** Distinct numbers below n are at most n: give the last one's place to n - 1. */
  lemma {:induction false} Pigeonhole(choice: seq<nat>, n: nat)
    requires forall i :: 0 <= i < |choice| ==> choice[i] < n
    requires forall i, j :: 0 <= i < j < |choice| ==> choice[i] != choice[j]
    ensures |choice| <= n
    decreases |choice|
  {
    if choice != [] {
      var last := |choice| - 1;
      var v := choice[last];
      var rest := seq(last, i requires 0 <= i < last => if choice[i] == n - 1 then v else choice[i]);
      Pigeonhole(rest, n - 1);
    }
  }
}
