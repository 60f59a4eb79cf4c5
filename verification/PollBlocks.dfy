/** Poll blocks made for synced devices (buildPollBlocks of
    internal/output/smardaten/sync.go), against the driver's test of whether a block holds a
    point (internal/driver/modbus/modbus.go). */
module PollBlocks {
  import opened ModbusPoint
  import opened ModbusRead
  import opened ReadPlan
  import opened Wrappers

  const MAX_GAP := 16

  datatype PointType = Plain(dataType: DataType) | Int64 | Double | Text

  /** A synced point; the register is what its address parses to, if it does. */
  datatype SyncedPoint = SyncedPoint(register: Option<int>, pointType: PointType)

  /** How many registers the sync reserves, and how many the driver reads. */
  function WidthOf(t: PointType): (n: int)
    ensures QuantityRead(t) <= n
  {
    match t
    case Plain(dt) => if dt.Int32? || dt.UInt32? || dt.Float32? then 2 else 1
    case Int64 => 4
    case Double => 4
    case Text => 1
  }

  function QuantityRead(t: PointType): (n: int)
    ensures n > 0
  {
    match t
    case Plain(dt) => QuantityOf(dt)
    case _ => 1
  }

  /** Registers from first to last, both included. */
  datatype Range = Range(first: int, last: int)

  ghost predicate SortedRanges(s: seq<Range>) {
    forall i, j :: 0 <= i < j < |s| ==> s[i].first <= s[j].first
  }

  ghost predicate Proper(s: seq<Range>) {
    forall i :: 0 <= i < |s| ==> s[i].first <= s[i].last
  }

  /** Blocks lie in order, more than 16 registers apart. */
  ghost predicate FarApart(s: seq<Range>) {
    forall i, j :: 0 <= i < j < |s| ==> s[j].first > s[i].last + 16
  }

  predicate Spans(b: Range, r: Range) {
    b.first <= r.first && r.last <= b.last
  }

  ghost predicate Within(r: Range, s: seq<Range>) {
    exists i :: 0 <= i < |s| && Spans(s[i], r)
  }

  /** The first n ranges are within blocks of s. */
  ghost predicate AllWithin(rs: seq<Range>, n: nat, s: seq<Range>)
    requires n <= |rs|
  {
    forall k {:trigger Within(rs[k], s)} :: 0 <= k < n ==> Within(rs[k], s)
  }

  /** A block starts where one of the first n ranges starts and ends where one ends. */
  ghost predicate TightBlock(b: Range, rs: seq<Range>, n: nat)
    requires n <= |rs|
  {
    && b.first <= b.last
    && (exists k :: 0 <= k < n && rs[k].first == b.first)
    && (exists k :: 0 <= k < n && rs[k].last == b.last)
  }

  /** Nothing but the ranges and the gaps between them is read. */
  ghost predicate Tight(s: seq<Range>, rs: seq<Range>, n: nat)
    requires n <= |rs|
  {
    forall i {:trigger TightBlock(s[i], rs, n)} :: 0 <= i < |s| ==> TightBlock(s[i], rs, n)
  }

  /** Range k has a next one among the first n: it ends later and begins within the gap. */
  ghost predicate HasNext(rs: seq<Range>, n: nat, k: nat)
    requires n <= |rs| && k < n
  {
    exists j :: 0 <= j < n && rs[j].last > rs[k].last && rs[j].first <= rs[k].last + 16
  }

  /** A block has no larger gap inside: each of its ranges that does not end it has a next one. */
  ghost predicate Linked(b: Range, rs: seq<Range>, n: nat)
    requires n <= |rs|
  {
    forall k {:trigger HasNext(rs, n, k)} :: 0 <= k < n && Spans(b, rs[k]) && rs[k].last < b.last ==> HasNext(rs, n, k)
  }

  ghost predicate AllLinked(s: seq<Range>, rs: seq<Range>, n: nat)
    requires n <= |rs|
  {
    forall i {:trigger Linked(s[i], rs, n)} :: 0 <= i < |s| ==> Linked(s[i], rs, n)
  }

  /** A 32-bit number takes two registers, a 64-bit one four, all else one. */
  function RangeOf(p: SyncedPoint): (r: Range)
    requires p.register.Some?
    ensures r.first == p.register.value
    ensures r.last - r.first + 1 == match p.pointType
      case Plain(Int32) => 2
      case Plain(UInt32) => 2
      case Plain(Float32) => 2
      case Int64 => 4
      case Double => 4
      case _ => 1
  {
    Range(p.register.value, p.register.value + WidthOf(p.pointType) - 1)
  }

  /** The ranges of the points that have a register. */
  function RangesOf(ps: seq<SyncedPoint>): (rs: seq<Range>)
    ensures forall p :: p in ps && p.register.Some? ==> RangeOf(p) in rs
    ensures forall r :: r in rs ==> exists p :: p in ps && p.register.Some? && RangeOf(p) == r
  {
    if ps == [] then []
    else
      var n := |ps| - 1;
      RangesOf(ps[..n]) + if ps[n].register.Some? then [RangeOf(ps[n])] else []
  }

  method Insert(s: seq<Range>, r: Range) returns (t: seq<Range>)
    requires SortedRanges(s)
    ensures SortedRanges(t) && multiset(t) == multiset(s) + multiset{r}
  {
    var p := |s|;
    while p > 0 && r.first < s[p - 1].first
      invariant 0 <= p <= |s| && forall i :: p <= i < |s| ==> r.first < s[i].first
    {
      hide SortedRanges;
      p := p - 1;
    }
    t := s[..p] + [r] + s[p..];
    InsertSorts(s, p, r);
    InsertAdds(s, p, r);
  }

  lemma InsertSorts(s: seq<Range>, p: nat, r: Range)
    requires SortedRanges(s) && p <= |s| && (p > 0 ==> s[p - 1].first <= r.first)
    requires forall i :: p <= i < |s| ==> r.first < s[i].first
    ensures SortedRanges(s[..p] + [r] + s[p..])
  {
    var t := s[..p] + [r] + s[p..];
    forall i, j | 0 <= i < j < |t| ensures t[i].first <= t[j].first {
      assert i < p && p - 1 != i ==> s[i].first <= s[p - 1].first;
    }
  }

  method SortRanges(rs: seq<Range>) returns (s: seq<Range>)
    ensures SortedRanges(s) && multiset(s) == multiset(rs)
  {
    s := [];
    for n := 0 to |rs|
      invariant SortedRanges(s) && multiset(s) == multiset(rs[..n])
    {
      hide SortedRanges;
      assert rs[..n + 1] == rs[..n] + [rs[n]];
      s := Insert(s, rs[n]);
    }
    assert rs[..|rs|] == rs;
  }

  /** Merge sorted ranges that overlap or leave at most the gap. */
  method Merge(rs: seq<Range>) returns (merged: seq<Range>)
    requires rs != [] && SortedRanges(rs) && Proper(rs)
    ensures FarApart(merged) && BlocksOf(merged, rs)
  {
    hide *;
    merged := [rs[0]];
    MergeBegins(rs);
    for n := 1 to |rs|
      invariant merged != [] && merged[|merged| - 1].first <= rs[n - 1].first
      invariant FarApart(merged) && AllWithin(rs, n, merged) && Tight(merged, rs, n) && AllLinked(merged, rs, n)
    {
      var r, last := rs[n], |merged| - 1;
      InOrder(rs, n);
      if r.first <= merged[last].last + MAX_GAP {
        ghost var grown := if r.last > merged[last].last then Range(merged[last].first, r.last) else merged[last];
        ghost var joined := merged[last := grown];
        JoinFar(merged, r, joined);
        JoinWithin(rs, n, merged, joined);
        JoinTight(rs, n, merged, joined);
        JoinLinked(rs, n, merged, joined);
        if r.last > merged[last].last {
          merged := merged[last := Range(merged[last].first, r.last)];
        }
        assert merged == joined;
      } else {
        AppendFar(merged, r, rs, n);
        AppendWithin(rs, n, merged);
        AppendTight(rs, n, merged);
        AppendLinked(rs, n, merged);
        merged := merged + [r];
      }
    }
    AllBlocks(merged, rs);
  }

  lemma AllBlocks(s: seq<Range>, rs: seq<Range>)
    requires AllWithin(rs, |rs|, s) && Tight(s, rs, |rs|) && AllLinked(s, rs, |rs|)
    ensures BlocksOf(s, rs)
  {
    hide AllWithin, Tight, AllLinked;
  }

  lemma MergeBegins(rs: seq<Range>)
    requires rs != [] && Proper(rs)
    ensures FarApart([rs[0]]) && AllWithin(rs, 1, [rs[0]]) && Tight([rs[0]], rs, 1) && AllLinked([rs[0]], rs, 1)
  {
    var s := [rs[0]];
    assert Spans(s[0], rs[0]);
    assert TightBlock(s[0], rs, 1);
  }

  lemma InOrder(rs: seq<Range>, n: nat)
    requires 0 < n < |rs| && SortedRanges(rs) && Proper(rs)
    ensures rs[n - 1].first <= rs[n].first <= rs[n].last
  {
  }

  /** s' is s with the last block stretched to take in r. */
  predicate Stretched(s: seq<Range>, r: Range, s': seq<Range>) {
    s != [] &&
    var last := |s| - 1;
    s' == s[last := if r.last > s[last].last then Range(s[last].first, r.last) else s[last]]
  }

  lemma JoinFar(s: seq<Range>, r: Range, s': seq<Range>)
    requires Stretched(s, r, s') && FarApart(s)
    ensures FarApart(s') && s'[|s'| - 1].first == s[|s| - 1].first
  {
  }

  lemma JoinWithin(rs: seq<Range>, n: nat, s: seq<Range>, s': seq<Range>)
    requires n < |rs| && Stretched(s, rs[n], s') && s[|s| - 1].first <= rs[n].first && AllWithin(rs, n, s)
    ensures AllWithin(rs, n + 1, s')
  {
    forall k | 0 <= k < n + 1 ensures Within(rs[k], s') {
      if k < n {
        Grows(rs[k], s, s');
      } else {
        assert Spans(s'[|s| - 1], rs[n]);
      }
    }
  }

  lemma JoinTight(rs: seq<Range>, n: nat, s: seq<Range>, s': seq<Range>)
    requires n < |rs| && Stretched(s, rs[n], s') && Tight(s, rs, n)
    ensures Tight(s', rs, n + 1)
  {
    forall i | 0 <= i < |s'| ensures TightBlock(s'[i], rs, n + 1) {
      assert TightBlock(s[i], rs, n);
      TightLonger(s[i], rs, n);
    }
  }

  lemma JoinLinked(rs: seq<Range>, n: nat, s: seq<Range>, s': seq<Range>)
    requires n < |rs| && Stretched(s, rs[n], s') && AllLinked(s, rs, n) && Tight(s, rs, n) && FarApart(s)
    requires SortedRanges(rs) && Proper(rs) && rs[n].first <= s[|s| - 1].last + MAX_GAP
    ensures AllLinked(s', rs, n + 1)
  {
    var last := |s| - 1;
    forall i | 0 <= i < |s'| ensures Linked(s'[i], rs, n + 1) {
      assert Linked(s[i], rs, n) && TightBlock(s[i], rs, n) && TightBlock(s[last], rs, n);
      if i == last {
        LastLinked(rs, n, s[last], s'[last]);
      } else {
        assert s[last].first > s[i].last + MAX_GAP;
        var a :| 0 <= a < n && rs[a].first == s[last].first;
        assert rs[a].first <= rs[n].first;
        BeforeLinked(rs, n, s[i]);
      }
    }
  }

  /** The last block, perhaps stretched to take in range n. */
  lemma LastLinked(rs: seq<Range>, n: nat, b: Range, b': Range)
    requires n < |rs| && Linked(b, rs, n) && TightBlock(b, rs, n) && SortedRanges(rs) && Proper(rs)
    requires b' == (if rs[n].last > b.last then Range(b.first, rs[n].last) else b) && rs[n].first <= b.last + MAX_GAP
    ensures Linked(b', rs, n + 1)
  {
    var e :| 0 <= e < n && rs[e].last == b.last;
    forall k | 0 <= k < n + 1 && Spans(b', rs[k]) && rs[k].last < b'.last ensures HasNext(rs, n + 1, k) {
      if k == n {
        assert rs[e].first <= rs[n].first <= rs[n].last;
        assert rs[e].last > rs[k].last;
      } else if rs[k].last < b.last {
        assert Spans(b, rs[k]) && HasNext(rs, n, k);
        var j :| 0 <= j < n && rs[j].last > rs[k].last && rs[j].first <= rs[k].last + MAX_GAP;
        assert rs[j].last > rs[k].last;
      } else {
        assert rs[n].last > rs[k].last;
      }
    }
  }

  lemma AppendLinked(rs: seq<Range>, n: nat, s: seq<Range>)
    requires n < |rs| && s != [] && AllLinked(s, rs, n) && Tight(s, rs, n) && AllWithin(rs, n, s) && FarApart(s)
    requires SortedRanges(rs) && Proper(rs) && rs[n].first > s[|s| - 1].last + MAX_GAP
    ensures AllLinked(s + [rs[n]], rs, n + 1)
  {
    var s', last := s + [rs[n]], |s| - 1;
    forall i | 0 <= i < |s'| ensures Linked(s'[i], rs, n + 1) {
      if i < |s| {
        assert Linked(s[i], rs, n) && TightBlock(s[last], rs, n) && TightBlock(s[i], rs, n);
        if i < last {
          assert s[last].first > s[i].last + MAX_GAP;
        }
        BeforeLinked(rs, n, s[i]);
      } else {
        forall k | 0 <= k < n ensures !Spans(rs[n], rs[k]) {
          assert Within(rs[k], s);
          var j :| 0 <= j < |s| && Spans(s[j], rs[k]);
          assert TightBlock(s[j], rs, n) && TightBlock(s[last], rs, n);
          assert j < last ==> s[last].first > s[j].last + MAX_GAP;
        }
      }
    }
  }

  /** A block that ends before range n begins. */
  lemma BeforeLinked(rs: seq<Range>, n: nat, b: Range)
    requires n < |rs| && Linked(b, rs, n) && Proper(rs) && rs[n].first > b.last
    ensures Linked(b, rs, n + 1)
  {
    forall k | 0 <= k < n + 1 && Spans(b, rs[k]) && rs[k].last < b.last ensures HasNext(rs, n + 1, k) {
      assert k < n;
      assert HasNext(rs, n, k);
      var j :| 0 <= j < n && rs[j].last > rs[k].last && rs[j].first <= rs[k].last + MAX_GAP;
      assert rs[j].last > rs[k].last;
    }
  }

  lemma AppendFar(s: seq<Range>, r: Range, rs: seq<Range>, n: nat)
    requires n <= |rs| && s != [] && FarApart(s) && Tight(s, rs, n) && r.first > s[|s| - 1].last + MAX_GAP
    ensures FarApart(s + [r])
  {
    var s', last := s + [r], |s| - 1;
    assert TightBlock(s[last], rs, n);
    hide Tight, TightBlock;
    forall i, j | 0 <= i < j < |s'| ensures s'[j].first > s'[i].last + MAX_GAP {
      if j == |s| && i < last {
        assert s[last].first > s[i].last + MAX_GAP;
      }
    }
  }

  lemma AppendWithin(rs: seq<Range>, n: nat, s: seq<Range>)
    requires n < |rs| && AllWithin(rs, n, s)
    ensures AllWithin(rs, n + 1, s + [rs[n]])
  {
    var s' := s + [rs[n]];
    forall k | 0 <= k < n + 1 ensures Within(rs[k], s') {
      if k < n {
        Grows(rs[k], s, s');
      } else {
        assert Spans(s'[|s|], rs[n]);
      }
    }
  }

  lemma AppendTight(rs: seq<Range>, n: nat, s: seq<Range>)
    requires n < |rs| && rs[n].first <= rs[n].last && Tight(s, rs, n)
    ensures Tight(s + [rs[n]], rs, n + 1)
  {
    var s' := s + [rs[n]];
    forall i | 0 <= i < |s'| ensures TightBlock(s'[i], rs, n + 1) {
      if i < |s| {
        assert TightBlock(s[i], rs, n);
        TightLonger(s[i], rs, n);
      }
    }
  }

  lemma Grows(r: Range, s: seq<Range>, s': seq<Range>)
    requires Within(r, s) && |s| <= |s'|
    requires forall i :: 0 <= i < |s| ==> s'[i].first <= s[i].first && s[i].last <= s'[i].last
    ensures Within(r, s')
  {
    var i :| 0 <= i < |s| && Spans(s[i], r);
    assert Spans(s'[i], r);
  }

  lemma TightLonger(b: Range, rs: seq<Range>, n: nat)
    requires n < |rs| && TightBlock(b, rs, n)
    ensures TightBlock(b, rs, n + 1)
    ensures rs[n].last > b.last ==> TightBlock(Range(b.first, rs[n].last), rs, n + 1)
  {
  }

  /** The blocks for a list of points. */
  method BuildPollBlocks(ps: seq<SyncedPoint>) returns (blocks: seq<Range>)
    ensures FarApart(blocks) && BlocksOf(blocks, RangesOf(ps))
  {
    var ranges := RangesOf(ps);
    if ranges == [] {
      return [];
    }
    RangesProper(ps);
    hide RangesOf, AllWithin, Tight, AllLinked, FarApart;
    var sorted := SortRanges(ranges);
    SameRanges(ranges, sorted);
    blocks := Merge(sorted);
    TransferWithin(ranges, sorted, blocks);
    TransferTight(ranges, sorted, blocks);
    TransferLinked(ranges, sorted, blocks);
  }

  /** Every range is within a block, every block begins and ends with a range, and no block
      has a larger gap inside. */
  ghost predicate BlocksOf(s: seq<Range>, rs: seq<Range>) {
    AllWithin(rs, |rs|, s) && Tight(s, rs, |rs|) && AllLinked(s, rs, |rs|)
  }

  lemma {:induction false} RangesProper(ps: seq<SyncedPoint>)
    ensures Proper(RangesOf(ps))
  {
    if ps != [] {
      RangesProper(ps[..|ps| - 1]);
    }
  }

  lemma SameRanges(a: seq<Range>, b: seq<Range>)
    requires multiset(a) == multiset(b)
    ensures forall r :: r in a <==> r in b
    ensures Proper(a) ==> Proper(b)
    ensures a != [] ==> b != []
  {
    forall r ensures r in a <==> r in b {
      assert r in a <==> r in multiset(a);
      assert r in b <==> r in multiset(b);
    }
    if Proper(a) {
      forall i | 0 <= i < |b| ensures b[i].first <= b[i].last {
        assert b[i] in a;
      }
    }
    if a != [] {
      assert a[0] in b;
    }
  }

  lemma TransferLinked(a: seq<Range>, b: seq<Range>, s: seq<Range>)
    requires (forall r :: r in a <==> r in b) && AllLinked(s, b, |b|)
    ensures AllLinked(s, a, |a|)
  {
    forall i | 0 <= i < |s| ensures Linked(s[i], a, |a|) {
      assert Linked(s[i], b, |b|);
      forall k | 0 <= k < |a| && Spans(s[i], a[k]) && a[k].last < s[i].last ensures HasNext(a, |a|, k) {
        assert a[k] in b;
        var x :| 0 <= x < |b| && b[x] == a[k];
        assert HasNext(b, |b|, x);
        var y :| 0 <= y < |b| && b[y].last > b[x].last && b[y].first <= b[x].last + MAX_GAP;
        assert b[y] in a;
      }
    }
  }

  lemma TransferWithin(a: seq<Range>, b: seq<Range>, s: seq<Range>)
    requires (forall r :: r in a ==> r in b) && AllWithin(b, |b|, s)
    ensures AllWithin(a, |a|, s)
  {
    forall k | 0 <= k < |a| ensures Within(a[k], s) {
      assert a[k] in b;
      var j :| 0 <= j < |b| && b[j] == a[k];
      assert Within(b[j], s);
    }
  }

  lemma TransferTight(a: seq<Range>, b: seq<Range>, s: seq<Range>)
    requires (forall r :: r in b ==> r in a) && Tight(s, b, |b|)
    ensures Tight(s, a, |a|)
  {
    forall i | 0 <= i < |s| ensures TightBlock(s[i], a, |a|) {
      assert TightBlock(s[i], b, |b|);
      var x :| 0 <= x < |b| && b[x].first == s[i].first;
      var y :| 0 <= y < |b| && b[y].last == s[i].last;
      assert b[x] in a && b[y] in a;
    }
  }

  // Against the driver.

  /** The driver's parameters hold the block: start and count are 16-bit numbers. */
  predicate Parses(b: Range) {
    0 <= b.first <= 65535 && 0 < b.last - b.first + 1 <= 65535
  }

  /** The driver accepts the parameters. */
  predicate AllParse(blocks: seq<Range>) {
    forall i :: 0 <= i < |blocks| ==> Parses(blocks[i])
  }

  /** A block as the driver reads it from the device's parameters. */
  function AsPollBlock(b: Range): PollBlock
    requires Parses(b)
  {
    PollBlock(b.first, b.last - b.first + 1)
  }

  function AsItem(p: SyncedPoint): Item
    requires p.register.Some?
  {
    Item(0, p.register.value, QuantityRead(p.pointType))
  }

  /** Block i alone spans the point's registers. The driver finds the point in that block alone,
      if the block ends before register 65535, and in none if it does not; but a point that
      itself reaches that register is found in every block. */
  ghost predicate FoundIn(p: SyncedPoint, blocks: seq<Range>, i: nat)
    requires p.register.Some? && AllParse(blocks) && i < |blocks|
  {
    && Spans(blocks[i], RangeOf(p))
    && (forall j :: 0 <= j < |blocks| && Spans(blocks[j], RangeOf(p)) ==> j == i)
    && forall j :: 0 <= j < |blocks| ==>
         (PointInBlock(AsItem(p), AsPollBlock(blocks[j]))
          <==> End(AsItem(p)) > 65535 || (j == i && blocks[i].last < 65535))
  }

  /** The sync and the driver measure points differently. Where the driver finds a point
      that has a register, for any points whose blocks the driver accepts. */
  lemma InExactlyOneBlock(ps: seq<SyncedPoint>, blocks: seq<Range>, p: SyncedPoint)
    requires FarApart(blocks) && BlocksOf(blocks, RangesOf(ps)) && AllParse(blocks)
    requires p in ps && p.register.Some? && p.register.value <= 65535
    ensures exists i :: 0 <= i < |blocks| && FoundIn(p, blocks, i)
  {
    hide *;
    BlocksCover(blocks, RangesOf(ps));
    assert RangeOf(p) in RangesOf(ps);
    var i := BlockWith(RangesOf(ps), blocks, RangeOf(p));
    FoundThere(blocks, p, i);
  }

  lemma BlocksCover(s: seq<Range>, rs: seq<Range>)
    requires BlocksOf(s, rs)
    ensures AllWithin(rs, |rs|, s)
  {
    hide AllWithin, Tight, AllLinked;
  }

  lemma BlockWith(rs: seq<Range>, s: seq<Range>, r: Range) returns (i: nat)
    requires r in rs && AllWithin(rs, |rs|, s)
    ensures i < |s| && Spans(s[i], r)
  {
    var k :| 0 <= k < |rs| && rs[k] == r;
    assert Within(rs[k], s);
    i :| 0 <= i < |s| && Spans(s[i], r);
  }

  lemma FoundThere(blocks: seq<Range>, p: SyncedPoint, i: nat)
    requires FarApart(blocks) && AllParse(blocks) && i < |blocks|
    requires p.register.Some? && p.register.value <= 65535 && Spans(blocks[i], RangeOf(p))
    ensures FoundIn(p, blocks, i)
  {
    hide FarApart, PointInBlock, Parses;
    forall j | 0 <= j < |blocks| && Spans(blocks[j], RangeOf(p)) ensures j == i {
      Apart(blocks, i, j);
      assert QuantityRead(p.pointType) <= WidthOf(p.pointType);
    }
    forall j | 0 <= j < |blocks|
      ensures PointInBlock(AsItem(p), AsPollBlock(blocks[j]))
              <==> End(AsItem(p)) > 65535 || (j == i && blocks[i].last < 65535)
    {
      if End(AsItem(p)) > 65535 {
        FoundAnywhere(blocks, p, i, j);
      } else {
        HeldIff(blocks, p, i, j);
      }
    }
  }

  lemma Apart(blocks: seq<Range>, i: nat, j: nat)
    requires FarApart(blocks) && i < |blocks| && j < |blocks|
    ensures i < j ==> blocks[j].first > blocks[i].last + MAX_GAP
    ensures j < i ==> blocks[i].first > blocks[j].last + MAX_GAP
  {
  }

  lemma HeldIff(blocks: seq<Range>, p: SyncedPoint, i: nat, j: nat)
    requires FarApart(blocks) && AllParse(blocks) && i < |blocks| && j < |blocks|
    requires p.register.Some? && Spans(blocks[i], RangeOf(p)) && End(AsItem(p)) <= 65535
    ensures PointInBlock(AsItem(p), AsPollBlock(blocks[j])) <==> j == i && blocks[i].last < 65535
  {
    hide PointInBlock, FarApart;
    Apart(blocks, i, j);
    assert Parses(blocks[i]) && Parses(blocks[j]);
    PointInBlockIff(AsItem(p), AsPollBlock(blocks[j]));
  }

  /** The 16-bit end of the point is next to nothing. */
  lemma FoundAnywhere(blocks: seq<Range>, p: SyncedPoint, i: nat, j: nat)
    requires FarApart(blocks) && AllParse(blocks) && i < |blocks| && j < |blocks|
    requires p.register.Some? && p.register.value <= 65535 && Spans(blocks[i], RangeOf(p)) && End(AsItem(p)) > 65535
    ensures PointInBlock(AsItem(p), AsPollBlock(blocks[j]))
  {
    hide FarApart;
    Apart(blocks, i, j);
    assert Parses(blocks[i]) && Parses(blocks[j]);
    var end, sum := End(AsItem(p)), blocks[j].last + 1;
    assert end <= 65537 && Wrap16(end) == end - 65536;
    assert if j == i then end <= sum && Wrap16(sum) == sum - 65536 else 0 < sum < 65536 && Wrap16(sum) == sum;
  }

  /** The driver accepts the blocks of points none of whose registers reach past 65534. */
  ghost predicate PointsFit(ps: seq<SyncedPoint>) {
    forall i :: 0 <= i < |ps| && ps[i].register.Some? ==> InRegister(RangeOf(ps[i]))
  }

  predicate InRegister(r: Range) {
    0 <= r.first <= r.last < 65535
  }

  ghost predicate InRegisters(s: seq<Range>) {
    forall i :: 0 <= i < |s| ==> InRegister(s[i])
  }

  lemma FittingParse(ps: seq<SyncedPoint>, blocks: seq<Range>)
    requires BlocksOf(blocks, RangesOf(ps)) && PointsFit(ps)
    ensures AllParse(blocks)
  {
    hide AllWithin, Tight, AllLinked;
    RangesFit(ps);
    BlocksFit(blocks, RangesOf(ps));
  }

  lemma {:induction false} RangesFit(ps: seq<SyncedPoint>)
    requires PointsFit(ps)
    ensures InRegisters(RangesOf(ps))
  {
    if ps != [] {
      RangesFit(ps[..|ps| - 1]);
    }
  }

  lemma BlocksFit(s: seq<Range>, rs: seq<Range>)
    requires Tight(s, rs, |rs|) && InRegisters(rs)
    ensures AllParse(s)
  {
    forall i | 0 <= i < |s| ensures Parses(s[i]) {
      assert TightBlock(s[i], rs, |rs|);
    }
  }
}
