/** Time-window aggregation of one point (aggregator of internal/processing/engine.go),
    over exact reals, with the history of its windows. */
module Windows {
  import opened Wrappers

  datatype Kind = Avg | Min | Max | Sum | Count | Last

  datatype Text = Text(text: string)

  datatype Aggregate = Aggregate(kind: Kind, window: Text, emitName: Text)

  datatype Aggregator = Aggregator(aggr: Aggregate, window: int, start: int, any: bool, count: int,
                                   sum: real, min: real, max: real, last: real)

  datatype Result = Real(r: real) | Whole(n: int)

  function Fresh(aggr: Aggregate, window: int): Aggregator {
    Aggregator(aggr, window, 0, false, 0, 0.0, 0.0, 0.0, 0.0)
  }

  function Reset(a: Aggregator): Aggregator {
    Fresh(a.aggr, a.window)
  }

  predicate Due(a: Aggregator, now: int) {
    a.any && now - a.start >= a.window
  }

  function Add(a: Aggregator, v: real, now: int): Aggregator {
    var b := if a.any then a else a.(start := now, any := true, min := v, max := v, last := v);
    b.(count := b.count + 1, sum := b.sum + v, min := if v < b.min then v else b.min,
       max := if v > b.max then v else b.max, last := v)
  }

  function ValueOf(a: Aggregator): Result
    requires a.any ==> a.count > 0
  {
    match a.aggr.kind
    case Avg => Real(if a.count == 0 then 0.0 else a.sum / a.count as real)
    case Min => Real(a.min)
    case Max => Real(a.max)
    case Sum => Real(a.sum)
    case Count => Whole(a.count)
    case Last => Real(a.last)
  }

  // What the numbers of a window mean.

  function SumOf(vs: seq<real>): real {
    if vs == [] then 0.0 else SumOf(vs[..|vs| - 1]) + vs[|vs| - 1]
  }

  predicate IsLeast(m: real, vs: seq<real>) {
    m in vs && forall i :: 0 <= i < |vs| ==> m <= vs[i]
  }

  predicate IsGreatest(m: real, vs: seq<real>) {
    m in vs && forall i :: 0 <= i < |vs| ==> vs[i] <= m
  }

  /** r is the aggregate of kind over the numbers vs of one window. */
  predicate Means(kind: Kind, vs: seq<real>, r: Result) {
    vs != [] &&
    match kind
    case Avg => r == Real(SumOf(vs) / |vs| as real)
    case Min => r.Real? && IsLeast(r.r, vs)
    case Max => r.Real? && IsGreatest(r.r, vs)
    case Sum => r == Real(SumOf(vs))
    case Count => r == Whole(|vs|)
    case Last => r == Real(vs[|vs| - 1])
  }

  /** The aggregator has folded exactly the numbers vs. */
  predicate Folds(a: Aggregator, vs: seq<real>) {
    if vs == [] then a == Reset(a)
    else
      && a.any && a.count == |vs| && a.sum == SumOf(vs)
      && IsLeast(a.min, vs) && IsGreatest(a.max, vs) && a.last == vs[|vs| - 1]
  }

  lemma AddFolds(a: Aggregator, vs: seq<real>, v: real, now: int)
    requires Folds(a, vs)
    ensures Folds(Add(a, v, now), vs + [v])
    ensures Add(a, v, now).aggr == a.aggr && Add(a, v, now).window == a.window
    ensures Add(a, v, now).start == if vs == [] then now else a.start
  {
    var ws := vs + [v];
    assert ws[..|vs|] == vs && v in ws;
    assert forall m :: m in vs ==> m in ws;
    if vs == [] {
      assert SumOf(ws) == SumOf([]) + v;
    }
  }

  lemma FoldsMeans(a: Aggregator, vs: seq<real>)
    requires Folds(a, vs) && vs != []
    ensures Means(a.aggr.kind, vs, ValueOf(a))
  {
  }

  /** The value of a window of two numbers. */
  lemma TwoNumbers(a: Aggregator, v: real, w: real, first: int, second: int)
    requires a == Reset(a)
    ensures var b := Add(Add(a, v, first), w, second);
      && b.count == 2 && b.start == first
      && ValueOf(b) == match a.aggr.kind
         case Avg => Real((v + w) / 2.0)
         case Min => Real(if v <= w then v else w)
         case Max => Real(if v <= w then w else v)
         case Sum => Real(v + w)
         case Count => Whole(2)
         case Last => Real(w)
  {
  }

  // The windows of one point.

  datatype Window = Emitted(values: seq<real>, at: int, length: int, kind: Kind, result: Result)
    | Discarded(values: seq<real>)

  /** Everything accepted for a point, the windows that are closed, and the open one. */
  datatype Ledger = Ledger(accepted: seq<real>, closed: seq<Window>, open: seq<real>)

  const EMPTY := Ledger([], [], [])

  function Flatten(ws: seq<Window>): seq<real> {
    if ws == [] then [] else Flatten(ws[..|ws| - 1]) + ws[|ws| - 1].values
  }

  lemma FlattenSnoc(ws: seq<Window>, w: Window)
    ensures Flatten(ws + [w]) == Flatten(ws) + w.values
  {
    assert (ws + [w])[..|ws|] == ws;
  }

  /** Emissions are in time order, each at least its window's length after the one before. */
  predicate Spaced(ws: seq<Window>) {
    forall i, j :: 0 <= i < j < |ws| && ws[i].Emitted? && ws[j].Emitted? ==> ws[j].at - ws[i].at >= ws[j].length
  }

  predicate EmittedBy(ws: seq<Window>, time: int) {
    forall i :: 0 <= i < |ws| && ws[i].Emitted? ==> ws[i].at <= time
  }

  predicate Truthful(ws: seq<Window>) {
    forall i :: 0 <= i < |ws| && ws[i].Emitted? ==> Means(ws[i].kind, ws[i].values, ws[i].result)
  }

  /** Every accepted number is in exactly one window, in order; emitted values are the
      aggregates of their windows; emissions are spaced; the aggregator, if there is one, has
      folded the open window, which began after every emission. */
  predicate LedgerValid(l: Ledger, agg: Option<Aggregator>, clock: int) {
    && l.accepted == Flatten(l.closed) + l.open
    && Truthful(l.closed) && Spaced(l.closed) && EmittedBy(l.closed, clock)
    && match agg
       case None => l.open == []
       case Some(a) => Folds(a, l.open) && (l.open != [] ==> EmittedBy(l.closed, a.start) && a.start <= clock)
  }

  /** Flushing a due window. */
  function Flushed(l: Ledger, a: Aggregator, at: int): Ledger
    requires a.any ==> a.count > 0
  {
    Ledger(l.accepted, l.closed + [Emitted(l.open, at, a.window, a.aggr.kind, ValueOf(a))], [])
  }

  function Accepted(l: Ledger, v: real): Ledger {
    Ledger(l.accepted + [v], l.closed, l.open + [v])
  }

  function Dropped(l: Ledger): Ledger {
    if l.open == [] then l else Ledger(l.accepted, l.closed + [Discarded(l.open)], [])
  }

  lemma LaterValid(l: Ledger, agg: Option<Aggregator>, clock: int, later: int)
    requires LedgerValid(l, agg, clock) && clock <= later
    ensures LedgerValid(l, agg, later)
  {
  }

  lemma FlushValid(l: Ledger, a: Aggregator, at: int, clock: int)
    requires LedgerValid(l, Some(a), clock) && Due(a, at) && at <= clock
    requires a.window >= 0
    ensures a.count > 0 && LedgerValid(Flushed(l, a, at), Some(Reset(a)), clock)
  {
    var w := Emitted(l.open, at, a.window, a.aggr.kind, ValueOf(a));
    FoldsMeans(a, l.open);
    FlattenSnoc(l.closed, w);
    hide Folds, Means, Flatten, ValueOf;
    assert Flatten(l.closed) + l.open + [] == Flatten(l.closed) + l.open;
    assert Folds(Reset(a), []) by { FreshFolds(a); }
    var ws := l.closed + [w];
    forall i, j | 0 <= i < j < |ws| && ws[i].Emitted? && ws[j].Emitted? ensures ws[j].at - ws[i].at >= ws[j].length {
      if j == |l.closed| {
        assert l.closed[i].at <= a.start;
      }
    }
  }

  lemma FreshFolds(a: Aggregator)
    ensures Folds(Reset(a), [])
  {
  }

  lemma AcceptValid(l: Ledger, a: Aggregator, v: real, now: int, clock: int)
    requires LedgerValid(l, Some(a), clock) && clock <= now
    ensures LedgerValid(Accepted(l, v), Some(Add(a, v, now)), now)
  {
    AddFolds(a, l.open, v, now);
    assert EmittedBy(l.closed, now);
    hide Folds, Flatten, Add, Truthful, Spaced, EmittedBy;
    assert Flatten(l.closed) + l.open + [v] == Flatten(l.closed) + (l.open + [v]);
  }

  lemma DropValid(l: Ledger, agg: Option<Aggregator>, clock: int)
    requires LedgerValid(l, agg, clock)
    ensures LedgerValid(Dropped(l), None, clock)
    ensures forall a :: LedgerValid(Dropped(l), Some(Reset(a)), clock)
  {
    if l.open != [] {
      FlattenSnoc(l.closed, Discarded(l.open));
      assert Flatten(l.closed) + l.open + [] == Flatten(l.closed) + l.open;
    }
    hide Flatten;
    forall a ensures LedgerValid(Dropped(l), Some(Reset(a)), clock) {
      FreshFolds(a);
    }
  }
}
