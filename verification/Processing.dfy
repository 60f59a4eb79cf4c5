/** The edge-processing engine (internal/processing/engine.go): process a point, flush due
    windows, reload rules, in any order. */
module Processing {
  import opened Filters
  import opened Windows
  import opened Wrappers

  datatype Key = Key(device: Text, point: Text)

  datatype Rule = Rule(filters: seq<Filter>, aggregate: Option<Aggregate>)

  datatype PointConfig = PointConfig(name: Text, processing: Option<Rule>)

  datatype Device = Device(id: Text, enabled: bool, points: seq<PointConfig>)

  datatype DataPoint = DataPoint(key: Key, x: Val, q: Quality)

  /** What leaves the engine: a point as it came, or the value of a window, named by the
      rule or, when it names none, by the point and the kind. */
  datatype Out = Same(dp: DataPoint) | Derived(device: Text, name: EmitName, result: Result, at: int)

  datatype EmitName = Named(name: Text) | Default(point: Text, kind: Kind)

  datatype Stats = Stats(pointsIn: nat, pass: nat, filtered: nat, aggregated: nat)

  function EmitNameOf(k: Key, a: Aggregate): EmitName {
    if a.emitName.text != "" then Named(a.emitName) else Default(k.point, a.kind)
  }

  // Rules.

  /** parse gives the length of a window text, or 0 if it is not a positive duration. */
  predicate ValidRule(r: Rule, parse: Text -> int) {
    && (forall i :: 0 <= i < |r.filters| ==> ValidFilter(r.filters[i]))
    && (r.aggregate.Some? ==> parse(r.aggregate.value.window) > 0)
  }

  predicate ValidFilter(f: Filter) {
    match f
    case Deadband(delta) => delta >= 0.0
    case Threshold(op, _, min, max) => op.Between? || op.Outside? ==> max >= min
    case QualityFilter(_) => true
  }

  /** Key k gets rule r from device d: it is the last valid rule of an enabled device's
      point of that name. */
  function RuleAt(d: Device, n: nat, k: Key, parse: Text -> int): Option<Rule>
    requires n <= |d.points|
  {
    if n == 0 then None
    else
      var p := d.points[n - 1];
      if d.enabled && Key(d.id, p.name) == k && p.processing.Some? && ValidRule(p.processing.value, parse)
      then p.processing
      else RuleAt(d, n - 1, k, parse)
  }

  function RuleOf(ds: seq<Device>, n: nat, k: Key, parse: Text -> int): Option<Rule>
    requires n <= |ds|
  {
    if n == 0 then None
    else
      var r := RuleAt(ds[n - 1], |ds[n - 1].points|, k, parse);
      if r.Some? then r else RuleOf(ds, n - 1, k, parse)
  }

  ghost predicate RulesAre(rules: map<Key, Rule>, ds: seq<Device>, parse: Text -> int) {
    forall k :: Get(rules, k) == RuleOf(ds, |ds|, k, parse)
  }

  /** The point of a device gives key k its rule: the device is enabled, the point has one,
      its deadbands are not negative, its ranges not empty and its window is positive. */
  predicate Loads(d: Device, p: PointConfig, k: Key, parse: Text -> int) {
    && d.enabled && d.id == k.device && p.name == k.point && p.processing.Some?
    && var r := p.processing.value;
       && (r.aggregate.Some? ==> parse(r.aggregate.value.window) > 0)
       && forall f :: f in r.filters ==>
            match f
            case Deadband(delta) => 0.0 <= delta
            case Threshold(Between, _, min, max) => min <= max
            case Threshold(Outside, _, min, max) => min <= max
            case _ => true
  }

  lemma LoadsIff(d: Device, p: PointConfig, k: Key, parse: Text -> int)
    ensures Loads(d, p, k, parse) <==>
      d.enabled && Key(d.id, p.name) == k && p.processing.Some? && ValidRule(p.processing.value, parse)
  {
    if p.processing.Some? {
      var fs := p.processing.value.filters;
      assert forall i :: 0 <= i < |fs| ==> fs[i] in fs;
    }
  }

  lemma {:induction false} RuleAtIs(d: Device, n: nat, k: Key, parse: Text -> int, j: nat)
    requires n <= |d.points|
    ensures j < n && Loads(d, d.points[j], k, parse) && (forall b :: j < b < n ==> !Loads(d, d.points[b], k, parse)) ==>
      RuleAt(d, n, k, parse) == d.points[j].processing
    ensures (forall b :: 0 <= b < n ==> !Loads(d, d.points[b], k, parse)) ==> RuleAt(d, n, k, parse) == None
  {
    if n > 0 {
      LoadsIff(d, d.points[n - 1], k, parse);
      hide Loads;
      RuleAtIs(d, n - 1, k, parse, j);
    }
  }

  /** Point j of device i is the last to give k a rule. */
  predicate LoadsLast(ds: seq<Device>, n: nat, k: Key, parse: Text -> int, i: nat, j: nat)
    requires n <= |ds|
  {
    && i < n && j < |ds[i].points| && Loads(ds[i], ds[i].points[j], k, parse)
    && (forall b :: j < b < |ds[i].points| ==> !Loads(ds[i], ds[i].points[b], k, parse))
    && (forall a, b :: i < a < n && 0 <= b < |ds[a].points| ==> !Loads(ds[a], ds[a].points[b], k, parse))
  }

  /** A key's rule is the last one loaded for it, if any is. */
  lemma {:induction false} RuleIsLast(ds: seq<Device>, n: nat, k: Key, parse: Text -> int, i: nat, j: nat)
    requires n <= |ds|
    ensures LoadsLast(ds, n, k, parse, i, j) ==> RuleOf(ds, n, k, parse) == ds[i].points[j].processing
    ensures (forall a, b :: 0 <= a < n && 0 <= b < |ds[a].points| ==> !Loads(ds[a], ds[a].points[b], k, parse)) ==>
      RuleOf(ds, n, k, parse) == None
  {
    hide Loads, RuleAt;
    if n > 0 {
      RuleAtIs(ds[n - 1], |ds[n - 1].points|, k, parse, j);
      RuleIsLast(ds, n - 1, k, parse, i, j);
      if i == n - 1 && j < |ds[i].points| && Loads(ds[i], ds[i].points[j], k, parse) {
        LoadsSome(ds[i], ds[i].points[j], k, parse);
      }
    }
  }

  lemma LoadsSome(d: Device, p: PointConfig, k: Key, parse: Text -> int)
    requires Loads(d, p, k, parse)
    ensures p.processing.Some?
  {
  }

  // Per-key state.

  function LedgerOf(ls: map<Key, Ledger>, k: Key): Ledger {
    if k in ls then ls[k] else EMPTY
  }

  /** An aggregator belongs to the current rule of its key. */
  predicate Matches(a: Option<Aggregator>, r: Option<Rule>, parse: Text -> int) {
    a.Some? ==>
      && r.Some? && r.value.aggregate == Some(a.value.aggr)
      && a.value.window == parse(a.value.aggr.window) > 0
  }

  /** What one point does to the state of its key. */
  datatype Effect = Effect(outs: seq<Out>, last: Option<real>, agg: Option<Aggregator>, ledger: Ledger,
                           pass: nat, filtered: nat)

  function Aggregated(a: Aggregator, l: Ledger, dp: DataPoint, now: int): Effect
    requires a.any ==> a.count > 0
  {
    if dp.x.NotNumeric? then Effect([], None, Some(a), l, 0, 0)
    else if Due(a, now) then
      Effect([Derived(dp.key.device, EmitNameOf(dp.key, a.aggr), ValueOf(a), now)], None,
        Some(Add(Reset(a), dp.x.v, now)), Accepted(Flushed(l, a, now), dp.x.v), 0, 0)
    else Effect([], None, Some(Add(a, dp.x.v, now)), Accepted(l, dp.x.v), 0, 0)
  }

  function ProcessOne(rule: Option<Rule>, last: Option<real>, agg: Option<Aggregator>, l: Ledger,
                      dp: DataPoint, now: int, parse: Text -> int): Effect
    requires agg.Some? && agg.value.any ==> agg.value.count > 0
  {
    if rule.None? then Effect([Same(dp)], last, agg, l, 1, 0)
    else
      var r := PassAll(rule.value.filters, dp.x, dp.q, last);
      if !r.pass then Effect([], r.last, agg, l, 0, 1)
      else match rule.value.aggregate
        case None => Effect([Same(dp)], r.last, agg, l, 1, 0)
        case Some(aggr) =>
          var a := if agg.Some? then agg.value else Fresh(aggr, parse(aggr.window));
          Aggregated(a, l, dp, now).(last := r.last)
  }

  /** One point keeps the windows of its key valid. */
  lemma ProcessValid(rule: Option<Rule>, last: Option<real>, agg: Option<Aggregator>, l: Ledger,
                     dp: DataPoint, now: int, clock: int, parse: Text -> int)
    requires LedgerValid(l, agg, clock) && clock <= now && Matches(agg, rule, parse)
    requires rule.Some? ==> ValidRule(rule.value, parse)
    ensures agg.Some? && agg.value.any ==> agg.value.count > 0
    ensures var e := ProcessOne(rule, last, agg, l, dp, now, parse);
      LedgerValid(e.ledger, e.agg, now) && Matches(e.agg, rule, parse)
  {
    hide LedgerValid, PassAll;
    LaterValid(l, agg, clock, now);
    CountPositive(l, agg, clock);
    if rule.Some? && rule.value.aggregate.Some? && dp.x.Num? {
      var aggr := rule.value.aggregate.value;
      var a := if agg.Some? then agg.value else Fresh(aggr, parse(aggr.window));
      if agg.None? {
        FreshValid(l, a, now);
      }
      if Due(a, now) {
        FlushValid(l, a, now, now);
        AcceptValid(Flushed(l, a, now), Reset(a), dp.x.v, now, now);
      } else {
        AcceptValid(l, a, dp.x.v, now, now);
      }
    } else if rule.Some? && rule.value.aggregate.Some? && agg.None? {
      var aggr := rule.value.aggregate.value;
      FreshValid(l, Fresh(aggr, parse(aggr.window)), now);
    }
  }

  /** The value of a window of numbers under the rule's name or, without one, under that of
      the point and the kind. */
  predicate Emits(o: Out, k: Key, aggr: Aggregate, vs: seq<real>, at: int) {
    && o.Derived? && o.device == k.device && o.at == at && Means(aggr.kind, vs, o.result)
    && o.name == if aggr.emitName.text == "" then Default(k.point, aggr.kind) else Named(aggr.emitName)
  }

  /** What one point comes to. Without a rule it goes on as it is; with one that rejects it
      nothing happens but to the baseline; without an aggregate it goes on. With one it is
      consumed: a number opens or joins a window, after the window it finds open has been
      emitted if that has run its length; anything else disappears. */
  lemma Outcomes(rule: Option<Rule>, last: Option<real>, agg: Option<Aggregator>, l: Ledger,
                 dp: DataPoint, now: int, clock: int, parse: Text -> int)
    requires LedgerValid(l, agg, clock) && clock <= now && Matches(agg, rule, parse)
    requires agg.Some? && agg.value.any ==> agg.value.count > 0
    ensures var e := ProcessOne(rule, last, agg, l, dp, now, parse);
      if rule.None? then e == Effect([Same(dp)], last, agg, l, 1, 0)
      else
        var r, aggregate := PassAll(rule.value.filters, dp.x, dp.q, last), rule.value.aggregate;
        && e.last == r.last
        && (!r.pass ==> e.outs == [] && e.agg == agg && e.ledger == l && e.pass == 0 && e.filtered == 1)
        && (r.pass && aggregate.None? ==> e.outs == [Same(dp)] && e.agg == agg && e.ledger == l && e.pass == 1)
        && (r.pass && aggregate.Some? ==>
              e.pass == e.filtered == 0 && Consumed(aggregate.value, agg, l, dp, now, e, parse))
  {
    hide PassAll, ValueOf, EmitNameOf;
    if rule.Some? && rule.value.aggregate.Some? {
      var aggr := rule.value.aggregate.value;
      AggregatedMeans(aggr, if agg.Some? then agg.value else Fresh(aggr, parse(aggr.window)), l, dp, now, parse);
    }
  }

  /** What an aggregate makes of a point. */
  predicate Consumed(aggr: Aggregate, agg: Option<Aggregator>, l: Ledger, dp: DataPoint, now: int, e: Effect,
                     parse: Text -> int)
  {
    if dp.x.NotNumeric? then e.outs == [] && e.ledger == l
    else
      && e.agg.Some? && e.ledger.accepted == l.accepted + [dp.x.v]
      && if l.open != [] && agg.Some? && now - agg.value.start >= parse(aggr.window) then
           && |e.outs| == 1 && Emits(e.outs[0], dp.key, aggr, l.open, now)
           && e.ledger.open == [dp.x.v] && e.agg.value.start == now
           && |e.ledger.closed| == |l.closed| + 1 && l.closed <= e.ledger.closed
         else
           && e.outs == [] && e.ledger.open == l.open + [dp.x.v] && e.ledger.closed == l.closed
           && (if l.open == [] then e.agg.value.start == now else agg.Some? && e.agg.value.start == agg.value.start)
  }

  lemma AggregatedMeans(aggr: Aggregate, a: Aggregator, l: Ledger, dp: DataPoint, now: int, parse: Text -> int)
    requires Folds(a, l.open) && a.aggr == aggr && a.window == parse(aggr.window)
    ensures a.any ==> a.count > 0
    ensures Consumed(aggr, Some(a), l, dp, now, Aggregated(a, l, dp, now), parse)
  {
    if l.open != [] { FoldsMeans(a, l.open); }
    hide Means, ValueOf, SumOf;
    if dp.x.Num? { assert [] + [dp.x.v] == [dp.x.v]; }
  }

  lemma FreshValid(l: Ledger, a: Aggregator, clock: int)
    requires LedgerValid(l, None, clock) && a == Reset(a)
    ensures LedgerValid(l, Some(a), clock)
  {
  }

  lemma CountPositive(l: Ledger, agg: Option<Aggregator>, clock: int)
    requires LedgerValid(l, agg, clock)
    ensures agg.Some? && agg.value.any ==> agg.value.count > 0
  {
  }

  /** A tick of the flush loop for one key. */
  function TickAgg(a: Aggregator, tick: int): Aggregator {
    if Due(a, tick) then Reset(a) else a
  }

  function TickLedger(l: Ledger, a: Aggregator, tick: int): Ledger
    requires a.any ==> a.count > 0
  {
    if Due(a, tick) then Flushed(l, a, tick) else l
  }

  lemma TickValid(l: Ledger, a: Aggregator, tick: int, clock: int, rule: Option<Rule>, parse: Text -> int)
    requires LedgerValid(l, Some(a), clock) && tick <= clock && Matches(Some(a), rule, parse)
    ensures a.any ==> a.count > 0
    ensures LedgerValid(TickLedger(l, a, tick), Some(TickAgg(a, tick)), clock)
    ensures Matches(Some(TickAgg(a, tick)), rule, parse)
  {
    CountPositive(l, Some(a), clock);
    if Due(a, tick) {
      FlushValid(l, a, tick, clock);
    }
  }

  /** What a reload leaves of an aggregator: gone without a rule, reset when its
      configuration changed. */
  function Kept(a: Aggregator, rule: Option<Rule>, parse: Text -> int): Option<Aggregator> {
    if rule.None? || rule.value.aggregate.None? then None
    else if a.aggr == rule.value.aggregate.value then Some(a)
    else Some(Fresh(rule.value.aggregate.value, parse(rule.value.aggregate.value.window)))
  }

  function KeptLedger(l: Ledger, a: Option<Aggregator>, rule: Option<Rule>): Ledger {
    if a.Some? && rule.Some? && rule.value.aggregate == Some(a.value.aggr) then l else Dropped(l)
  }

  lemma KeptValid(l: Ledger, a: Aggregator, clock: int, prior: Option<Rule>, rule: Option<Rule>, parse: Text -> int)
    requires LedgerValid(l, Some(a), clock) && Matches(Some(a), prior, parse)
    requires rule.Some? ==> ValidRule(rule.value, parse)
    ensures LedgerValid(KeptLedger(l, Some(a), rule), Kept(a, rule, parse), clock)
    ensures Matches(Kept(a, rule, parse), rule, parse)
    ensures rule.Some? && rule.value.aggregate == Some(a.aggr) ==>
      Kept(a, rule, parse) == Some(a) && KeptLedger(l, Some(a), rule) == l
  {
    DropValid(l, Some(a), clock);
    hide LedgerValid, Dropped;
    var k := Kept(a, rule, parse);
    if k.Some? && k.value != a {
      assert k.value == Reset(k.value);
    }
  }
}
