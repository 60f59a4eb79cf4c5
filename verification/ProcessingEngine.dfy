/** The engine object of internal/processing/engine.go: each method holds the mutex once and
    does to every key what Processing says. */
module ProcessingEngine {
  import opened Filters
  import opened Windows
  import opened Processing
  import opened Wrappers

  ghost predicate KeyValid(rule: Option<Rule>, last: Option<real>, agg: Option<Aggregator>, l: Ledger,
                           clock: int, parse: Text -> int)
  {
    && (rule.Some? ==> ValidRule(rule.value, parse))
    && (last.Some? ==> rule.Some?)
    && Matches(agg, rule, parse)
    && LedgerValid(l, agg, clock)
  }

  ghost predicate StateValid(rules: map<Key, Rule>, last: map<Key, real>, aggs: map<Key, Aggregator>,
                             ledgers: map<Key, Ledger>, clock: int, parse: Text -> int)
  {
    forall k: Key :: KeyValid(Get(rules, k), Get(last, k), Get(aggs, k), LedgerOf(ledgers, k), clock, parse)
  }

  /** m' is m except that key k now has value v. */
  ghost predicate Only<V>(m: map<Key, V>, k: Key, v: Option<V>, m': map<Key, V>) {
    Get(m', k) == v && forall j :: j != k ==> Get(m', j) == Get(m, j)
  }

  class Engine {
    const parse: Text -> int
    var rules: map<Key, Rule>
    var last: map<Key, real>
    var aggs: map<Key, Aggregator>
    var stats: Stats
    /** The windows of every key, the time, and the points taken for aggregation. */
    ghost var ledgers: map<Key, Ledger>
    ghost var clock: int
    ghost var taken: nat

    ghost predicate Valid()
      reads this
    {
      && StateValid(rules, last, aggs, ledgers, clock, parse)
      && stats.pointsIn == stats.pass + stats.filtered + taken
    }

    constructor (parse: Text -> int)
      ensures Valid() && rules == map[] && last == map[] && aggs == map[] && ledgers == map[]
      ensures this.parse == parse
    {
      this.parse := parse;
      rules, last, aggs, stats := map[], map[], map[], Stats(0, 0, 0, 0);
      ledgers, clock, taken := map[], 0, 0;
    }

    /** now is the reading of the clock under the mutex. */
    method Process(dp: DataPoint, now: int) returns (outs: seq<Out>)
      requires Valid() && clock <= now
      modifies this
      ensures Valid() && clock == now && rules == old(rules)
      ensures Get(old(aggs), dp.key).Some? && Get(old(aggs), dp.key).value.any ==>
        Get(old(aggs), dp.key).value.count > 0
      ensures var k := dp.key;
        var e := ProcessOne(Get(rules, k), Get(old(last), k), Get(old(aggs), k), LedgerOf(old(ledgers), k),
                            dp, now, parse);
        && outs == e.outs && Only(old(last), k, e.last, last) && Only(old(aggs), k, e.agg, aggs)
        && Only(old(ledgers), k, Some(e.ledger), ledgers)
        && stats.pointsIn == old(stats.pointsIn) + 1
        && stats.pass == old(stats.pass) + e.pass && stats.filtered == old(stats.filtered) + e.filtered
        && stats.aggregated == old(stats.aggregated) + |e.outs| - e.pass
    {
      var k := dp.key;
      var rs, la, ag, st := rules, last, aggs, stats;
      ghost var ls, t := ledgers, clock;
      KeyOf(rs, la, ag, ls, k, t, parse);
      ProcessValid(Get(rs, k), Get(la, k), Get(ag, k), LedgerOf(ls, k), dp, now, t, parse);
      ghost var e := ProcessOne(Get(rs, k), Get(la, k), Get(ag, k), LedgerOf(ls, k), dp, now, parse);
      BaselineKept(Get(rs, k), Get(la, k), Get(ag, k), LedgerOf(ls, k), dp, now, parse);
      hide *;
      var outcome := Decide(Get(rs, k), Get(la, k), Get(ag, k), LedgerOf(ls, k), dp, now);
      var la' := Put(la, k, outcome.last);
      var ag' := Put(ag, k, outcome.agg);
      ghost var ls' := ls[k := e.ledger];
      OneKey(rs, la, ag, ls, t, k, e, la', ag', ls', now, parse);
      last, aggs, ledgers, clock := la', ag', ls', now;
      stats := Stats(st.pointsIn + 1, st.pass + outcome.pass, st.filtered + outcome.filtered,
        st.aggregated + outcome.derived);
      taken := taken + 1 - outcome.pass - outcome.filtered;
      outs := outcome.outs;
    }

    /** The branches of Process for one point, on the state of its key. */
    method Decide(rule: Option<Rule>, last: Option<real>, agg: Option<Aggregator>, ghost l: Ledger,
                  dp: DataPoint, now: int) returns (o: Outcome)
      requires agg.Some? && agg.value.any ==> agg.value.count > 0
      ensures var e := ProcessOne(rule, last, agg, l, dp, now, parse);
        && o.outs == e.outs && o.last == e.last && o.agg == e.agg && o.pass == e.pass && o.filtered == e.filtered
        && o.pass + o.filtered <= 1 && o.derived + o.pass == |o.outs|
    {
      if rule.None? {
        return Outcome([Same(dp)], last, agg, 1, 0, 0);
      }
      var r := PassFilters(rule.value.filters, dp.x, dp.q, last);
      if !r.pass {
        return Outcome([], r.last, agg, 0, 1, 0);
      }
      if rule.value.aggregate.Some? {
        var aggr := rule.value.aggregate.value;
        var a := if agg.Some? then agg.value else Fresh(aggr, parse(aggr.window));
        var outs;
        a, outs := AggregateAdd(a, l, dp, now);
        return Outcome(outs, r.last, Some(a), 0, 0, |outs|);
      }
      return Outcome([Same(dp)], r.last, agg, 1, 0, 0);
    }

    /** A due window is flushed before the number opens the next one. */
    method AggregateAdd(a0: Aggregator, ghost l: Ledger, dp: DataPoint, now: int)
        returns (a: Aggregator, outs: seq<Out>)
      requires a0.any ==> a0.count > 0
      ensures var e := Aggregated(a0, l, dp, now); e.agg == Some(a) && e.outs == outs
    {
      a, outs := a0, [];
      if dp.x.NotNumeric? {
        return;
      }
      if Due(a, now) {
        outs := [Derived(dp.key.device, EmitNameOf(dp.key, a.aggr), ValueOf(a), now)];
        a := Reset(a);
      }
      a := Add(a, dp.x.v, now);
    }

    /** One tick of the flush loop. The tick may have been taken before the mutex was, so it
        may lie behind the clock. */
    method Flush(tick: int, now: int) returns (outs: seq<Out>)
      requires Valid() && clock <= now && tick <= now
      modifies this
      ensures Valid() && clock == now && rules == old(rules) && last == old(last)
      ensures Countable(old(aggs))
      ensures Ticked(old(aggs), old(ledgers), old(aggs).Keys, tick, aggs, ledgers)
      ensures EmittedAll(old(aggs), old(aggs).Keys, tick, outs)
      ensures forall k :: k in aggs && aggs[k].any ==> tick - aggs[k].start < aggs[k].window
      ensures stats == old(stats).(aggregated := old(stats).aggregated + |outs|)
    {
      var rs, la, ag, st := rules, last, aggs, stats;
      ghost var ls, t := ledgers, clock;
      forall k | k in ag && ag[k].any ensures ag[k].count > 0 {
        assert KeyValid(Get(rs, k), Get(la, k), Get(ag, k), LedgerOf(ls, k), t, parse);
        CountPositive(LedgerOf(ls, k), Some(ag[k]), t);
      }
      hide *;
      var ag';
      ghost var ls';
      ag', ls', outs := FlushAll(ag, ls, tick);
      TickedValid(rs, la, ag, ls, t, tick, ag', ls', now, parse);
      NoneDue(ag, ls, tick, ag', ls');
      aggs, ledgers, clock := ag', ls', now;
      stats := Stats(st.pointsIn, st.pass, st.filtered, st.aggregated + |outs|);
    }

    method FlushAll(ag: map<Key, Aggregator>, ghost ls: map<Key, Ledger>, tick: int)
      returns (ag': map<Key, Aggregator>, ghost ls': map<Key, Ledger>, outs: seq<Out>)
      requires Countable(ag)
      ensures Ticked(ag, ls, ag.Keys, tick, ag', ls') && EmittedAll(ag, ag.Keys, tick, outs)
    {
      ag', ls', outs := ag, ls, [];
      var todo := ag.Keys;
      assert DueKeys(ag, ag.Keys - todo, tick) == {};
      while todo != {}
        invariant todo <= ag.Keys
        invariant Ticked(ag, ls, ag.Keys - todo, tick, ag', ls') && EmittedAll(ag, ag.Keys - todo, tick, outs)
      {
        var k :| k in todo;
        TickedMore(ag, ls, ag.Keys - todo, k, tick, ag', ls', outs);
        hide *;
        assert ag.Keys - (todo - {k}) == (ag.Keys - todo) + {k};
        if Due(ag[k], tick) {
          ls' := ls'[k := Flushed(LedgerOf(ls, k), ag[k], tick)];
          ag' := ag'[k := Reset(ag[k])];
          outs := outs + [DerivedAt(k, ag[k], tick)];
        }
        todo := todo - {k};
      }
      assert ag.Keys - todo == ag.Keys;
    }

    /** Load the rules of the configured devices and fit the state to them. */
    method Reload(ds: seq<Device>)
      requires Valid()
      modifies this
      ensures Valid() && clock == old(clock) && stats == old(stats) && RulesAre(rules, ds, parse)
      ensures Fits(old(last), old(aggs), old(ledgers), rules, last, aggs, ledgers, parse)
    {
      var rs, la, ag := rules, last, aggs;
      ghost var ls, t := ledgers, clock;
      var rs' := LoadRules(ds);
      RulesValid(rs', ds, parse);
      hide *;
      var la', ag';
      ghost var ls';
      la', ag', ls' := Fit(la, ag, ls, rs');
      ReloadValid(rs, la, ag, ls, rs', la', ag', ls', t, parse);
      rules, last, aggs, ledgers := rs', la', ag', ls';
    }

    /** Delete what has no rule any more, reset what was configured anew. */
    method Fit(la: map<Key, real>, ag: map<Key, Aggregator>, ghost ls: map<Key, Ledger>, rs': map<Key, Rule>)
      returns (la': map<Key, real>, ag': map<Key, Aggregator>, ghost ls': map<Key, Ledger>)
      ensures FitsRules(la, ag, rs', la', ag', parse)
      ensures Fits(la, ag, ls, rs', la', ag', ls', parse)
    {
      la' := map k | k in la && k in rs' :: la[k];
      ag' := map k | k in ag && KeptAgg(Some(ag[k]), Get(rs', k), parse).Some? ::
        KeptAgg(Some(ag[k]), Get(rs', k), parse).value;
      ls' := map k | k in ls :: KeptLedger(ls[k], Get(ag, k), Get(rs', k));
      hide Kept, KeptLedger;
      forall k: Key ensures LedgerOf(ls', k) == KeptLedger(LedgerOf(ls, k), Get(ag, k), Get(rs', k)) {
      }
    }

    method LoadRules(ds: seq<Device>) returns (rs: map<Key, Rule>)
      ensures RulesAre(rs, ds, parse)
    {
      rs := map[];
      for n := 0 to |ds|
        invariant forall k :: Get(rs, k) == RuleOf(ds, n, k, parse)
      {
        rs := LoadDevice(ds[n], rs);
      }
    }

    method LoadDevice(d: Device, rs0: map<Key, Rule>) returns (rs: map<Key, Rule>)
      ensures forall k ::
        Get(rs, k) == var r := RuleAt(d, |d.points|, k, parse); if r.Some? then r else Get(rs0, k)
    {
      rs := rs0;
      if !d.enabled {
        forall k ensures RuleAt(d, |d.points|, k, parse).None? {
          Disabled(d, |d.points|, k, parse);
        }
        return;
      }
      for n := 0 to |d.points|
        invariant forall k :: Get(rs, k) == var r := RuleAt(d, n, k, parse); if r.Some? then r else Get(rs0, k)
      {
        var p := d.points[n];
        if p.processing.Some? && ValidRule(p.processing.value, parse) {
          rs := rs[Key(d.id, p.name) := p.processing.value];
        }
      }
    }
  }

  datatype Outcome = Outcome(outs: seq<Out>, last: Option<real>, agg: Option<Aggregator>, pass: nat, filtered: nat,
                             derived: nat)

  /** Set a key, or leave the map alone when there is nothing to set. */
  function Put<V>(m: map<Key, V>, k: Key, v: Option<V>): map<Key, V> {
    if v.Some? then m[k := v.value] else m
  }

  lemma KeyOf(rules: map<Key, Rule>, last: map<Key, real>, aggs: map<Key, Aggregator>,
              ledgers: map<Key, Ledger>, k: Key, clock: int, parse: Text -> int)
    requires StateValid(rules, last, aggs, ledgers, clock, parse)
    ensures KeyValid(Get(rules, k), Get(last, k), Get(aggs, k), LedgerOf(ledgers, k), clock, parse)
  {
  }

  /** A baseline or an aggregator once there stays, and a key without rule keeps its baseline. */
  lemma BaselineKept(rule: Option<Rule>, last: Option<real>, agg: Option<Aggregator>, l: Ledger,
                     dp: DataPoint, now: int, parse: Text -> int)
    requires agg.Some? && agg.value.any ==> agg.value.count > 0
    ensures var e := ProcessOne(rule, last, agg, l, dp, now, parse);
      && (last.Some? ==> e.last.Some?) && (agg.Some? ==> e.agg.Some?) && (rule.None? ==> e.last == last)
  {
    if rule.Some? {
      KeepsBaseline(rule.value.filters, dp.x, dp.q, last);
    }
  }

  lemma {:induction false} KeepsBaseline(fs: seq<Filter>, x: Val, q: Quality, last: Option<real>)
    ensures last.Some? ==> PassAll(fs, x, q, last).last.Some?
    decreases |fs|
  {
    if fs != [] {
      var r := PassOne(fs[0], x, q, last);
      if r.pass {
        KeepsBaseline(fs[1..], x, q, r.last);
      }
    }
  }

  /** Changing the state of one key keeps every key valid. */
  lemma OneKey(rules: map<Key, Rule>, last: map<Key, real>, aggs: map<Key, Aggregator>,
               ledgers: map<Key, Ledger>, clock: int, k: Key, e: Effect,
               last': map<Key, real>, aggs': map<Key, Aggregator>, ledgers': map<Key, Ledger>,
               now: int, parse: Text -> int)
    requires StateValid(rules, last, aggs, ledgers, clock, parse) && clock <= now
    requires last' == Put(last, k, e.last) && aggs' == Put(aggs, k, e.agg) && ledgers' == ledgers[k := e.ledger]
    requires (Get(last, k).Some? ==> e.last.Some?) && (Get(aggs, k).Some? ==> e.agg.Some?)
    requires Get(rules, k).None? ==> e.last == Get(last, k)
    requires LedgerValid(e.ledger, e.agg, now) && Matches(e.agg, Get(rules, k), parse)
    ensures StateValid(rules, last', aggs', ledgers', now, parse)
    ensures Only(last, k, e.last, last') && Only(aggs, k, e.agg, aggs') && Only(ledgers, k, Some(e.ledger), ledgers')
  {
    hide LedgerValid, ValidRule, Matches;
    forall j: Key ensures KeyValid(Get(rules, j), Get(last', j), Get(aggs', j), LedgerOf(ledgers', j), now, parse) {
      assert KeyValid(Get(rules, j), Get(last, j), Get(aggs, j), LedgerOf(ledgers, j), clock, parse);
      if j != k {
        LaterValid(LedgerOf(ledgers, j), Get(aggs, j), clock, now);
      }
    }
  }

  // Flushing.

  predicate Countable(aggs: map<Key, Aggregator>) {
    forall k :: k in aggs && aggs[k].any ==> aggs[k].count > 0
  }

  function DerivedAt(k: Key, a: Aggregator, tick: int): Out
    requires a.any ==> a.count > 0
  {
    Derived(k.device, EmitNameOf(k, a.aggr), ValueOf(a), tick)
  }

  /** The windows of the keys in done that are due are flushed, all else is as before. */
  ghost predicate Ticked(aggs: map<Key, Aggregator>, ledgers: map<Key, Ledger>, done: set<Key>, tick: int,
                         aggs': map<Key, Aggregator>, ledgers': map<Key, Ledger>)
    requires Countable(aggs)
  {
    && aggs'.Keys == aggs.Keys
    && (forall k :: k in aggs ==> aggs'[k] == if k in done then TickAgg(aggs[k], tick) else aggs[k])
    && (forall k :: LedgerOf(ledgers', k) == LedgerAfter(aggs, ledgers, done, tick, k))
  }

  ghost function LedgerAfter(aggs: map<Key, Aggregator>, ledgers: map<Key, Ledger>, done: set<Key>, tick: int,
                             k: Key): Ledger
    requires Countable(aggs)
  {
    if k in aggs && k in done then TickLedger(LedgerOf(ledgers, k), aggs[k], tick) else LedgerOf(ledgers, k)
  }

  ghost function DueKeys(aggs: map<Key, Aggregator>, done: set<Key>, tick: int): set<Key> {
    set k | k in done && k in aggs && Due(aggs[k], tick)
  }

  /** One output for each due key of done. */
  ghost predicate EmittedAll(aggs: map<Key, Aggregator>, done: set<Key>, tick: int, outs: seq<Out>)
    requires Countable(aggs)
  {
    && |outs| == |DueKeys(aggs, done, tick)|
    && forall k :: k in DueKeys(aggs, done, tick) ==> DerivedAt(k, aggs[k], tick) in outs
  }

  /** Every window that has run its length is emitted with its value under its name. */
  lemma FlushEmits(aggs: map<Key, Aggregator>, ledgers: map<Key, Ledger>, clock: int, tick: int, outs: seq<Out>, k: Key)
    requires Countable(aggs) && EmittedAll(aggs, aggs.Keys, tick, outs) && k in aggs
    requires LedgerValid(LedgerOf(ledgers, k), Some(aggs[k]), clock)
    requires aggs[k].any && aggs[k].window <= tick - aggs[k].start
    ensures exists o :: o in outs && Emits(o, k, aggs[k].aggr, LedgerOf(ledgers, k).open, tick)
  {
    FoldsMeans(aggs[k], LedgerOf(ledgers, k).open);
    assert k in DueKeys(aggs, aggs.Keys, tick);
    assert Emits(DerivedAt(k, aggs[k], tick), k, aggs[k].aggr, LedgerOf(ledgers, k).open, tick);
  }

  lemma TickedMore(aggs: map<Key, Aggregator>, ledgers: map<Key, Ledger>, done: set<Key>, k: Key, tick: int,
                   aggs1: map<Key, Aggregator>, ledgers1: map<Key, Ledger>, outs: seq<Out>)
    requires Countable(aggs) && k in aggs && k !in done
    requires Ticked(aggs, ledgers, done, tick, aggs1, ledgers1) && EmittedAll(aggs, done, tick, outs)
    ensures var a := aggs[k];
      if Due(a, tick) then
        && Ticked(aggs, ledgers, done + {k}, tick, aggs1[k := Reset(a)],
                  ledgers1[k := Flushed(LedgerOf(ledgers, k), a, tick)])
        && EmittedAll(aggs, done + {k}, tick, outs + [DerivedAt(k, a, tick)])
      else
        && Ticked(aggs, ledgers, done + {k}, tick, aggs1, ledgers1) && EmittedAll(aggs, done + {k}, tick, outs)
  {
    var a := aggs[k];
    EmittedMore(aggs, done, k, tick, outs);
    hide EmittedAll, Countable, Flushed, Reset, Due;
    if Due(a, tick) {
      var ledgers' := ledgers1[k := Flushed(LedgerOf(ledgers, k), a, tick)];
      forall j ensures LedgerOf(ledgers', j) == LedgerAfter(aggs, ledgers, done + {k}, tick, j) {
        assert LedgerOf(ledgers1, j) == LedgerAfter(aggs, ledgers, done, tick, j);
      }
    } else {
      forall j ensures LedgerOf(ledgers1, j) == LedgerAfter(aggs, ledgers, done + {k}, tick, j) {
        assert LedgerOf(ledgers1, j) == LedgerAfter(aggs, ledgers, done, tick, j);
      }
    }
  }

  lemma EmittedMore(aggs: map<Key, Aggregator>, done: set<Key>, k: Key, tick: int, outs: seq<Out>)
    requires Countable(aggs) && k in aggs && k !in done && EmittedAll(aggs, done, tick, outs)
    ensures EmittedAll(aggs, done + {k}, tick,
                       if Due(aggs[k], tick) then outs + [DerivedAt(k, aggs[k], tick)] else outs)
  {
    hide Due, DerivedAt;
    var due, due' := DueKeys(aggs, done, tick), DueKeys(aggs, done + {k}, tick);
    assert due' == if Due(aggs[k], tick) then due + {k} else due;
  }

  /** After a tick no window that has run its length is open. */
  lemma NoneDue(aggs: map<Key, Aggregator>, ledgers: map<Key, Ledger>, tick: int,
                aggs': map<Key, Aggregator>, ledgers': map<Key, Ledger>)
    requires Countable(aggs) && Ticked(aggs, ledgers, aggs.Keys, tick, aggs', ledgers')
    ensures forall k :: k in aggs' && aggs'[k].any ==> tick - aggs'[k].start < aggs'[k].window
  {
    hide LedgerAfter;
    forall k | k in aggs' && aggs'[k].any ensures tick - aggs'[k].start < aggs'[k].window {
      assert aggs'[k] == TickAgg(aggs[k], tick);
    }
  }

  lemma TickedValid(rules: map<Key, Rule>, last: map<Key, real>, aggs: map<Key, Aggregator>,
                    ledgers: map<Key, Ledger>, clock: int, tick: int,
                    aggs': map<Key, Aggregator>, ledgers': map<Key, Ledger>, now: int, parse: Text -> int)
    requires StateValid(rules, last, aggs, ledgers, clock, parse) && clock <= now && tick <= now
    requires Countable(aggs) && Ticked(aggs, ledgers, aggs.Keys, tick, aggs', ledgers')
    ensures StateValid(rules, last, aggs', ledgers', now, parse)
  {
    hide LedgerValid, ValidRule, Matches, TickAgg, TickLedger;
    forall k: Key ensures KeyValid(Get(rules, k), Get(last, k), Get(aggs', k), LedgerOf(ledgers', k), now, parse) {
      assert KeyValid(Get(rules, k), Get(last, k), Get(aggs, k), LedgerOf(ledgers, k), clock, parse);
      LaterValid(LedgerOf(ledgers, k), Get(aggs, k), clock, now);
      if k in aggs {
        TickValid(LedgerOf(ledgers, k), aggs[k], tick, now, Get(rules, k), parse);
      }
    }
  }

  // Reloading.

  function KeptAgg(a: Option<Aggregator>, rule: Option<Rule>, parse: Text -> int): Option<Aggregator> {
    if a.Some? then Kept(a.value, rule, parse) else None
  }

  lemma {:induction false} Disabled(d: Device, n: nat, k: Key, parse: Text -> int)
    requires n <= |d.points| && !d.enabled
    ensures RuleAt(d, n, k, parse).None?
  {
    if n > 0 {
      Disabled(d, n - 1, k, parse);
    }
  }

  lemma {:induction false} RuleAtValid(d: Device, n: nat, k: Key, parse: Text -> int)
    requires n <= |d.points|
    ensures var r := RuleAt(d, n, k, parse); r.Some? ==> ValidRule(r.value, parse)
  {
    if n > 0 {
      RuleAtValid(d, n - 1, k, parse);
    }
  }

  lemma {:induction false} RuleOfValid(ds: seq<Device>, n: nat, k: Key, parse: Text -> int)
    requires n <= |ds|
    ensures var r := RuleOf(ds, n, k, parse); r.Some? ==> ValidRule(r.value, parse)
  {
    if n > 0 {
      RuleAtValid(ds[n - 1], |ds[n - 1].points|, k, parse);
      RuleOfValid(ds, n - 1, k, parse);
    }
  }

  lemma RulesValid(rules: map<Key, Rule>, ds: seq<Device>, parse: Text -> int)
    requires RulesAre(rules, ds, parse)
    ensures forall k :: k in rules ==> ValidRule(rules[k], parse)
  {
    forall k | k in rules ensures ValidRule(rules[k], parse) {
      RuleOfValid(ds, |ds|, k, parse);
      assert Get(rules, k) == RuleOf(ds, |ds|, k, parse);
    }
  }

  lemma ReloadValid(rules: map<Key, Rule>, last: map<Key, real>, aggs: map<Key, Aggregator>,
                    ledgers: map<Key, Ledger>, rules': map<Key, Rule>, last': map<Key, real>,
                    aggs': map<Key, Aggregator>, ledgers': map<Key, Ledger>, clock: int, parse: Text -> int)
    requires StateValid(rules, last, aggs, ledgers, clock, parse)
    requires forall k :: k in rules' ==> ValidRule(rules'[k], parse)
    requires Fits(last, aggs, ledgers, rules', last', aggs', ledgers', parse)
    ensures StateValid(rules', last', aggs', ledgers', clock, parse)
  {
    hide LedgerValid, ValidRule, Matches, Kept, KeptLedger;
    forall k: Key
      ensures KeyValid(Get(rules', k), Get(last', k), Get(aggs', k), LedgerOf(ledgers', k), clock, parse)
    {
      assert KeyValid(Get(rules, k), Get(last, k), Get(aggs, k), LedgerOf(ledgers, k), clock, parse);
      if k in aggs {
        KeptValid(LedgerOf(ledgers, k), aggs[k], clock, Get(rules, k), Get(rules', k), parse);
      } else {
        NoneKept(LedgerOf(ledgers, k), Get(rules', k), clock, parse);
      }
    }
  }

  ghost predicate FitsRules(last: map<Key, real>, aggs: map<Key, Aggregator>, rules': map<Key, Rule>,
                            last': map<Key, real>, aggs': map<Key, Aggregator>, parse: Text -> int)
  {
    && (forall k: Key :: Get(last', k) == if k in rules' then Get(last, k) else None)
    && (forall k: Key :: Get(aggs', k) == KeptAgg(Get(aggs, k), Get(rules', k), parse))
  }

  /** The state after a reload: baselines and aggregators of keys that still have a rule, an
      aggregator configured anew started anew, and what it had open counted as discarded. */
  ghost predicate Fits(last: map<Key, real>, aggs: map<Key, Aggregator>, ledgers: map<Key, Ledger>,
                       rules': map<Key, Rule>, last': map<Key, real>, aggs': map<Key, Aggregator>,
                       ledgers': map<Key, Ledger>, parse: Text -> int)
  {
    && FitsRules(last, aggs, rules', last', aggs', parse)
    && (forall k: Key :: LedgerOf(ledgers', k) == KeptLedger(LedgerOf(ledgers, k), Get(aggs, k), Get(rules', k)))
  }

  lemma NoneKept(l: Ledger, rule: Option<Rule>, clock: int, parse: Text -> int)
    requires LedgerValid(l, None, clock)
    ensures LedgerValid(KeptLedger(l, None, rule), None, clock) && Matches(None, rule, parse)
  {
  }

  /** In every state the engine can reach, for every key: each accepted number is in exactly
      one window, in order; each emitted value is the aggregate of its window; each emission
      is at least its window's length after the one before; and an aggregator belongs to the
      key's current rule. */
  lemma WindowsOf(rules: map<Key, Rule>, last: map<Key, real>, aggs: map<Key, Aggregator>,
                  ledgers: map<Key, Ledger>, clock: int, parse: Text -> int, k: Key)
    requires StateValid(rules, last, aggs, ledgers, clock, parse)
    ensures var l := LedgerOf(ledgers, k);
      && l.accepted == Flatten(l.closed) + l.open && Truthful(l.closed) && Spaced(l.closed)
      && Matches(Get(aggs, k), Get(rules, k), parse)
  {
    KeyOf(rules, last, aggs, ledgers, k, clock, parse);
  }
}
