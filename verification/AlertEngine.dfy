/** The alert engine (internal/alert/engine.go). A value is evaluated and its table actions
    done before anything else happens; a reload compiles first and swaps later. */
module AlertEngine {
  import opened AlertRules
  import opened Wrappers

  function IndexOf(index: map<PointKey, seq<RuleID>>, pk: PointKey): seq<RuleID> {
    if pk in index then index[pk] else []
  }

  /** The reverse index names, for each point, exactly the loaded rules that refer to it. */
  ghost predicate IndexValid(index: map<PointKey, seq<RuleID>>, rules: map<RuleID, Compiled>) {
    forall pk, r :: r in IndexOf(index, pk) <==> r in rules && pk in rules[r].rule.refs
  }

  /** IDs for new alerts: all different and none in use. */
  ghost predicate FreshIDs(ids: seq<AlertID>, table: map<AlertID, Row>) {
    && (forall i, j :: 0 <= i < j < |ids| ==> ids[i] != ids[j])
    && (forall i :: 0 <= i < |ids| ==> ids[i] !in table)
  }

  /** Rules the point concerns are settled, the others as before. */
  ghost predicate AllSettled(rules0: map<RuleID, Compiled>, rules: map<RuleID, Compiled>, rs: seq<RuleID>,
                             pk: PointKey, v: Val, now: int, eval: (Expr, map<PointKey, Val>) -> Answer)
  {
    && (forall r :: r in rs ==> r in rules0 && r in rules && Settled(rules0[r], rules[r], pk, v, now, eval))
    && (forall r :: r !in rs ==> Get(rules, r) == Get(rules0, r))
  }

  /** Every rule that refers to the point has changed as the value says, no other. */
  ghost predicate AllChanged(rules0: map<RuleID, Compiled>, rules: map<RuleID, Compiled>, pk: PointKey, v: Val,
                             now: int, eval: (Expr, map<PointKey, Val>) -> Answer)
  {
    forall r :: r in rules ==>
      && r in rules0
      && if pk in rules0[r].rule.refs then Changed(rules0[r], rules[r], pk, v, now, eval) else rules[r] == rules0[r]
  }

  lemma IndexKept(index: map<PointKey, seq<RuleID>>, rules0: map<RuleID, Compiled>, rules: map<RuleID, Compiled>,
                  pk: PointKey, v: Val, now: int, eval: (Expr, map<PointKey, Val>) -> Answer)
    requires IndexValid(index, rules0) && AllSettled(rules0, rules, IndexOf(index, pk), pk, v, now, eval)
    ensures IndexValid(index, rules) && AllChanged(rules0, rules, pk, v, now, eval)
  {
    hide Changed;
    forall p, r ensures r in IndexOf(index, p) <==> r in rules && p in rules[r].rule.refs {
      assert r !in (IndexOf(index, pk)) ==> Get(rules, r) == Get(rules0, r);
    }
    forall r | r in rules
      ensures r in rules0
      ensures
        if pk in rules0[r].rule.refs then Changed(rules0[r], rules[r], pk, v, now, eval) else rules[r] == rules0[r]
    {
      assert r !in IndexOf(index, pk) ==> Get(rules, r) == Get(rules0, r);
      if r in IndexOf(index, pk) { SettledIsChanged(rules0[r], rules[r], pk, v, now, eval); }
    }
  }

  predicate Usable(r: Rule, compiles: Expr -> bool) {
    r.enabled && compiles(r.expr)
  }

  /** A rule compiled anew keeps the running state of the rule of the same ID. */
  function Compile(r: Rule, prev: Option<Compiled>): Compiled {
    match prev
    case None => Compiled(r, map[], None, None)
    case Some(prior) => Compiled(r, prior.state, prior.active, prior.lastResolved)
  }

  function LoadedAs(list: seq<Rule>, n: nat, r: RuleID, rules0: map<RuleID, Compiled>,
                    compiles: Expr -> bool): Option<Compiled>
    requires n <= |list|
  {
    if n == 0 then None
    else if list[n - 1].id == r && Usable(list[n - 1], compiles) then Some(Compile(list[n - 1], Get(rules0, r)))
    else LoadedAs(list, n - 1, r, rules0, compiles)
  }

  /** news are the listed rules that compile, with the running state they had in prior. */
  ghost predicate Loaded(news: map<RuleID, Compiled>, list: seq<Rule>, prior: map<RuleID, Compiled>,
                         compiles: Expr -> bool)
  {
    forall r: RuleID :: Get(news, r) == LoadedAs(list, |list|, r, prior, compiles)
  }

  /** Rule IDs are the primary key of the rule table. */
  ghost predicate UniqueIDs(list: seq<Rule>) {
    forall i, j :: 0 <= i < j < |list| ==> list[i].id != list[j].id
  }

  /** A value on its way to the engine, with its time and IDs for the alerts it may raise. */
  datatype Input = Input(pk: PointKey, v: Val, at: int, ids: seq<AlertID>)

  /** Times in order, and IDs enough, all different and none in use. */
  ghost predicate Supplied(inputs: seq<Input>, index: map<PointKey, seq<RuleID>>, table: map<AlertID, Row>,
                           clock: int, now: int)
  {
    && (forall i :: 0 <= i < |inputs| ==>
      |inputs[i].ids| == |IndexOf(index, inputs[i].pk)| && FreshIDs(inputs[i].ids, table))
    && (forall i :: 0 <= i < |inputs| ==> clock <= inputs[i].at <= now)
    && (forall i, j :: 0 <= i < j < |inputs| ==> inputs[i].at <= inputs[j].at)
    && (forall i, j, a :: 0 <= i < j < |inputs| && a in inputs[i].ids ==> a !in inputs[j].ids)
  }

  /** What an engine was at some moment. */
  datatype Moment = Moment(rules: map<RuleID, Compiled>, alerts: map<AlertID, Row>,
                           histories: map<RuleID, seq<Event>>, clock: int)

  ghost predicate MomentValid(m: Moment, left: set<AlertID>) {
    StateValid(m.rules, m.alerts, left, m.histories, m.clock)
  }

  /** m1 comes from m0 by values processed at time t or later. */
  ghost predicate After(m0: Moment, m1: Moment, t: int) {
    && m0.clock <= m1.clock && m1.rules.Keys == m0.rules.Keys
    && (forall a :: a in m0.alerts ==> a in m1.alerts)
    && (forall r: RuleID :: Continues(HistoryOf(m0.histories, r), HistoryOf(m1.histories, r), m0.alerts, t))
  }

  lemma AfterMore(m0: Moment, m1: Moment, m2: Moment, t: int, t': int)
    requires After(m0, m1, t) && After(m1, m2, t') && t <= t'
    ensures After(m0, m2, t)
  {
    hide Continues;
    forall r: RuleID ensures Continues(HistoryOf(m0.histories, r), HistoryOf(m2.histories, r), m0.alerts, t) {
      assert Continues(HistoryOf(m0.histories, r), HistoryOf(m1.histories, r), m0.alerts, t);
      assert Continues(HistoryOf(m1.histories, r), HistoryOf(m2.histories, r), m1.alerts, t');
      ContinuesMore(HistoryOf(m0.histories, r), HistoryOf(m1.histories, r), HistoryOf(m2.histories, r),
                    m0.alerts, m1.alerts, t, t');
    }
  }

  /** A rule compiled anew shares the values it has seen with the running one: both point
      to the same map. */
  function Shared(cr: Option<Compiled>, run: Option<Compiled>): Option<Compiled> {
    if cr.Some? && run.Some? then Some(cr.value.(state := run.value.state)) else cr
  }

  function Sharing(news: map<RuleID, Compiled>, running: map<RuleID, Compiled>): map<RuleID, Compiled> {
    map r | r in news :: if r in running then news[r].(state := running[r].state) else news[r]
  }

  class Engine {
    const eval: (Expr, map<PointKey, Val>) -> Answer
    const compiles: Expr -> bool
    var rules: map<RuleID, Compiled>
    var index: map<PointKey, seq<RuleID>>
    var alerts: map<AlertID, Row>
    ghost var histories: map<RuleID, seq<Event>>
    ghost var clock: int

    ghost const left: set<AlertID>  // pending when the gateway started

    ghost predicate Valid()
      reads this
    {
      MomentValid(Now(), left) && IndexValid(index, rules)
    }

    ghost function Now(): Moment
      reads this
    {
      Moment(rules, alerts, histories, clock)
    }

    /** Alerts of an earlier run that are still pending are left as they are: no rule
        starts out active. */
    constructor (eval: (Expr, map<PointKey, Val>) -> Answer, compiles: Expr -> bool, alerts: map<AlertID, Row>)
      ensures Valid() && this.alerts == alerts && rules == map[] && histories == map[] && index == map[] && clock == 0
      ensures this.eval == eval && this.compiles == compiles
      ensures left == set a | a in alerts && alerts[a].pending
    {
      this.eval, this.compiles, this.alerts := eval, compiles, alerts;
      rules, index, histories, clock := map[], map[], map[], 0;
      left := set a | a in alerts && alerts[a].pending;
    }

    method Process(pk: PointKey, v: Val, now: int, ids: seq<AlertID>)
      requires Valid() && clock <= now
      requires |ids| == |IndexOf(index, pk)| && FreshIDs(ids, alerts)
      modifies this
      ensures Valid() && clock == now && index == old(index)
      ensures AllSettled(old(rules), rules, IndexOf(index, pk), pk, v, now, eval)
      ensures AllChanged(old(rules), rules, pk, v, now, eval) && RowsKept(old(alerts), alerts, now)
      ensures After(old(Now()), Now(), now)
      ensures forall a :: a in alerts ==> a in old(alerts) || a in ids
    {
      var rs, ix, table := rules, index, alerts;
      ghost var hs, t := histories, clock;
      LaterState(rs, table, left, hs, t, now);
      hide *;
      var rs', actions;
      ghost var hs';
      rs', actions, hs' := EvaluateRules(rs, IndexOf(ix, pk), pk, v, now, ids, table, hs);
      var table' := DoActions(table, actions, now);
      IndexKept(ix, rs, rs', pk, v, now, eval);
      SettledKeys(rs, rs', IndexOf(ix, pk), pk, v, now, eval);
      rules, alerts, histories, clock := rs', table', hs', now;
    }

    /** Update every rule the point concerns and collect what is to be done. */
    method EvaluateRules(rules0: map<RuleID, Compiled>, rs: seq<RuleID>, pk: PointKey, v: Val, now: int,
                         ids: seq<AlertID>, ghost table: map<AlertID, Row>, ghost hs0: map<RuleID, seq<Event>>)
      returns (rules': map<RuleID, Compiled>, actions: seq<Action>, ghost hs: map<RuleID, seq<Event>>)
      requires StateValid(rules0, table, left, hs0, now) && forall r :: r in rs ==> r in rules0
      requires |ids| == |rs| && FreshIDs(ids, table)
      ensures StateValid(rules', DoAll(table, actions, now), left, hs, now)
      ensures AllSettled(rules0, rules', rs, pk, v, now, eval)
      ensures After(Moment(rules0, table, hs0, now), Moment(rules', DoAll(table, actions, now), hs, now), now)
      ensures forall a :: a in DoAll(table, actions, now) ==> a in table || a in ids
      ensures RowsKept(table, DoAll(table, actions, now), now)
    {
      assert RowsKept(table, table, now);
      hide StateValid, AllSettled, Evaluate, After, FreshIDs, EventOf, RowsKept;
      rules', actions, hs := rules0, [], hs0;
      ghost var m0, m := Moment(rules0, table, hs0, now), Moment(rules0, table, hs0, now);
      assert rs[..0] == [];
      SettledNone(rules0, pk, v, now, eval);
      AfterNone(m0, now);
      for k := 0 to |rs|
        invariant m == Moment(rules', DoAll(table, actions, now), hs, now) && MomentValid(m, left)
        invariant AllSettled(rules0, rules', rs[..k], pk, v, now, eval)
        invariant After(m0, m, now)
        invariant forall a :: a in m.alerts ==> a in table || a in ids[..k]
        invariant RowsKept(table, m.alerts, now)
      {
        var r := rs[k];
        assert r in rs && rs[..k + 1] == rs[..k] + [r] && ids[..k + 1] == ids[..k] + [ids[k]];
        NextIsFresh(ids, k, table, m.alerts);
        SettledKeys(rules0, rules', rs[..k], pk, v, now, eval);
        EvaluateValid(rules', m.alerts, left, hs, now, r, pk, v, now, ids[k], eval);
        OneSettled(rules0, rules', rs[..k], r, pk, v, now, ids[k], eval);
        EvaluateAfter(m0, m, r, pk, v, now, ids[k], eval);
        RowsMore(table, m.alerts, rules'[r], pk, v, now, ids[k], eval);
        var e := Evaluate(rules'[r], pk, v, now, ids[k], eval);
        hs := hs[r := Extended(HistoryOf(hs, r), rules'[r], e.action, now)];
        rules' := rules'[r := e.cr];
        if e.action.Some? {
          DoAllMore(table, actions, e.action.value, now);
          actions := actions + [e.action.value];
        }
        m := Moment(rules', DoAll(table, actions, now), hs, now);
      }
      assert rs[..|rs|] == rs && ids[..|ids|] == ids;
    }

    /** Write the alert table: a new alert for a fire, a new status for a resolve. */
    method DoActions(table0: map<AlertID, Row>, actions: seq<Action>, now: int) returns (table: map<AlertID, Row>)
      ensures table == DoAll(table0, actions, now)
    {
      table := table0;
      for i := 0 to |actions|
        invariant table == DoAll(table0, actions[..i], now)
      {
        DoAllMore(table0, actions[..i], actions[i], now);
        assert actions[..i + 1] == actions[..i] + [actions[i]];
        table := DoAction(table, actions[i], now);
      }
      assert actions[..|actions|] == actions;
    }

    /** Reload: compile the listed rules from what is running, without the mutex, so that
        values may be processed before they are put in place. running are the rules as they
        are then; rules that are gone are unloaded and their alerts resolved. */
    method Reload(list: seq<Rule>, between: seq<Input>, now: int) returns (ghost running: map<RuleID, Compiled>)
      requires Valid() && clock <= now && UniqueIDs(list) && Supplied(between, index, alerts, clock, now)
      modifies this
      ensures clock == now && IndexValid(index, rules)
      ensures forall r: RuleID ::
        Get(rules, r) == Shared(LoadedAs(list, |list|, r, old(rules), compiles), Get(running, r))
      ensures AsListed(list, old(rules), running, rules, compiles)
      ensures running.Keys == old(rules).Keys && (between == [] ==> running == old(rules))
      ensures forall a :: a in old(alerts) ==> a in alerts
      ensures between == [] ==> forall a :: a in alerts ==> a in old(alerts)
      ensures between == [] ==> forall a :: a in old(alerts) && !old(alerts)[a].pending ==> alerts[a] == old(alerts)[a]
      ensures Valid() <==> forall r :: r in old(rules) && r in rules ==>
        Quiet(HistoryOf(old(histories), r), HistoryOf(histories, r))
      ensures (forall i :: 0 <= i < |between| ==> old(clock) < between[i].at) ==>
        (Valid() <==> forall r :: r in old(rules) && r in rules ==>
          HistoryOf(old(histories), r) == HistoryOf(histories, r))
      ensures between == [] ==> Valid()
    {
      hide MomentValid, After, IndexValid, FreshIDs, LoadedAs, Loaded, Sharing, Continues, AllSettled, AsListed;
      var news, ix := Load(list, rules);
      ghost var m := Now();
      ghost var t := if between == [] then now else between[0].at;
      AfterNone(m, t);
      for n := 0 to |between|
        invariant Valid() && index == old(index) && clock <= now
        invariant After(m, Now(), t) && (n == 0 ==> Now() == m)
        invariant n < |between| ==> clock <= between[n].at
        invariant forall a :: a in alerts ==> a in old(alerts) || exists i :: 0 <= i < n && a in between[i].ids
      {
        var x := between[n];
        ghost var m' := Now();
        StillFresh(between, n, index, old(alerts), alerts, old(clock), now);
        Process(x.pk, x.v, x.at, x.ids);
        AfterMore(m, m', Now(), t, x.at);
      }
      running := rules;
      AfterFacts(m, Now(), t);
      SharingGets(list, m.rules, news, running, compiles);
      SharingListed(list, m.rules, news, running, compiles);
      Swap(list, news, ix, now, m, t);
    }

    /** Put compiled rules in place and unload those that are gone. */
    method Swap(list: seq<Rule>, news: map<RuleID, Compiled>, ix: map<PointKey, seq<RuleID>>, now: int,
                ghost m: Moment, ghost t: int)
      requires Valid() && clock <= now && UniqueIDs(list)
      requires MomentValid(m, left) && After(m, Now(), t)
      requires IndexValid(ix, news) && Loaded(news, list, m.rules, compiles)
      modifies this
      ensures clock == now && IndexValid(index, rules) && rules == Sharing(news, old(rules))
      ensures forall a :: a in alerts <==> a in old(alerts)
      ensures forall r :: r in rules ==> HistoryOf(histories, r) == HistoryOf(old(histories), r)
      ensures Valid() <==> forall r :: r in m.rules && r in rules ==>
        Quiet(HistoryOf(m.histories, r), HistoryOf(histories, r))
      ensures m.clock < t ==>
        (Valid() <==> forall r :: r in m.rules && r in rules ==> HistoryOf(m.histories, r) == HistoryOf(histories, r))
      ensures Valid() ==> forall a :: a in old(alerts) && !old(alerts)[a].pending ==> alerts[a] == old(alerts)[a]
    {
      hide StateValid, IndexValid, After, Loaded, Sharing, Quiet, HistoryOf;
      var run, table := rules, alerts;
      ghost var hs, c := histories, clock;
      LaterState(run, table, left, hs, c, now);
      AfterFacts(m, Now(), t);
      SharedIndex(ix, news, run);
      var shared, table';
      ghost var hs';
      shared, table', hs' := Exchange(list, news, m, Moment(run, table, hs, now), t, run, table, now);
      rules, index, alerts, histories, clock := shared, ix, table', hs', now;
    }

    method Exchange(list: seq<Rule>, news: map<RuleID, Compiled>, ghost m0: Moment, ghost m: Moment, ghost t: int,
                    run: map<RuleID, Compiled>, table0: map<AlertID, Row>, now: int)
      returns (shared: map<RuleID, Compiled>, table: map<AlertID, Row>, ghost hs: map<RuleID, seq<Event>>)
      requires MomentValid(m0, left) && MomentValid(m, left) && After(m0, m, t)
        && Loaded(news, list, m0.rules, compiles)
      requires run == m.rules && table0 == m.alerts && now == m.clock
      ensures shared == Sharing(news, run) && shared.Keys == news.Keys
      ensures forall a :: a in table <==> a in table0
      ensures forall r :: r in news ==> HistoryOf(hs, r) == HistoryOf(m.histories, r)
      ensures StateValid(shared, table, left, hs, m.clock)
        <==> forall r :: r in m.rules && r in news ==> Quiet(HistoryOf(m0.histories, r), HistoryOf(hs, r))
      ensures m0.clock < t ==>
        (StateValid(shared, table, left, hs, m.clock)
         <==> forall r :: r in m.rules && r in news ==> HistoryOf(m0.histories, r) == HistoryOf(hs, r))
      ensures StateValid(shared, table, left, hs, m.clock) ==>
        forall a :: a in table0 && !table0[a].pending ==> a in table && table[a] == table0[a]
    {
      hide StateValid, MomentValid, After, Loaded, HistoryOf;
      shared := Sharing(news, run);
      assert shared.Keys == news.Keys;
      hide Sharing, Both;
      StaleSwapIff(m0, m, left, t, list, news, compiles);
      table, hs := ResolveGone(run, shared, table0, m.histories, now);
      if StateValid(shared, table, left, hs, m.clock) {
        ValidThenQuiet(m0, m, left, t, list, news, compiles, table, hs);
      }
    }

    method Load(list: seq<Rule>, prior: map<RuleID, Compiled>)
      returns (news: map<RuleID, Compiled>, ix: map<PointKey, seq<RuleID>>)
      requires UniqueIDs(list)
      ensures Loaded(news, list, prior, compiles) && IndexValid(ix, news)
    {
      news, ix := map[], map[];
      for n := 0 to |list|
        invariant forall r: RuleID :: Get(news, r) == LoadedAs(list, n, r, prior, compiles)
        invariant IndexValid(ix, news)
      {
        var x := list[n];
        if Usable(x, compiles) {
          NotLoadedBefore(list, n, list[n].id, prior, compiles);
          assert x.id !in news by { assert Get(news, x.id).None?; }
          ghost var ix0 := ix;
          for m := 0 to |x.refs|
            invariant forall pk, r :: r in IndexOf(ix, pk) <==>
              r in IndexOf(ix0, pk) || (r == x.id && pk in x.refs[..m])
          {
            assert x.refs[..m + 1] == x.refs[..m] + [x.refs[m]];
            ix := ix[x.refs[m] := IndexOf(ix, x.refs[m]) + [x.id]];
          }
          assert x.refs[..|x.refs|] == x.refs;
          news := news[x.id := Compile(x, Get(prior, x.id))];
        }
      }
    }

    method ResolveGone(prior: map<RuleID, Compiled>, news: map<RuleID, Compiled>, table0: map<AlertID, Row>,
                       ghost hs0: map<RuleID, seq<Event>>, now: int)
      returns (table: map<AlertID, Row>, ghost hs: map<RuleID, seq<Event>>)
      ensures StateValid(Both(news, prior, prior.Keys), table0, left, hs0, now) ==>
        StateValid(news, table, left, hs, now)
      ensures StateValid(Both(news, prior, prior.Keys), table0, left, hs0, now) ==>
        forall a :: a in table0 && !table0[a].pending ==> a in table && table[a] == table0[a]
      ensures forall a :: a in table <==> a in table0
      ensures forall r :: r in news ==> HistoryOf(hs, r) == HistoryOf(hs0, r)
    {
      table, hs := table0, hs0;
      var todo := prior.Keys;
      ghost var valid := StateValid(Both(news, prior, prior.Keys), table0, left, hs0, now);
      while todo != {}
        invariant todo <= prior.Keys && (valid ==> StateValid(Both(news, prior, todo), table, left, hs, now))
        invariant valid ==> forall a :: a in table0 && !table0[a].pending ==> a in table && table[a] == table0[a]
        invariant forall a :: a in table <==> a in table0
        invariant forall r :: r in news ==> HistoryOf(hs, r) == HistoryOf(hs0, r)
      {
        var r :| r in todo;
        if r !in news {
          if valid { UnloadValid(Both(news, prior, todo), table, left, hs, now, r); }
          assert Both(news, prior, todo) - {r} == Both(news, prior, todo - {r});
          hide StateValid, Both, UnloadedHistory;
          hs := hs[r := UnloadedHistory(HistoryOf(hs, r), prior[r], now)];
          if prior[r].active.Some? {
            table := DoAction(table, Resolve(prior[r].active.value), now);
          }
        } else {
          assert Both(news, prior, todo) == Both(news, prior, todo - {r});
        }
        todo := todo - {r};
      }
      assert Both(news, prior, {}) == news;
    }
  }

  lemma LaterState(rules: map<RuleID, Compiled>, table: map<AlertID, Row>, left: set<AlertID>,
                   hs: map<RuleID, seq<Event>>, clock: int, now: int)
    requires StateValid(rules, table, left, hs, clock) && clock <= now
    ensures StateValid(rules, table, left, hs, now)
  {
    forall r: RuleID ensures HistoryValid(HistoryOf(hs, r), Get(rules, r), now) {
      LaterHistory(HistoryOf(hs, r), Get(rules, r), clock, now);
    }
  }

  lemma NextIsFresh(ids: seq<AlertID>, k: nat, table: map<AlertID, Row>, table': map<AlertID, Row>)
    requires k < |ids| && FreshIDs(ids, table) && forall a :: a in table' ==> a in table || a in ids[..k]
    ensures ids[k] !in table'
  {
  }

  lemma SettledNone(rules: map<RuleID, Compiled>, pk: PointKey, v: Val, now: int,
                    eval: (Expr, map<PointKey, Val>) -> Answer)
    ensures AllSettled(rules, rules, [], pk, v, now, eval)
  {
  }

  lemma SettledKeys(rules0: map<RuleID, Compiled>, rules: map<RuleID, Compiled>, rs: seq<RuleID>,
                    pk: PointKey, v: Val, now: int, eval: (Expr, map<PointKey, Val>) -> Answer)
    requires AllSettled(rules0, rules, rs, pk, v, now, eval)
    ensures rules.Keys == rules0.Keys
  {
    forall r ensures r in rules <==> r in rules0 {
      assert r !in rs ==> Get(rules, r) == Get(rules0, r);
    }
  }

  /** One evaluation with its table action continues the histories. */
  lemma EvaluateAfter(m0: Moment, m: Moment, r: RuleID, pk: PointKey, v: Val, now: int, alert: AlertID,
                      eval: (Expr, map<PointKey, Val>) -> Answer)
    requires After(m0, m, now) && m.clock == now && r in m.rules && alert !in m.alerts
    ensures var e := Evaluate(m.rules[r], pk, v, now, alert, eval);
      After(m0, Moment(m.rules[r := e.cr], if e.action.Some? then DoAction(m.alerts, e.action.value, now) else m.alerts,
                       m.histories[r := Extended(HistoryOf(m.histories, r), m.rules[r], e.action, now)], now), now)
  {
    var e := Evaluate(m.rules[r], pk, v, now, alert, eval);
    EvaluateCases(m.rules[r], pk, v, now, alert, eval);
    hide Evaluate;
    var h := HistoryOf(m.histories, r);
    var h' := Extended(h, m.rules[r], e.action, now);
    var hs' := m.histories[r := h'];
    forall q: RuleID ensures Continues(HistoryOf(m0.histories, q), HistoryOf(hs', q), m0.alerts, now) {
      assert Continues(HistoryOf(m0.histories, q), HistoryOf(m.histories, q), m0.alerts, now);
    }
  }

  lemma AfterFacts(m0: Moment, m: Moment, t: int)
    requires After(m0, m, t)
    ensures m.rules.Keys == m0.rules.Keys && forall a :: a in m0.alerts ==> a in m.alerts
    ensures forall now :: m.clock <= now ==> After(m0, m.(clock := now), t)
  {
  }

  lemma AfterNone(m: Moment, t: int)
    ensures After(m, m, t)
  {
  }

  /** The IDs of the next value are still unused. */
  lemma StillFresh(inputs: seq<Input>, n: nat, index: map<PointKey, seq<RuleID>>, table0: map<AlertID, Row>,
                   table: map<AlertID, Row>, clock: int, now: int)
    requires n < |inputs| && Supplied(inputs, index, table0, clock, now)
    requires forall a :: a in table ==> a in table0 || exists i :: 0 <= i < n && a in inputs[i].ids
    ensures FreshIDs(inputs[n].ids, table)
  {
  }

  lemma OneSettled(rules0: map<RuleID, Compiled>, rules: map<RuleID, Compiled>, done: seq<RuleID>, r: RuleID,
                   pk: PointKey, v: Val, now: int, alert: AlertID, eval: (Expr, map<PointKey, Val>) -> Answer)
    requires AllSettled(rules0, rules, done, pk, v, now, eval) && r in rules0 && r in rules
    ensures var e := Evaluate(rules[r], pk, v, now, alert, eval);
      && AllSettled(rules0, rules[r := e.cr], done + [r], pk, v, now, eval)
      && (e.action.Some? && e.action.value.Fire? ==> e.action.value.alert == alert)
  {
    if r in done {
      SettledAgain(rules0[r], rules[r], pk, v, now, alert, eval);
    } else {
      assert Get(rules, r) == Get(rules0, r);
    }
    EvaluateCases(rules[r], pk, v, now, alert, eval);
  }

  // Reloading.

  lemma {:induction false} NotLoadedBefore(list: seq<Rule>, n: nat, r: RuleID, rules0: map<RuleID, Compiled>,
                                           compiles: Expr -> bool)
    requires n <= |list| && forall i :: 0 <= i < n ==> list[i].id != r
    ensures LoadedAs(list, n, r, rules0, compiles).None?
  {
    if n > 0 {
      NotLoadedBefore(list, n - 1, r, rules0, compiles);
    }
  }

  lemma {:induction false} LoadedIs(list: seq<Rule>, n: nat, i: nat, rules0: map<RuleID, Compiled>,
                                    compiles: Expr -> bool)
    requires i < n <= |list| && UniqueIDs(list)
    ensures LoadedAs(list, n, list[i].id, rules0, compiles) ==
      if list[i].enabled && compiles(list[i].expr) then Some(Compile(list[i], Get(rules0, list[i].id))) else None
  {
    if i == n - 1 {
      NotLoadedBefore(list, n - 1, list[i].id, rules0, compiles);
    } else {
      LoadedIs(list, n - 1, i, rules0, compiles);
    }
  }

  /** Exactly the listed rules that are enabled and compile are in place, each as listed, with
      the alert and the time of its last resolve from when it was compiled and the values
      seen by the rule that was running. */
  ghost predicate AsListed(list: seq<Rule>, prior: map<RuleID, Compiled>, run: map<RuleID, Compiled>,
                           rules: map<RuleID, Compiled>, compiles: Expr -> bool)
  {
    && (forall r :: r in rules ==> exists i :: 0 <= i < |list| && list[i].id == r)
    && (forall i :: 0 <= i < |list| ==> (list[i].id in rules <==> list[i].enabled && compiles(list[i].expr)))
    && (forall i :: 0 <= i < |list| && list[i].id in rules ==> ListedAs(list[i], prior, run, rules[list[i].id]))
  }

  predicate ListedAs(r: Rule, prior: map<RuleID, Compiled>, run: map<RuleID, Compiled>, cr: Compiled) {
    && cr.rule == r
    && cr.active == (if r.id in prior then prior[r.id].active else None)
    && cr.lastResolved == (if r.id in prior then prior[r.id].lastResolved else None)
    && (r.id in run ==> cr.state == run[r.id].state)
    && (r.id !in run ==> cr.state == if r.id in prior then prior[r.id].state else map[])
  }

  lemma SharingListed(list: seq<Rule>, prior: map<RuleID, Compiled>, news: map<RuleID, Compiled>,
                      run: map<RuleID, Compiled>, compiles: Expr -> bool)
    requires Loaded(news, list, prior, compiles) && UniqueIDs(list)
    ensures AsListed(list, prior, run, Sharing(news, run), compiles)
  {
    forall r | r in news ensures exists i :: 0 <= i < |list| && list[i].id == r {
      assert Get(news, r) == LoadedAs(list, |list|, r, prior, compiles);
      if forall i :: 0 <= i < |list| ==> list[i].id != r { NotLoadedBefore(list, |list|, r, prior, compiles); }
    }
    forall i | 0 <= i < |list|
      ensures list[i].id in news <==> list[i].enabled && compiles(list[i].expr)
      ensures list[i].id in news ==> news[list[i].id] == Compile(list[i], Get(prior, list[i].id))
    {
      LoadedIs(list, |list|, i, prior, compiles);
      assert Get(news, list[i].id) == LoadedAs(list, |list|, list[i].id, prior, compiles);
    }
  }

  /** The new rules and those old ones that are not dealt with yet. */
  function Both(news: map<RuleID, Compiled>, prior: map<RuleID, Compiled>, todo: set<RuleID>): map<RuleID, Compiled> {
    map r | r in prior.Keys + news.Keys && (r in news || r in todo) :: if r in news then news[r] else prior[r]
  }

  /** A rule's alert state is the same; one that was not loaded starts blank. */
  predicate SameState(a: Option<Compiled>, b: Option<Compiled>, r: RuleID) {
    && (a.Some? ==> b.Some? && b.value.active == a.value.active && b.value.lastResolved == a.value.lastResolved)
    && (a.None? && b.Some? ==> b.value.active.None? && b.value.lastResolved.None?)
    && (b.Some? ==> b.value.rule.id == r)
  }

  lemma {:induction false} LoadedFacts(list: seq<Rule>, n: nat, r: RuleID, rules0: map<RuleID, Compiled>,
                                       compiles: Expr -> bool)
    requires n <= |list|
    ensures var cr := LoadedAs(list, n, r, rules0, compiles); cr.Some? ==> SameState(Get(rules0, r), cr, r)
  {
    if n > 0 {
      LoadedFacts(list, n - 1, r, rules0, compiles);
    }
  }

  /** The rules put in place have the alert state of prior; rules that were not loaded
      start blank. */
  lemma SharedFacts(list: seq<Rule>, prior: map<RuleID, Compiled>, news: map<RuleID, Compiled>,
                    run: map<RuleID, Compiled>, compiles: Expr -> bool, r: RuleID)
    requires Loaded(news, list, prior, compiles) && r in news
    ensures var cr := Sharing(news, run)[r];
      && cr.rule.id == r
      && cr.active == (if r in prior then prior[r].active else None)
      && cr.lastResolved == (if r in prior then prior[r].lastResolved else None)
  {
    LoadedFacts(list, |list|, r, prior, compiles);
    assert Get(news, r) == LoadedAs(list, |list|, r, prior, compiles);
  }

  lemma SharingGets(list: seq<Rule>, prior: map<RuleID, Compiled>, news: map<RuleID, Compiled>,
                    run: map<RuleID, Compiled>, compiles: Expr -> bool)
    requires Loaded(news, list, prior, compiles)
    ensures forall r: RuleID ::
      Get(Sharing(news, run), r) == Shared(LoadedAs(list, |list|, r, prior, compiles), Get(run, r))
  {
    hide LoadedAs;
    forall r: RuleID
      ensures Get(Sharing(news, run), r) == Shared(LoadedAs(list, |list|, r, prior, compiles), Get(run, r))
    {
      assert Get(news, r) == LoadedAs(list, |list|, r, prior, compiles);
    }
  }

  lemma SharedIndex(ix: map<PointKey, seq<RuleID>>, news: map<RuleID, Compiled>, run: map<RuleID, Compiled>)
    requires IndexValid(ix, news)
    ensures IndexValid(ix, Sharing(news, run))
  {
  }

  /** The source compiles the new rules from the running state before it takes the mutex to
      swap them in, so values may be processed in between: m0 was then, m is now. The state
      is valid after the swap if and only if every rule that stays was quiet. */
  lemma StaleSwapIff(m0: Moment, m: Moment, left: set<AlertID>, t: int, list: seq<Rule>, news: map<RuleID, Compiled>,
                     compiles: Expr -> bool)
    requires MomentValid(m0, left) && MomentValid(m, left) && After(m0, m, t) && Loaded(news, list, m0.rules, compiles)
    ensures StateValid(Both(Sharing(news, m.rules), m.rules, m.rules.Keys), m.alerts, left, m.histories, m.clock)
      <==> forall r :: r in m.rules && r in news ==> Quiet(HistoryOf(m0.histories, r), HistoryOf(m.histories, r))
    ensures m0.clock < t ==>
      forall r :: r in m.rules && r in news && Quiet(HistoryOf(m0.histories, r), HistoryOf(m.histories, r)) ==>
        HistoryOf(m0.histories, r) == HistoryOf(m.histories, r)
  {
    var both := Both(Sharing(news, m.rules), m.rules, m.rules.Keys);
    forall r | r in m.rules && r in news
      ensures HistoryValid(HistoryOf(m.histories, r), Get(both, r), m.clock) <==>
        Quiet(HistoryOf(m0.histories, r), HistoryOf(m.histories, r))
      ensures m0.clock < t && Quiet(HistoryOf(m0.histories, r), HistoryOf(m.histories, r)) ==>
        HistoryOf(m0.histories, r) == HistoryOf(m.histories, r)
    {
      StaleFits(m0, m, left, t, list, news, compiles, r);
    }
    if forall r :: r in m.rules && r in news ==> Quiet(HistoryOf(m0.histories, r), HistoryOf(m.histories, r)) {
      QuietSwap(m0, m, left, t, list, news, compiles);
    }
  }

  lemma StaleFits(m0: Moment, m: Moment, left: set<AlertID>, t: int, list: seq<Rule>, news: map<RuleID, Compiled>,
                  compiles: Expr -> bool, r: RuleID)
    requires MomentValid(m0, left) && MomentValid(m, left) && After(m0, m, t) && Loaded(news, list, m0.rules, compiles)
    requires r in m.rules && r in news
    ensures var h0, h, cr := HistoryOf(m0.histories, r), HistoryOf(m.histories, r), Sharing(news, m.rules)[r];
      && cr.rule.id == r
      && (HistoryValid(h, Some(cr), m.clock) <==> Quiet(h0, h))
      && (Quiet(h0, h) ==> cr.active == m.rules[r].active)
      && (m0.clock < t && Quiet(h0, h) ==> h0 == h)
  {
    var h0, h, cr := HistoryOf(m0.histories, r), HistoryOf(m.histories, r), Sharing(news, m.rules)[r];
    SharedFacts(list, m0.rules, news, m.rules, compiles, r);
    assert HistoryValid(h0, Get(m0.rules, r), m0.clock) && HistoryValid(h, Get(m.rules, r), m.clock);
    assert Recorded(h0, r, m0.alerts) && Continues(h0, h, m0.alerts, t);
    StaleFitsIff(h0, h, m0.rules[r], m.rules[r], r, m0.alerts, m0.clock, t, m.clock);
    hide Quiet, Alternates, Continues, Recorded;
    assert Ends(h, Some(cr), m.clock) == Ends(h, Some(m0.rules[r]), m.clock);
  }

  lemma QuietSwap(m0: Moment, m: Moment, left: set<AlertID>, t: int, list: seq<Rule>, news: map<RuleID, Compiled>,
                  compiles: Expr -> bool)
    requires MomentValid(m0, left) && MomentValid(m, left) && After(m0, m, t) && Loaded(news, list, m0.rules, compiles)
    requires forall r :: r in m.rules && r in news ==> Quiet(HistoryOf(m0.histories, r), HistoryOf(m.histories, r))
    ensures StateValid(Both(Sharing(news, m.rules), m.rules, m.rules.Keys), m.alerts, left, m.histories, m.clock)
  {
    var both := Both(Sharing(news, m.rules), m.rules, m.rules.Keys);
    forall r: RuleID
      ensures SameAlert(Get(m.rules, r), Get(both, r), r)
        && HistoryValid(HistoryOf(m.histories, r), Get(both, r), m.clock)
    {
      assert Raised(Get(m.rules, r), r, m.alerts) && HistoryValid(HistoryOf(m.histories, r), Get(m.rules, r), m.clock);
      if r in news {
        SharedFacts(list, m0.rules, news, m.rules, compiles, r);
        if r in m.rules { StaleFits(m0, m, left, t, list, news, compiles, r); }
      }
    }
    hide Both, Sharing, HistoryValid, Recorded, Quiet, Loaded, After;
    forall r: RuleID ensures Raised(Get(both, r), r, m.alerts) && Recorded(HistoryOf(m.histories, r), r, m.alerts) {
      assert Raised(Get(m.rules, r), r, m.alerts) && SameAlert(Get(m.rules, r), Get(both, r), r);
    }
    forall a: AlertID ensures Owned(both, m.alerts, left, a) {
      assert Owned(m.rules, m.alerts, left, a);
      if a in m.alerts {
        var r := m.alerts[a].rule;
        assert SameAlert(Get(m.rules, r), Get(both, r), r);
      }
    }
  }

  /** A rule has the same alert, if any; one that was not loaded has none. */
  predicate SameAlert(a: Option<Compiled>, b: Option<Compiled>, r: RuleID) {
    && (a.Some? ==> b.Some? && b.value.active == a.value.active)
    && (a.None? && b.Some? ==> b.value.active.None?)
    && (b.Some? ==> b.value.rule.id == r)
  }

  /** Once the rules that are gone are unloaded, a state that is valid shows that the rules
      that stay were quiet. */
  lemma ValidThenQuiet(m0: Moment, m: Moment, left: set<AlertID>, t: int, list: seq<Rule>, news: map<RuleID, Compiled>,
                       compiles: Expr -> bool, table: map<AlertID, Row>, hs: map<RuleID, seq<Event>>)
    requires MomentValid(m0, left) && MomentValid(m, left) && After(m0, m, t) && Loaded(news, list, m0.rules, compiles)
    requires StateValid(Sharing(news, m.rules), table, left, hs, m.clock)
    requires forall r :: r in news ==> HistoryOf(hs, r) == HistoryOf(m.histories, r)
    ensures forall r :: r in m.rules && r in news ==> Quiet(HistoryOf(m0.histories, r), HistoryOf(m.histories, r))
  {
    var shared := Sharing(news, m.rules);
    forall r | r in m.rules && r in news ensures Quiet(HistoryOf(m0.histories, r), HistoryOf(m.histories, r)) {
      assert HistoryValid(HistoryOf(hs, r), Get(shared, r), m.clock);
      StaleFits(m0, m, left, t, list, news, compiles, r);
    }
  }

  function UnloadedHistory(h: seq<Event>, cr: Compiled, now: int): seq<Event> {
    h + (if cr.active.Some? then [Resolved(cr.active.value, now)] else []) + [Unloaded]
  }

  lemma UnloadedValid(h: seq<Event>, cr: Compiled, now: int)
    requires HistoryValid(h, Some(cr), now)
    ensures HistoryValid(UnloadedHistory(h, cr, now), None, now)
  {
    var h1 := h + if cr.active.Some? then [Resolved(cr.active.value, now)] else [];
    if cr.active.Some? {
      AlternatesMore(h, Resolved(cr.active.value, now));
    } else {
      assert h1 == h;
    }
    assert Alternates(h1);
    AlternatesMore(h1, Unloaded);
  }

  lemma UnloadedRecorded(h: seq<Event>, cr: Compiled, now: int, r: RuleID, table: map<AlertID, Row>)
    requires Recorded(h, r, table)
    requires cr.active.Some? ==> RecordedEvent(Resolved(cr.active.value, now), r, table)
    ensures Recorded(UnloadedHistory(h, cr, now), r, table)
  {
  }

  /** Unloading a rule and resolving its alert keeps rules and table in agreement. */
  lemma UnloadValid(rules: map<RuleID, Compiled>, table: map<AlertID, Row>, left: set<AlertID>,
                    hs: map<RuleID, seq<Event>>, now: int, r: RuleID)
    requires StateValid(rules, table, left, hs, now) && r in rules
    ensures var cr := rules[r];
      StateValid(rules - {r}, if cr.active.Some? then DoAction(table, Resolve(cr.active.value), now) else table, left,
        hs[r := UnloadedHistory(HistoryOf(hs, r), cr, now)], now)
    ensures rules[r].active.Some? ==> rules[r].active.value in table && table[rules[r].active.value].pending
  {
    var cr := rules[r];
    var table' := if cr.active.Some? then DoAction(table, Resolve(cr.active.value), now) else table;
    var hs' := hs[r := UnloadedHistory(HistoryOf(hs, r), cr, now)];
    var rules' := rules - {r};
    assert Raised(Get(rules, r), r, table) && HistoryValid(HistoryOf(hs, r), Get(rules, r), now);
    UnloadedValid(HistoryOf(hs, r), cr, now);
    forall q: RuleID ensures Recorded(HistoryOf(hs', q), q, table') {
      assert Recorded(HistoryOf(hs, q), q, table);
      if cr.active.Some? {
        RecordedStill(HistoryOf(hs, q), q, table, Resolve(cr.active.value), now);
      }
      if q == r { UnloadedRecorded(HistoryOf(hs, r), cr, now, r, table'); }
    }
    hide HistoryValid, UnloadedHistory, Recorded;
    forall q: RuleID ensures Raised(Get(rules', q), q, table') && HistoryValid(HistoryOf(hs', q), Get(rules', q), now) {
      assert Raised(Get(rules, q), q, table) && HistoryValid(HistoryOf(hs, q), Get(rules, q), now);
    }
    forall a: AlertID ensures Owned(rules', table', left, a) {
      assert Owned(rules, table, left, a);
    }
  }

  // A reload that loses a cooldown.

  const POINT := PointKey("device", "level")
  const HIGH := Rule(RuleID("high"), true, Expr("level > 80"), [POINT], 0, 60)

  function IsHigh(e: Expr, values: map<PointKey, Val>): Answer {
    if POINT in values && values[POINT] == Val(90) then Yes else No
  }

  function AnyExpr(e: Expr): bool {
    true
  }

  /** n IDs, told apart by their length. */
  function IDs(n: nat, longer: nat): (ids: seq<AlertID>)
    ensures |ids| == n && forall i :: 0 <= i < n ==> |ids[i].text| == longer + i
  {
    seq(n, i requires 0 <= i < n => AlertID(seq(longer + i, _ => 'x')))
  }

  lemma IDsFresh(n: nat, longer: nat, table: map<AlertID, Row>)
    requires forall a :: a in table ==> |a.text| < longer
    ensures FreshIDs(IDs(n, longer), table)
  {
    var ids := IDs(n, longer);
    forall i, j | 0 <= i < j < n ensures ids[i] != ids[j] {
      assert |ids[i].text| != |ids[j].text|;
    }
  }

  /** What a value does to the rule above. */
  lemma HighSettles(rules0: map<RuleID, Compiled>, rules: map<RuleID, Compiled>, rs: seq<RuleID>, level: int, now: int)
    requires AllSettled(rules0, rules, rs, POINT, Val(level), now, IsHigh) && HIGH.id in rs
    requires rules0[HIGH.id].rule == HIGH && rules0[HIGH.id].lastResolved == None
    ensures HIGH.id in rules && rules[HIGH.id].rule == HIGH
    ensures level == 90 ==> rules[HIGH.id].active.Some? && rules[HIGH.id].lastResolved == None
    ensures level != 90 && rules0[HIGH.id].active.Some? ==>
      rules[HIGH.id].active.None? && rules[HIGH.id].lastResolved == Some(now)
  {
    var seen := See(rules0[HIGH.id], POINT, Val(level), now);
    assert AllFresh(seen, now);
    assert Values(seen.state)[POINT] == Val(level);
  }

  lemma HistoryEnds(m: Moment, left: set<AlertID>, r: RuleID)
    requires MomentValid(m, left) && r in m.rules && m.rules[r].active == None
    ensures var h := HistoryOf(m.histories, r); if m.rules[r].lastResolved == None then h == [] || h[|h| - 1].Unloaded?
      else h != [] && h[|h| - 1].Resolved? && Some(h[|h| - 1].at) == m.rules[r].lastResolved
  {
    assert HistoryValid(HistoryOf(m.histories, r), Get(m.rules, r), m.clock);
  }

  /** An engine that has loaded the rule above and seen nothing yet. */
  method StartHigh() returns (e: Engine)
    ensures fresh(e) && e.Valid() && e.eval == IsHigh && e.compiles == AnyExpr && e.clock == 0 && e.alerts == map[]
    ensures HIGH.id in e.rules && e.rules[HIGH.id] == Compiled(HIGH, map[], None, None)
    ensures HIGH.id in IndexOf(e.index, POINT)
  {
    hide StateValid, Quiet;
    e := new Engine(IsHigh, AnyExpr, map[]);
    ghost var running := e.Reload([HIGH], [], 0);
    assert [HIGH][0] == HIGH;
    assert Get(e.rules, HIGH.id) == Some(Compiled(HIGH, map[], None, None));
    assert HIGH.refs[0] == POINT;
  }

  /** Its alert is raised at 10 s and resolved at 20 s. */
  method RaiseAndResolve(e: Engine)
    requires e.Valid() && e.eval == IsHigh && e.clock == 0 && e.alerts == map[]
    requires HIGH.id in e.rules && e.rules[HIGH.id] == Compiled(HIGH, map[], None, None)
      && HIGH.id in IndexOf(e.index, POINT)
    modifies e
    ensures e.Valid() && e.clock == 20 * SECOND && After(old(e.Now()), e.Now(), 10 * SECOND)
    ensures HIGH.id in e.rules && e.rules[HIGH.id].active == None && e.rules[HIGH.id].lastResolved == Some(20 * SECOND)
  {
    hide Settled, AllSettled, After, IndexValid, MomentValid, FreshIDs;
    var rs := IndexOf(e.index, POINT);
    ghost var m := e.Now();
    IDsFresh(|rs|, 0, e.alerts);
    e.Process(POINT, Val(90), 10 * SECOND, IDs(|rs|, 0));
    ghost var m1 := e.Now();
    HighSettles(m.rules, m1.rules, rs, 90, 10 * SECOND);
    IDsFresh(|rs|, |rs|, e.alerts);
    e.Process(POINT, Val(0), 20 * SECOND, IDs(|rs|, |rs|));
    HighSettles(m1.rules, e.rules, rs, 0, 20 * SECOND);
    AfterMore(m, m1, e.Now(), 10 * SECOND, 20 * SECOND);
  }

  /** Both happen between the compilation of the rule and the swap. Afterwards the rule does
      not know that it was ever resolved, so its cooldown of 60 s is lost. */
  method ReloadForgetsCooldown() returns (e: Engine)
    ensures !e.Valid()
    ensures HIGH.id in e.rules && e.rules[HIGH.id].lastResolved == None
    ensures var h := HistoryOf(e.histories, HIGH.id); h != [] && h[|h| - 1].Resolved? && h[|h| - 1].at == 20 * SECOND
  {
    hide After, Loaded, IndexValid, MomentValid, Sharing;
    e := StartHigh();
    var news, ix := e.Load([HIGH], e.rules);
    ghost var m := e.Now();
    HistoryEnds(m, e.left, HIGH.id);
    RaiseAndResolve(e);
    HistoryEnds(e.Now(), e.left, HIGH.id);
    IsLoaded([HIGH], m.rules, news, e.rules);
    SharedFacts([HIGH], m.rules, news, e.rules, AnyExpr, HIGH.id);
    e.Swap([HIGH], news, ix, 30 * SECOND, m, 10 * SECOND);
  }

  lemma IsLoaded(list: seq<Rule>, prior: map<RuleID, Compiled>, news: map<RuleID, Compiled>, run: map<RuleID, Compiled>)
    requires list == [HIGH] && Loaded(news, list, prior, AnyExpr)
    ensures HIGH.id in news && HIGH.id in Sharing(news, run)
  {
    assert list[0] == HIGH && Get(news, HIGH.id) == LoadedAs(list, 1, HIGH.id, prior, AnyExpr);
  }
}
