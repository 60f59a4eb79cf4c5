/** Alert rules, their edge-triggered state, and the alert table (internal/alert/engine.go).
    Expressions are an uninterpreted function of the values a rule has seen. Time is in
    nanoseconds. */
module AlertRules {
  import opened Wrappers

  datatype RuleID = RuleID(text: string)

  datatype AlertID = AlertID(text: string)

  datatype PointKey = PointKey(device: string, point: string)

  datatype Expr = Expr(text: string)

  datatype Val = Val(token: int)

  datatype PointValue = PointValue(value: Val, ts: int)

  datatype Rule = Rule(id: RuleID, enabled: bool, expr: Expr, refs: seq<PointKey>, freshnessSeconds: int,
                       cooldownSeconds: int)

  /** Yes and No are the truth value; Fails is an error or a result that is not a bool. */
  datatype Answer = Yes | No | Fails

  /** A loaded rule: active is the alert it has raised and not resolved, if any. */
  datatype Compiled = Compiled(rule: Rule, state: map<PointKey, PointValue>, active: Option<AlertID>,
                               lastResolved: Option<int>)

  const SECOND := 1_000_000_000
  const DEFAULT_FRESHNESS_SECONDS := 300

  function Freshness(r: Rule): int {
    (if r.freshnessSeconds <= 0 then DEFAULT_FRESHNESS_SECONDS else r.freshnessSeconds) * SECOND
  }

  function Cooldown(r: Rule): int {
    r.cooldownSeconds * SECOND
  }

  predicate AllFresh(cr: Compiled, now: int) {
    forall i :: 0 <= i < |cr.rule.refs| ==>
      var pk := cr.rule.refs[i];
      pk in cr.state && now - cr.state[pk].ts <= Freshness(cr.rule)
  }

  function Values(state: map<PointKey, PointValue>): map<PointKey, Val> {
    map pk | pk in state :: state[pk].value
  }

  predicate Suppressed(cr: Compiled, now: int) {
    Cooldown(cr.rule) > 0 && cr.lastResolved.Some? && now - cr.lastResolved.value < Cooldown(cr.rule)
  }

  datatype Action = Fire(rule: RuleID, alert: AlertID) | Resolve(alert: AlertID)

  datatype Verdict = Verdict(cr: Compiled, action: Option<Action>)

  function See(cr: Compiled, pk: PointKey, v: Val, now: int): Compiled {
    cr.(state := cr.state[pk := PointValue(v, now)])
  }

  /** What the expression says of a rule at a time; Fails also when a value is missing or old. */
  function Ask(cr: Compiled, now: int, eval: (Expr, map<PointKey, Val>) -> Answer): Answer {
    if AllFresh(cr, now) then eval(cr.rule.expr, Values(cr.state)) else Fails
  }

  /** One new value for one rule; alert is the ID a new alert would get. */
  function Evaluate(cr0: Compiled, pk: PointKey, v: Val, now: int, alert: AlertID,
                    eval: (Expr, map<PointKey, Val>) -> Answer): Verdict
  {
    var cr := See(cr0, pk, v, now);
    match Ask(cr, now, eval)
    case Fails => Verdict(cr, None)
    case Yes =>
      if cr.active.Some? || Suppressed(cr, now) then Verdict(cr, None)
      else Verdict(cr.(active := Some(alert)), Some(Fire(cr.rule.id, alert)))
    case No =>
      if cr.active.None? then Verdict(cr, None)
      else Verdict(cr.(active := None, lastResolved := Some(now)), Some(Resolve(cr.active.value)))
  }

  // The alert table.

  datatype Row = Row(rule: RuleID, pending: bool, triggeredAt: int, resolvedAt: Option<int>)

  function DoAction(table: map<AlertID, Row>, a: Action, now: int): map<AlertID, Row> {
    match a
    case Fire(rule, alert) => table[alert := Row(rule, true, now, None)]
    case Resolve(alert) =>
      if alert in table then table[alert := table[alert].(pending := false, resolvedAt := Some(now))] else table
  }

  function DoAll(table: map<AlertID, Row>, actions: seq<Action>, now: int): map<AlertID, Row> {
    if actions == [] then table
    else DoAction(DoAll(table, actions[..|actions| - 1], now), actions[|actions| - 1], now)
  }

  lemma DoAllMore(table: map<AlertID, Row>, actions: seq<Action>, a: Action, now: int)
    ensures DoAll(table, actions + [a], now) == DoAction(DoAll(table, actions, now), a, now)
  {
    assert (actions + [a])[..|actions|] == actions;
  }

  /** Rows are never removed and at most resolved; new ones are of this instant. */
  ghost predicate RowsKept(table: map<AlertID, Row>, table': map<AlertID, Row>, now: int) {
    && (forall a :: a in table ==>
         && a in table'
         && (table'[a] == table[a] || table'[a] == table[a].(pending := false, resolvedAt := Some(now))))
    && (forall a :: a in table' && a !in table ==>
         table'[a].triggeredAt == now && (table'[a].resolvedAt.Some? ==> table'[a].resolvedAt == Some(now)))
  }

  // The history of a rule.

  datatype Event = Fired(alert: AlertID, at: int, cooldown: int) | Resolved(alert: AlertID, at: int) | Unloaded

  /** May e come after h? Fires and resolves alternate, a resolve is of the alert just fired,
      an unloaded rule has no open alert, and while a rule stays loaded a fire keeps the
      cooldown after the last resolve. */
  predicate MayFollow(h: seq<Event>, e: Event) {
    match e
    case Fired(_, at, cooldown) =>
      h == [] || !(h[|h| - 1].Fired? || (h[|h| - 1].Resolved? && at - h[|h| - 1].at < cooldown))
    case Resolved(alert, at) =>
      h != [] && h[|h| - 1].Fired? && h[|h| - 1].alert == alert && h[|h| - 1].at <= at
    case Unloaded => h == [] || !h[|h| - 1].Fired?
  }

  predicate Alternates(h: seq<Event>) {
    forall i :: 0 <= i < |h| ==> MayFollow(h[..i], h[i])
  }

  lemma AlternatesMore(h: seq<Event>, e: Event)
    requires Alternates(h) && MayFollow(h, e)
    ensures Alternates(h + [e])
  {
    var h' := h + [e];
    forall i | 0 <= i < |h'| ensures MayFollow(h'[..i], h'[i]) {
      if i < |h| {
        assert h'[..i] == h[..i];
      } else {
        assert h'[..i] == h;
      }
    }
  }

  /** Between two fires of a rule the first one's alert is resolved. */
  lemma FiresAlternate(h: seq<Event>, i: nat, j: nat)
    requires Alternates(h) && i < j < |h| && h[i].Fired? && h[j].Fired?
    ensures i + 1 < j && h[i + 1].Resolved? && h[i + 1].alert == h[i].alert
  {
    assert MayFollow(h[..i + 1], h[i + 1]);
    assert h[..i + 1][i] == h[i];
  }

  /** The rule's state says how its history ends. */
  predicate Ends(h: seq<Event>, cr: Option<Compiled>, clock: int) {
    if cr.None? then h == [] || h[|h| - 1].Unloaded?
    else if cr.value.active.Some? then
      h != [] && h[|h| - 1].Fired? && h[|h| - 1].alert == cr.value.active.value && h[|h| - 1].at <= clock
    else match cr.value.lastResolved
      case None => h == [] || h[|h| - 1].Unloaded?
      case Some(at) => h != [] && h[|h| - 1].Resolved? && h[|h| - 1].at == at && at <= clock
  }

  predicate HistoryValid(h: seq<Event>, cr: Option<Compiled>, clock: int) {
    Alternates(h) && Ends(h, cr, clock)
  }

  function HistoryOf(hs: map<RuleID, seq<Event>>, r: RuleID): seq<Event> {
    if r in hs then hs[r] else []
  }

  predicate PendingFor(table: map<AlertID, Row>, a: AlertID, r: RuleID) {
    a in table && table[a].pending && table[a].rule == r
  }

  /** A raised alert of a loaded rule is in the table, pending, under that rule. */
  predicate Raised(cr: Option<Compiled>, r: RuleID, table: map<AlertID, Row>) {
    cr.Some? ==>
      && cr.value.rule.id == r
      && (cr.value.active.Some? ==> PendingFor(table, cr.value.active.value, r))
  }

  /** A pending alert is either left over from an earlier run or the active alert of a
      loaded rule; what is left over stays pending. */
  predicate Owned(rules: map<RuleID, Compiled>, table: map<AlertID, Row>, left: set<AlertID>, a: AlertID) {
    && (a in left ==> a in table && table[a].pending)
    && (a in table && table[a].pending ==>
         (a !in left <==> table[a].rule in rules && rules[table[a].rule].active == Some(a)))
  }

  ghost predicate StateValid(rules: map<RuleID, Compiled>, table: map<AlertID, Row>, left: set<AlertID>,
                             hs: map<RuleID, seq<Event>>, clock: int)
  {
    && (forall r: RuleID :: Raised(Get(rules, r), r, table))
    && (forall a: AlertID :: Owned(rules, table, left, a))
    && (forall r: RuleID :: HistoryValid(HistoryOf(hs, r), Get(rules, r), clock))
    && (forall r: RuleID :: Recorded(HistoryOf(hs, r), r, table))
  }

  /** The table records every fire and every resolve of a rule with its time. */
  ghost predicate Recorded(h: seq<Event>, r: RuleID, table: map<AlertID, Row>) {
    forall i :: 0 <= i < |h| ==> RecordedEvent(h[i], r, table)
  }

  predicate RecordedEvent(e: Event, r: RuleID, table: map<AlertID, Row>) {
    match e
    case Fired(a, at, _) => a in table && table[a].rule == r && table[a].triggeredAt == at
    case Resolved(a, at) => a in table && table[a].rule == r && !table[a].pending && table[a].resolvedAt == Some(at)
    case Unloaded => true
  }

  /** A fire with a new ID and the resolve of a pending alert leave what is recorded. */
  lemma RecordedStill(h: seq<Event>, r: RuleID, table: map<AlertID, Row>, a: Action, now: int)
    requires Recorded(h, r, table)
    requires a.Fire? ==> a.alert !in table
    requires a.Resolve? ==> a.alert in table && table[a.alert].pending
    ensures Recorded(h, r, DoAction(table, a, now))
  {
    forall i | 0 <= i < |h| ensures RecordedEvent(h[i], r, DoAction(table, a, now)) {
      assert RecordedEvent(h[i], r, table);
    }
  }

  lemma RecordedMore(h: seq<Event>, e: Event, r: RuleID, table: map<AlertID, Row>)
    requires Recorded(h, r, table) && RecordedEvent(e, r, table)
    ensures Recorded(h + [e], r, table)
  {
  }

  predicate Active(rules: map<RuleID, Compiled>, a: AlertID) {
    exists r :: r in rules && rules[r].active == Some(a)
  }

  /** In a valid state the pending alerts are exactly the active alerts of loaded rules and,
      apart from these, the alerts left over from an earlier run. */
  lemma PendingIffActive(rules: map<RuleID, Compiled>, table: map<AlertID, Row>, left: set<AlertID>,
                         hs: map<RuleID, seq<Event>>, clock: int, a: AlertID)
    requires StateValid(rules, table, left, hs, clock)
    ensures (a in table && table[a].pending) <==> Active(rules, a) || a in left
    ensures !(Active(rules, a) && a in left)
  {
    assert Owned(rules, table, left, a);
    if r :| r in rules && rules[r].active == Some(a) {
      assert Raised(Get(rules, r), r, table);
    }
  }

  /** Pending alerts and active alerts agree exactly when nothing was left over. */
  lemma AgreeIffNoneLeft(rules: map<RuleID, Compiled>, table: map<AlertID, Row>, left: set<AlertID>,
                         hs: map<RuleID, seq<Event>>, clock: int)
    requires StateValid(rules, table, left, hs, clock)
    ensures (forall a :: a in table && table[a].pending <==> Active(rules, a)) <==> left == {}
  {
    forall a ensures (a in table && table[a].pending) <==> Active(rules, a) || a in left {
      PendingIffActive(rules, table, left, hs, clock, a);
    }
    forall a | a in left ensures a in table && table[a].pending && !Active(rules, a) {
      PendingIffActive(rules, table, left, hs, clock, a);
    }
  }

  /** In a valid state a rule's fires and resolves alternate, keep its cooldown while it
      stays loaded, and are all in the table with their times. */
  lemma HistoryKept(rules: map<RuleID, Compiled>, table: map<AlertID, Row>, left: set<AlertID>,
                    hs: map<RuleID, seq<Event>>, clock: int, r: RuleID)
    requires StateValid(rules, table, left, hs, clock)
    ensures Alternates(HistoryOf(hs, r)) && Recorded(HistoryOf(hs, r), r, table)
  {
    assert HistoryValid(HistoryOf(hs, r), Get(rules, r), clock);
  }

  /** h1 is h0 and perhaps more fires, of alerts not in the table, and resolves, none of
      them before time t. */
  ghost predicate Continues(h0: seq<Event>, h1: seq<Event>, table: map<AlertID, Row>, t: int) {
    h0 <= h1 && forall i :: |h0| <= i < |h1| ==> NewEvent(h1[i], table, t)
  }

  predicate NewEvent(e: Event, table: map<AlertID, Row>, t: int) {
    match e
    case Fired(a, at, _) => a !in table && t <= at
    case Resolved(_, at) => t <= at
    case Unloaded => false
  }

  lemma ContinuesMore(h0: seq<Event>, h1: seq<Event>, h2: seq<Event>, table: map<AlertID, Row>,
                      table': map<AlertID, Row>,
                      t: int, t': int)
    requires Continues(h0, h1, table, t) && Continues(h1, h2, table', t')
    requires t <= t' && forall a :: a in table ==> a in table'
    ensures Continues(h0, h2, table, t)
  {
    forall i | |h0| <= i < |h2| ensures NewEvent(h2[i], table, t) {
      if i < |h1| {
        assert h2[i] == h1[i] && NewEvent(h1[i], table, t);
      } else {
        assert NewEvent(h2[i], table', t');
      }
    }
  }

  /** Nothing happened to a rule between two histories, or it was resolved at both ends at
      the same instant. */
  predicate Quiet(h0: seq<Event>, h1: seq<Event>) {
    || h0 == h1
    || (h0 != [] && h1 != [] && h0[|h0| - 1].Resolved? && h1[|h1| - 1].Resolved? && h0[|h0| - 1].at == h1[|h1| - 1].at)
  }

  /** The alert state a rule had earlier still fits its history if and only if the rule was
      quiet since. */
  lemma StaleFitsIff(h0: seq<Event>, h1: seq<Event>, cr0: Compiled, cr1: Compiled, r: RuleID, table: map<AlertID, Row>,
                     clock: int, t: int, now: int)
    requires HistoryValid(h0, Some(cr0), clock) && HistoryValid(h1, Some(cr1), now) && clock <= now
    requires Continues(h0, h1, table, t) && Recorded(h0, r, table)
    ensures Ends(h1, Some(cr0), now) <==> Quiet(h0, h1)
    ensures Quiet(h0, h1) ==> cr0.active == cr1.active
    ensures clock < t && Quiet(h0, h1) ==> h0 == h1
  {
    hide Alternates;
    if h0 != h1 {
      var e := h1[|h1| - 1];
      assert NewEvent(e, table, t);
      if h0 != [] {
        assert RecordedEvent(h0[|h0| - 1], r, table);
      }
    }
  }

  function EventOf(cr: Compiled, a: Action, now: int): Event {
    match a
    case Fire(_, alert) => Fired(alert, now, Cooldown(cr.rule))
    case Resolve(alert) => Resolved(alert, now)
  }

  function Extended(h: seq<Event>, cr: Compiled, a: Option<Action>, now: int): seq<Event> {
    if a.None? then h else h + [EventOf(cr, a.value, now)]
  }

  /** Evaluating a rule keeps its history in order. */
  lemma EvaluateHistory(h: seq<Event>, cr: Compiled, pk: PointKey, v: Val, now: int, alert: AlertID,
                        eval: (Expr, map<PointKey, Val>) -> Answer, clock: int)
    requires HistoryValid(h, Some(cr), clock) && clock <= now
    ensures var e := Evaluate(cr, pk, v, now, alert, eval);
      HistoryValid(Extended(h, cr, e.action, now), Some(e.cr), now)
  {
    var e := Evaluate(cr, pk, v, now, alert, eval);
    hide AllFresh, Values, Alternates;
    if e.action.Some? {
      AlternatesMore(h, EventOf(cr, e.action.value, now));
    }
  }

  /** Evaluating a rule and doing its action keeps rules and table in agreement. */
  lemma EvaluateValid(rules: map<RuleID, Compiled>, table: map<AlertID, Row>, left: set<AlertID>,
                      hs: map<RuleID, seq<Event>>, clock: int, r: RuleID, pk: PointKey, v: Val, now: int,
                      alert: AlertID, eval: (Expr, map<PointKey, Val>) -> Answer)
    requires StateValid(rules, table, left, hs, clock) && r in rules && clock <= now && alert !in table
    ensures var e := Evaluate(rules[r], pk, v, now, alert, eval);
      StateValid(rules[r := e.cr], if e.action.Some? then DoAction(table, e.action.value, now) else table, left,
        hs[r := Extended(HistoryOf(hs, r), rules[r], e.action, now)], now)
  {
    var e := Evaluate(rules[r], pk, v, now, alert, eval);
    var rules' := rules[r := e.cr];
    var table' := if e.action.Some? then DoAction(table, e.action.value, now) else table;
    var hs' := hs[r := Extended(HistoryOf(hs, r), rules[r], e.action, now)];
    assert Raised(Get(rules, r), r, table) && HistoryValid(HistoryOf(hs, r), Get(rules, r), clock);
    EvaluateHistory(HistoryOf(hs, r), rules[r], pk, v, now, alert, eval, clock);
    EvaluateCases(rules[r], pk, v, now, alert, eval);
    hide Evaluate, HistoryValid;
    forall q: RuleID ensures Recorded(HistoryOf(hs', q), q, table') {
      assert Recorded(HistoryOf(hs, q), q, table);
      if e.action.Some? {
        RecordedStill(HistoryOf(hs, q), q, table, e.action.value, now);
        if q == r { RecordedMore(HistoryOf(hs, r), EventOf(rules[r], e.action.value, now), r, table'); }
      }
    }
    forall q: RuleID ensures Raised(Get(rules', q), q, table') {
      assert Raised(Get(rules, q), q, table);
    }
    forall a: AlertID ensures Owned(rules', table', left, a) {
      assert Owned(rules, table, left, a);
    }
    forall q: RuleID ensures HistoryValid(HistoryOf(hs', q), Get(rules', q), now) {
      if q != r {
        assert HistoryValid(HistoryOf(hs, q), Get(rules, q), clock);
        LaterHistory(HistoryOf(hs, q), Get(rules, q), clock, now);
      }
    }
  }

  lemma LaterHistory(h: seq<Event>, cr: Option<Compiled>, clock: int, now: int)
    requires HistoryValid(h, cr, clock) && clock <= now
    ensures HistoryValid(h, cr, now)
  {
  }

  /** The three things an evaluation can do. */
  lemma EvaluateCases(cr: Compiled, pk: PointKey, v: Val, now: int, alert: AlertID,
                      eval: (Expr, map<PointKey, Val>) -> Answer)
    ensures var e := Evaluate(cr, pk, v, now, alert, eval);
      && e.cr.rule == cr.rule
      && match e.action
         case None => e.cr.active == cr.active && e.cr.lastResolved == cr.lastResolved
         case Some(Fire(r, a)) => r == cr.rule.id && a == alert && cr.active.None? && e.cr.active == Some(alert)
         case Some(Resolve(a)) => cr.active == Some(a) && e.cr.active.None?
  {
  }

  lemma RowsMore(table: map<AlertID, Row>, table': map<AlertID, Row>, cr: Compiled, pk: PointKey, v: Val, now: int,
                 alert: AlertID, eval: (Expr, map<PointKey, Val>) -> Answer)
    requires RowsKept(table, table', now) && alert !in table'
    ensures var e := Evaluate(cr, pk, v, now, alert, eval);
      e.action.Some? ==> RowsKept(table, DoAction(table', e.action.value, now), now)
  {
    EvaluateCases(cr, pk, v, now, alert, eval);
    hide Evaluate;
  }

  /** An alert is raised only by a rule without one, all of whose points have been seen
      lately, whose expression holds, and whose cooldown is over; it is resolved only when
      all points are fresh and the expression does not hold. */
  lemma ActionsJustified(cr: Compiled, pk: PointKey, v: Val, now: int, alert: AlertID,
                         eval: (Expr, map<PointKey, Val>) -> Answer)
    requires Evaluate(cr, pk, v, now, alert, eval).action.Some?
    ensures var e := Evaluate(cr, pk, v, now, alert, eval);
      && (forall p :: p in cr.rule.refs ==> p in e.cr.state && now - e.cr.state[p].ts <= Freshness(cr.rule))
      && e.cr.state[pk] == PointValue(v, now)
      && (e.action.value.Fire? ==>
        && cr.active.None? && eval(cr.rule.expr, Values(e.cr.state)) == Yes
        && (Cooldown(cr.rule) > 0 && cr.lastResolved.Some? ==> now - cr.lastResolved.value >= Cooldown(cr.rule)))
      && (e.action.value.Resolve? ==> cr.active.Some? && eval(cr.rule.expr, Values(e.cr.state)) == No)
  {
    var e := Evaluate(cr, pk, v, now, alert, eval);
    assert AllFresh(See(cr, pk, v, now), now);
    forall p | p in cr.rule.refs ensures p in e.cr.state && now - e.cr.state[p].ts <= Freshness(cr.rule) {
      var i :| 0 <= i < |cr.rule.refs| && cr.rule.refs[i] == p;
    }
  }

  /** With the new value every point of the rule has been seen lately, and the expression
      says so. */
  ghost predicate Says(cr: Compiled, pk: PointKey, v: Val, now: int,
                       eval: (Expr, map<PointKey, Val>) -> Answer, answer: Answer)
  {
    var seen := cr.state[pk := PointValue(v, now)];
    var window := (if cr.rule.freshnessSeconds <= 0 then 300 else cr.rule.freshnessSeconds) * 1_000_000_000;
    && (forall p :: p in cr.rule.refs ==> p in seen && now - seen[p].ts <= window)
    && eval(cr.rule.expr, map p | p in seen :: seen[p].value) == answer
  }

  /** The rule has no positive cooldown, was never resolved, or its cooldown is over. */
  predicate CooledDown(cr: Compiled, now: int) {
    || cr.rule.cooldownSeconds <= 0 || cr.lastResolved.None?
    || now - cr.lastResolved.value >= cr.rule.cooldownSeconds * 1_000_000_000
  }

  /** A rule without an alert raises one if and only if the expression holds and its
      cooldown is over; one with an alert resolves it if and only if the expression does
      not hold. */
  lemma ActsIff(cr: Compiled, pk: PointKey, v: Val, now: int, alert: AlertID,
                eval: (Expr, map<PointKey, Val>) -> Answer)
    ensures var e := Evaluate(cr, pk, v, now, alert, eval);
      && (e.action == Some(Fire(cr.rule.id, alert)) <==>
            cr.active.None? && Says(cr, pk, v, now, eval, Yes) && CooledDown(cr, now))
      && (cr.active.Some? ==> (e.action == Some(Resolve(cr.active.value)) <==> Says(cr, pk, v, now, eval, No)))
      && (e.action.Some? ==>
            e.action.value == if cr.active.None? then Fire(cr.rule.id, alert) else Resolve(cr.active.value))
  {
    FreshMeans(cr, pk, v, now);
    var seen := See(cr, pk, v, now).state;
    assert Values(seen) == map p | p in seen :: seen[p].value;
  }

  lemma FreshMeans(cr: Compiled, pk: PointKey, v: Val, now: int)
    ensures var seen := cr.state[pk := PointValue(v, now)];
      var window := (if cr.rule.freshnessSeconds <= 0 then 300 else cr.rule.freshnessSeconds) * 1_000_000_000;
      AllFresh(See(cr, pk, v, now), now) <==> forall p :: p in cr.rule.refs ==> p in seen && now - seen[p].ts <= window
  {
    assert forall i :: 0 <= i < |cr.rule.refs| ==> cr.rule.refs[i] in cr.rule.refs;
  }

  /** What a value does to a rule that refers to its point. */
  ghost predicate Changed(cr0: Compiled, cr: Compiled, pk: PointKey, v: Val, now: int,
                          eval: (Expr, map<PointKey, Val>) -> Answer)
  {
    && cr.rule == cr0.rule && cr.state == cr0.state[pk := PointValue(v, now)]
    && (cr0.active.None? ==> (cr.active.Some? <==> Says(cr0, pk, v, now, eval, Yes) && CooledDown(cr0, now)))
    && (cr0.active.Some? ==> (cr.active.None? <==> Says(cr0, pk, v, now, eval, No)))
    && (cr0.active.Some? && cr.active.Some? ==> cr.active == cr0.active)
    && cr.lastResolved == if cr0.active.Some? && cr.active.None? then Some(now) else cr0.lastResolved
  }

  lemma SettledIsChanged(cr0: Compiled, cr: Compiled, pk: PointKey, v: Val, now: int,
                         eval: (Expr, map<PointKey, Val>) -> Answer)
    requires Settled(cr0, cr, pk, v, now, eval)
    ensures Changed(cr0, cr, pk, v, now, eval)
  {
    FreshMeans(cr0, pk, v, now);
    assert Values(cr.state) == map p | p in cr.state :: cr.state[p].value;
  }

  // What one value does to a rule, however often the rule lists the point.

  /** cr is cr0 after value v of pk at now: up to the new alert's ID, the outcome of one
      evaluation. */
  predicate Settled(cr0: Compiled, cr: Compiled, pk: PointKey, v: Val, now: int,
                    eval: (Expr, map<PointKey, Val>) -> Answer)
  {
    var seen := See(cr0, pk, v, now);
    && cr.rule == cr0.rule && cr.state == seen.state
    && match Ask(seen, now, eval)
       case Fails => cr.active == cr0.active && cr.lastResolved == cr0.lastResolved
       case Yes =>
         && cr.lastResolved == cr0.lastResolved
         && (if cr0.active.Some? || Suppressed(cr0, now) then cr.active == cr0.active else cr.active.Some?)
       case No =>
         && cr.active.None?
         && cr.lastResolved == if cr0.active.Some? then Some(now) else cr0.lastResolved
  }

  /** A second evaluation with the same value changes nothing more. */
  lemma SettledAgain(cr0: Compiled, cr: Compiled, pk: PointKey, v: Val, now: int, alert: AlertID,
                     eval: (Expr, map<PointKey, Val>) -> Answer)
    requires Settled(cr0, cr, pk, v, now, eval)
    ensures Evaluate(cr, pk, v, now, alert, eval) == Verdict(cr, None)
  {
    var seen := See(cr0, pk, v, now);
    assert See(cr, pk, v, now) == cr by {
      assert cr.state[pk := PointValue(v, now)] == cr.state;
    }
    assert AllFresh(cr, now) == AllFresh(seen, now);
  }
}
