/**
 The rule cache: its one method as a caller runs it, and the cache under any interleaving of
 callers, where every await lets the others and the rule table move on.
 */
module RuleCache {
  import opened Collections
  import opened Domain
  import opened Rules

  /** A row of fraud_rules; a type or severity outside the enumerations reads as None. */
  datatype RuleRow = RuleRow(id: nat, kind: Option<RuleType>, params: map<string, Value>,
                             severity: Option<AlertSeverity>, enabled: bool)

  predicate Readable(r: RuleRow) {
    r.kind.Some? && r.severity.Some?
  }

  function RuleOf(r: RuleRow): Rule
    requires Readable(r)
  {
    Rule(r.id, r.kind.value, r.params, r.severity.value, r.enabled)
  }

  /** The valid rules among rows, in their order. */
  function ValidRules(rows: seq<RuleRow>): seq<Rule> {
    if |rows| == 0 then []
    else
      var last := rows[|rows| - 1];
      ValidRules(rows[..|rows| - 1]) + if Readable(last) then [RuleOf(last)] else []
  }

  function EnabledRows(table: seq<RuleRow>): seq<RuleRow> {
    if |table| == 0 then []
    else
      var last := table[|table| - 1];
      EnabledRows(table[..|table| - 1]) + if last.enabled then [last] else []
  }

  /** SELECT … WHERE enabled, which promises no order. */
  ghost predicate IsAnswer(table: seq<RuleRow>, rows: seq<RuleRow>) {
    multiset(rows) == multiset(EnabledRows(table))
  }

  predicate Expired(stamp: Option<Instant>, now: Instant, ttl: int) {
    stamp.None? || now - stamp.value >= ttl
  }

  class Cache {
    const ttl: int
    var rules: seq<Rule>
    var lastRefreshedAt: Option<Instant>

    constructor (ttl: int)
      ensures this.ttl == ttl && rules == [] && lastRefreshedAt == None
    {
      this.ttl, rules, lastRefreshedAt := ttl, [], None;
    }

    /**
     A caller that meets no other: `now` is read on entry, `later` under the lock, and `rows` is
     what the query would return.
     */
    method GetActiveRules(force: bool, now: Instant, later: Instant, rows: seq<RuleRow>) returns (result: seq<Rule>)
      requires now <= later
      modifies this
      ensures result == rules
      ensures if force || (Expired(old(lastRefreshedAt), now, ttl) && Expired(old(lastRefreshedAt), later, ttl))
              then rules == ValidRules(rows) && lastRefreshedAt == Some(later)
              else rules == old(rules) && lastRefreshedAt == old(lastRefreshedAt)
    {
      if !(force || Expired(lastRefreshedAt, now, ttl)) {
        return rules;
      }
      if !force && !Expired(lastRefreshedAt, later, ttl) {
        return rules;
      }
      var loaded: seq<Rule> := [];
      for i := 0 to |rows|
        invariant loaded == ValidRules(rows[..i])
        invariant rules == old(rules) && lastRefreshedAt == old(lastRefreshedAt)
      {
        assert rows[..i + 1][..i] == rows[..i];
        if Readable(rows[i]) {
          loaded := loaded + [RuleOf(rows[i])];
        }
      }
      assert rows[..|rows|] == rows;
      rules := loaded;
      lastRefreshedAt := Some(later);
      return rules;
    }
  }

  // ---------------------------------------------------------------- interleaved callers

  /**
   A call that has not returned: waiting for the lock, holding it, or holding it with the query answered at
   instant `at`.
   */
  datatype Caller =
    | Queued(force: bool, calledAt: nat)
    | Holding(force: bool, calledAt: nat, now: nat)
    | Loaded(force: bool, calledAt: nat, now: nat, rows: seq<RuleRow>, at: nat)

  datatype Result = Result(calledAt: nat, returnedAt: nat, forced: bool, rules: seq<Rule>)

  datatype Refresh = Refresh(stamp: nat, forced: bool)

  /** history[t] is the rule table at instant t; origin is the instant the cached rules were read at. */
  datatype State = State(
    history: seq<seq<RuleRow>>,
    rules: seq<Rule>,
    stamp: Option<nat>,
    origin: nat,
    holder: Option<nat>,
    callers: map<nat, Caller>,
    results: seq<Result>,
    refreshes: seq<Refresh>)

  datatype Label =
    | Tick(table: seq<RuleRow>)
    | Call(k: nat, force: bool)
    | Acquire(k: nat)
    | Query(k: nat, rows: seq<RuleRow>)
    | Store(k: nat)
    | Fail(k: nat)

  predicate Start(s: State) {
    |s.history| == 1 && s.rules == [] && s.stamp.None? && s.holder.None? && s.callers == map[]
    && s.results == [] && s.refreshes == []
  }

  function Clock(s: State): int {
    |s.history| - 1
  }

  ghost predicate Enabled(s: State, l: Label) {
    |s.history| > 0 &&
    match l
    case Tick(_) => true
    case Call(k, _) => k !in s.callers
    case Acquire(k) => k in s.callers && s.callers[k].Queued? && s.holder.None?
    case Query(k, rows) => k in s.callers && s.callers[k].Holding? && IsAnswer(s.history[Clock(s)], rows)
    case Store(k) => k in s.callers && s.callers[k].Loaded?
    case Fail(k) => k in s.callers
  }

  function Return(s: State, calledAt: nat, forced: bool): State
    requires |s.history| > 0
  {
    s.(results := s.results + [Result(calledAt, Clock(s), forced, s.rules)])
  }

  ghost function Next(ttl: int, s: State, l: Label): State
    requires Enabled(s, l)
  {
    match l
    case Tick(table) => s.(history := s.history + [table])
    case Call(k, force) =>
      if force || Expired(s.stamp, Clock(s), ttl)
      then s.(callers := s.callers[k := Queued(force, Clock(s))])
      else Return(s, Clock(s), force)
    case Acquire(k) =>
      var caller := s.callers[k];
      if !caller.force && !Expired(s.stamp, Clock(s), ttl)
      then Return(s.(callers := Without(s.callers, k)), caller.calledAt, false)
      else s.(holder := Some(k), callers := s.callers[k := Holding(caller.force, caller.calledAt, Clock(s))])
    case Query(k, rows) =>
      var caller := s.callers[k];
      s.(callers := s.callers[k := Loaded(caller.force, caller.calledAt, caller.now, rows, Clock(s))])
    case Store(k) =>
      var caller := s.callers[k];
      Return(s.(rules := ValidRules(caller.rows), stamp := Some(caller.now), origin := caller.at,
                holder := None, callers := Without(s.callers, k),
                refreshes := s.refreshes + [Refresh(caller.now, caller.force)]),
             caller.calledAt, caller.force)
    case Fail(k) =>
      s.(holder := if s.callers[k].Queued? then s.holder else None, callers := Without(s.callers, k))
  }

  /** The cached rules are the valid enabled rules of the table at instant t. */
  ghost predicate AsOf(history: seq<seq<RuleRow>>, t: nat, rules: seq<Rule>) {
    t < |history| && multiset(rules) == multiset(ValidRules(EnabledRows(history[t])))
  }

  /**
   A result is the lookup of an instant less than one TTL before the call; for a forced call, not before the
   call at all.
   */
  ghost predicate ResultOk(ttl: int, history: seq<seq<RuleRow>>, r: Result) {
    r.returnedAt < |history|
    && exists t: nat :: t <= r.returnedAt && (if r.forced then r.calledAt <= t else r.calledAt - ttl < t)
                        && AsOf(history, t, r.rules)
  }

  ghost predicate CallerOk(ttl: int, s: State, k: nat, caller: Caller) {
    && caller.calledAt <= Clock(s)
    && (caller.Queued? || s.holder == Some(k))
    && (!caller.Queued? ==>
          caller.calledAt <= caller.now <= Clock(s) && (!caller.force ==> Expired(s.stamp, caller.now, ttl)))
    && (caller.Loaded? ==> caller.now <= caller.at <= Clock(s) && IsAnswer(s.history[caller.at], caller.rows))
  }

  ghost predicate RefreshesOk(ttl: int, s: State) {
    && (s.stamp.None? <==> s.refreshes == [])
    && (s.refreshes != [] ==> s.stamp == Some(s.refreshes[|s.refreshes| - 1].stamp))
    && (forall i | 1 <= i < |s.refreshes| && !s.refreshes[i].forced ::
        s.refreshes[i].stamp - s.refreshes[i - 1].stamp >= ttl)
  }

  ghost predicate Inv(ttl: int, s: State) {
    && |s.history| > 0
    && (s.stamp.Some? ==> s.stamp.value <= s.origin && AsOf(s.history, s.origin, s.rules))
    && (forall k | k in s.callers :: CallerOk(ttl, s, k, s.callers[k]))
    && (forall i | 0 <= i < |s.results| :: ResultOk(ttl, s.history, s.results[i]))
    && RefreshesOk(ttl, s)
  }

  /**
   The loaded rules are an order-preserving selection of the rows, column by column: rule k comes from row at[k], and
   no row is skipped whose type and severity are known.
   */
  lemma {:induction false} ValidRulesSelect(rows: seq<RuleRow>) returns (at: seq<nat>)
    ensures |at| == |ValidRules(rows)|
    ensures forall k | 0 <= k < |at| ::
              && at[k] < |rows|
              && var row, rule := rows[at[k]], ValidRules(rows)[k];
                 && row.kind == Some(rule.kind) && row.severity == Some(rule.severity)
                 && rule.id == row.id && rule.params == row.params && rule.enabled == row.enabled
    ensures forall j, k | 0 <= j < k < |at| :: at[j] < at[k]
    ensures forall i | 0 <= i < |rows| && rows[i].kind.Some? && rows[i].severity.Some? :: i in at
  {
    at := [];
    if |rows| > 0 {
      var n := |rows| - 1;
      at := ValidRulesSelect(rows[..n]);
      if Readable(rows[n]) {
        at := at + [n];
      }
    }
  }

  /** The query answers with the enabled rows of the table and no others. */
  lemma {:induction false} EnabledRowsMembers(table: seq<RuleRow>, row: RuleRow)
    ensures multiset(EnabledRows(table))[row] == if row.enabled then multiset(table)[row] else 0
  {
    if |table| > 0 {
      var n := |table| - 1;
      EnabledRowsMembers(table[..n], row);
      assert table == table[..n] + [table[n]];
    }
  }

  lemma {:induction false} ValidRulesPermute(xs: seq<RuleRow>, ys: seq<RuleRow>)
    requires multiset(xs) == multiset(ys)
    ensures multiset(ValidRules(xs)) == multiset(ValidRules(ys))
    decreases |xs|
  {
    if |xs| == 0 {
      assert |multiset(ys)| == 0;
    } else {
      var n := |xs| - 1;
      assert xs[n] in multiset(ys);
      var i :| 0 <= i < |ys| && ys[i] == xs[n];
      var xs', ys' := xs[..n] + xs[n + 1..], ys[..i] + ys[i + 1..];
      TakeOut(xs, n);
      TakeOut(ys, i);
      Cancel(multiset(xs'), multiset(ys'), multiset([xs[n]]));
      ValidRulesPermute(xs', ys');
    }
  }

  lemma Cancel(a: multiset<RuleRow>, b: multiset<RuleRow>, c: multiset<RuleRow>)
    requires a + c == b + c
    ensures a == b
  {
    assert a == (a + c) - c && b == (b + c) - c;
  }

  /** Taking out the row at i takes out what that row contributes, and nothing else. */
  lemma TakeOut(ys: seq<RuleRow>, i: nat)
    requires i < |ys|
    ensures multiset(ys) == multiset(ys[..i] + ys[i + 1..]) + multiset([ys[i]])
    ensures multiset(ValidRules(ys)) == multiset(ValidRules(ys[..i] + ys[i + 1..])) + multiset(ValidRules([ys[i]]))
  {
    hide ValidRules;
    var front, here, back := ys[..i], [ys[i]], ys[i + 1..];
    assert ys == front + here + back;
    MiddleOut(front, here, back);
    ValidRulesConcat(front + here, back);
    ValidRulesConcat(front, here);
    ValidRulesConcat(front, back);
    MiddleOut(ValidRules(front), ValidRules(here), ValidRules(back));
  }

  lemma {:induction false} ValidRulesConcat(xs: seq<RuleRow>, ys: seq<RuleRow>)
    ensures ValidRules(xs + ys) == ValidRules(xs) + ValidRules(ys)
  {
    if |ys| == 0 {
      assert xs + ys == xs;
    } else {
      var n := |ys| - 1;
      assert (xs + ys)[..|xs + ys| - 1] == xs + ys[..n];
      ValidRulesConcat(xs, ys[..n]);
    }
  }

  lemma ResultFrame(ttl: int, history: seq<seq<RuleRow>>, table: seq<RuleRow>, r: Result)
    requires ResultOk(ttl, history, r)
    ensures ResultOk(ttl, history + [table], r)
  {
    var t: nat :| t <= r.returnedAt && (if r.forced then r.calledAt <= t else r.calledAt - ttl < t) &&
      AsOf(history, t, r.rules);
    assert (history + [table])[t] == history[t];
    assert AsOf(history + [table], t, r.rules);
  }

  lemma CallersStep(ttl: int, s: State, l: Label)
    requires Inv(ttl, s) && Enabled(s, l)
    ensures forall k | k in Next(ttl, s, l).callers :: CallerOk(ttl, Next(ttl, s, l), k, Next(ttl, s, l).callers[k])
  {
  }

  /** What a call returns is the cache's own rules: cached and fresh enough, or just stored. */
  lemma ReturnedOk(ttl: int, s: State, l: Label)
    requires 0 < ttl && Inv(ttl, s) && Enabled(s, l) && |Next(ttl, s, l).results| > |s.results|
    ensures ResultOk(ttl, s.history, Next(ttl, s, l).results[|s.results|])
  {
    match l
    case Call(k, force) => assert AsOf(s.history, s.origin, s.rules);
    case Acquire(k) =>
      assert CallerOk(ttl, s, k, s.callers[k]);
      assert AsOf(s.history, s.origin, s.rules);
    case Store(k) =>
      assert CallerOk(ttl, s, k, s.callers[k]);
      StoredOk(ttl, s, k);
    case _ =>
  }

  /** The rules that a caller is about to store are those of the instant its query was answered at. */
  lemma StoredAsOf(ttl: int, s: State, k: nat)
    requires k in s.callers && s.callers[k].Loaded? && CallerOk(ttl, s, k, s.callers[k])
    ensures AsOf(s.history, s.callers[k].at, ValidRules(s.callers[k].rows))
  {
    ValidRulesPermute(s.callers[k].rows, EnabledRows(s.history[s.callers[k].at]));
  }

  lemma StoredOk(ttl: int, s: State, k: nat)
    requires 0 < ttl && k in s.callers && s.callers[k].Loaded? && CallerOk(ttl, s, k, s.callers[k])
    ensures ResultOk(ttl, s.history,
        Result(s.callers[k].calledAt, Clock(s), s.callers[k].force, ValidRules(s.callers[k].rows)))
  {
    var caller := s.callers[k];
    StoredAsOf(ttl, s, k);
    var t: nat := caller.at;
    assert t <= Clock(s) && (if caller.force then caller.calledAt <= t else caller.calledAt - ttl < t)
           && AsOf(s.history, t, ValidRules(caller.rows));
  }

  lemma ResultsStep(ttl: int, s: State, l: Label)
    requires 0 < ttl && Inv(ttl, s) && Enabled(s, l)
    ensures forall i | 0 <= i < |Next(ttl, s, l).results| ::
      ResultOk(ttl, Next(ttl, s, l).history, Next(ttl, s, l).results[i])
  {
    var s' := Next(ttl, s, l);
    forall i | 0 <= i < |s'.results| ensures ResultOk(ttl, s'.history, s'.results[i]) {
      if i < |s.results| {
        if l.Tick? {
          ResultFrame(ttl, s.history, l.table, s.results[i]);
        }
      } else {
        ReturnedOk(ttl, s, l);
      }
    }
  }

  /** What the cache holds after a step is what it held before, or what the step stored. */
  lemma OriginStep(ttl: int, s: State, l: Label)
    requires Inv(ttl, s) && Enabled(s, l)
    ensures var s' := Next(ttl, s, l);
            s'.stamp.Some? ==> s'.stamp.value <= s'.origin && AsOf(s'.history, s'.origin, s'.rules)
  {
    if l.Store? {
      assert CallerOk(ttl, s, l.k, s.callers[l.k]);
      StoredAsOf(ttl, s, l.k);
    } else if l.Tick? && s.stamp.Some? {
      assert (s.history + [l.table])[s.origin] == s.history[s.origin];
    }
  }

  lemma RefreshesStep(ttl: int, s: State, l: Label)
    requires RefreshesOk(ttl, s) && Enabled(s, l)
    requires l.Store? ==> CallerOk(ttl, s, l.k, s.callers[l.k])
    ensures RefreshesOk(ttl, Next(ttl, s, l))
  {
  }

  lemma StepKeepsInv(ttl: int, s: State, l: Label)
    requires 0 < ttl && Inv(ttl, s) && Enabled(s, l)
    ensures Inv(ttl, Next(ttl, s, l))
  {
    OriginStep(ttl, s, l);
    CallersStep(ttl, s, l);
    ResultsStep(ttl, s, l);
    assert l.Store? ==> CallerOk(ttl, s, l.k, s.callers[l.k]);
    RefreshesStep(ttl, s, l);
  }

  ghost predicate Legal(ttl: int, s: State, ls: seq<Label>)
    decreases |ls|, 0
  {
    |ls| == 0 || (Legal(ttl, s, ls[..|ls| - 1]) && Enabled(Exec(ttl, s, ls[..|ls| - 1]), ls[|ls| - 1]))
  }

  ghost function Exec(ttl: int, s: State, ls: seq<Label>): State
    requires Legal(ttl, s, ls)
    decreases |ls|, 1
  {
    if |ls| == 0 then s else Next(ttl, Exec(ttl, s, ls[..|ls| - 1]), ls[|ls| - 1])
  }

  lemma {:induction false} RunInv(ttl: int, s: State, ls: seq<Label>)
    requires 0 < ttl && Start(s) && Legal(ttl, s, ls)
    ensures Inv(ttl, Exec(ttl, s, ls))
  {
    if |ls| > 0 {
      RunInv(ttl, s, ls[..|ls| - 1]);
      StepKeepsInv(ttl, Exec(ttl, s, ls[..|ls| - 1]), ls[|ls| - 1]);
    }
  }

  /**
   However callers interleave with each other and with changes of the table, every result holds the
   valid enabled rules of some instant less than one TTL before the call, and for a forced call not
   before the call at all.
   */
  lemma CacheRefinesLookup(ttl: int, s: State, ls: seq<Label>)
    requires 0 < ttl && Start(s) && Legal(ttl, s, ls)
    ensures var end := Exec(ttl, s, ls);
            forall i | 0 <= i < |end.results| :: ResultOk(ttl, end.history, end.results[i])
  {
    RunInv(ttl, s, ls);
  }

  /** An unforced refresh comes at least one TTL after the refresh before it, whichever callers queued meanwhile. */
  lemma RefreshesApart(ttl: int, s: State, ls: seq<Label>)
    requires 0 < ttl && Start(s) && Legal(ttl, s, ls)
    ensures var rs := Exec(ttl, s, ls).refreshes;
            forall i | 1 <= i < |rs| && !rs[i].forced :: rs[i].stamp - rs[i - 1].stamp >= ttl
  {
    RunInv(ttl, s, ls);
  }

  // ---------------------------------------------------------------- a call on its own is a run

  lemma ExtendTo(ttl: int, s: State, ls: seq<Label>, t: State, l: Label, u: State)
    requires Legal(ttl, s, ls) && Exec(ttl, s, ls) == t && Enabled(t, l) && Next(ttl, t, l) == u
    ensures Legal(ttl, s, ls + [l]) && Exec(ttl, s, ls + [l]) == u
  {
    assert (ls + [l])[..|ls|] == ls;
  }

  /** The system once the clock has moved on over these tables. */
  function Ticked(s: State, tables: seq<seq<RuleRow>>): State {
    s.(history := s.history + tables)
  }

  function Ticks(tables: seq<seq<RuleRow>>): seq<Label> {
    seq(|tables|, i requires 0 <= i < |tables| => Tick(tables[i]))
  }

  lemma {:induction false} TicksReach(ttl: int, s: State, ls: seq<Label>, t: State, tables: seq<seq<RuleRow>>)
    requires Legal(ttl, s, ls) && Exec(ttl, s, ls) == t && |t.history| > 0
    ensures Legal(ttl, s, ls + Ticks(tables)) && Exec(ttl, s, ls + Ticks(tables)) == Ticked(t, tables)
  {
    if |tables| == 0 {
      assert ls + Ticks(tables) == ls && Ticked(t, tables) == t;
    } else {
      var n := |tables| - 1;
      TicksReach(ttl, s, ls, t, tables[..n]);
      assert ls + Ticks(tables) == ls + Ticks(tables[..n]) + [Tick(tables[n])];
      assert t.history + tables == t.history + tables[..n] + [tables[n]];
      ExtendTo(ttl, s, ls + Ticks(tables[..n]), Ticked(t, tables[..n]), Tick(tables[n]), Ticked(t, tables));
    }
  }

  /**
   What a call that meets no other makes of the cache, when the clock moves on over `tables` before it gets the
   lock and the query then answers `rows`.
   */
  function Alone(ttl: int, s: State, force: bool, tables: seq<seq<RuleRow>>, rows: seq<RuleRow>): State
    requires |s.history| > 0
  {
    if force || Expired(s.stamp, Clock(s), ttl)
    then Refreshed(Ticked(s, tables), force, Clock(s), rows)
    else Return(s, Clock(s), force)
  }

  /** Caller k at its call, with the lock held by `holder`. */
  function With(s: State, k: nat, caller: Caller, holder: Option<nat>): State {
    s.(holder := holder, callers := s.callers[k := caller])
  }

  lemma CallStep(ttl: int, s: State, k: nat, force: bool, tables: seq<seq<RuleRow>>)
    requires |s.history| > 0 && s.holder.None? && k !in s.callers && (force || Expired(s.stamp, Clock(s), ttl))
    ensures Enabled(s, Call(k, force))
    ensures Ticked(Next(ttl, s, Call(k, force)), tables) == With(Ticked(s, tables), k, Queued(force, Clock(s)), None)
  {
  }

  /** The cache with rules loaded, as it leaves the lock. */
  function Refreshed(s: State, force: bool, calledAt: nat, rows: seq<RuleRow>): State
    requires |s.history| > 0
  {
    Return(s.(rules := ValidRules(rows), stamp := Some(Clock(s)), origin := Clock(s),
              refreshes := s.refreshes + [Refresh(Clock(s), force)]),
           calledAt, force)
  }

  /** The steps under the lock. */
  lemma LockSteps(ttl: int, s: State, k: nat, force: bool, calledAt: nat, rows: seq<RuleRow>)
    requires |s.history| > 0 && s.holder.None? && k !in s.callers && IsAnswer(s.history[Clock(s)], rows)
    requires force || Expired(s.stamp, Clock(s), ttl)
    ensures var now := Clock(s);
            var queued := With(s, k, Queued(force, calledAt), None);
            var holding := With(s, k, Holding(force, calledAt, now), Some(k));
            var loaded := With(s, k, Loaded(force, calledAt, now, rows, now), Some(k));
            && Enabled(queued, Acquire(k)) && Next(ttl, queued, Acquire(k)) == holding
            && Enabled(holding, Query(k, rows)) && Next(ttl, holding, Query(k, rows)) == loaded
            && Enabled(loaded, Store(k)) && Next(ttl, loaded, Store(k)) == Refreshed(s, force, calledAt, rows)
  {
    var loaded := With(s, k, Loaded(force, calledAt, Clock(s), rows, Clock(s)), Some(k));
    assert Without(loaded.callers, k) == s.callers;
  }

  /** The method's own steps, when no other caller comes between them. */
  lemma AloneIsRun(ttl: int, s: State, k: nat, force: bool, tables: seq<seq<RuleRow>>, rows: seq<RuleRow>)
    returns (ls: seq<Label>)
    requires |s.history| > 0 && s.holder.None? && k !in s.callers
    requires IsAnswer(Ticked(s, tables).history[Clock(Ticked(s, tables))], rows)
    ensures Legal(ttl, s, ls) && Exec(ttl, s, ls) == Alone(ttl, s, force, tables, rows)
  {
    assert Legal(ttl, s, []) && Exec(ttl, s, []) == s;
    if force || Expired(s.stamp, Clock(s), ttl) {
      var later := Ticked(s, tables);
      var now := Clock(later);
      CallStep(ttl, s, k, force, tables);
      LockSteps(ttl, later, k, force, Clock(s), rows);
      var called := Next(ttl, s, Call(k, force));
      assert |called.history| > 0;
      hide Legal, Exec, Enabled, Next, With, Alone, IsAnswer, Ticked, Ticks;
      ExtendTo(ttl, s, [], s, Call(k, force), called);
      ls := [] + [Call(k, force)];
      TicksReach(ttl, s, ls, called, tables);
      ls := ls + Ticks(tables);
      var holding := With(later, k, Holding(force, Clock(s), now), Some(k));
      ExtendTo(ttl, s, ls, Ticked(called, tables), Acquire(k), holding);
      ls := ls + [Acquire(k)];
      var loaded := With(later, k, Loaded(force, Clock(s), now, rows, now), Some(k));
      ExtendTo(ttl, s, ls, holding, Query(k, rows), loaded);
      ls := ls + [Query(k, rows)];
      ExtendTo(ttl, s, ls, loaded, Store(k), Alone(ttl, s, force, tables, rows));
      ls := ls + [Store(k)];
    } else {
      ExtendTo(ttl, s, [], s, Call(k, force), Alone(ttl, s, force, tables, rows));
      ls := [] + [Call(k, force)];
    }
  }
}
