/**
 From the evidence to the alert: what detection decides, in plain arithmetic, and that an alert of a run in which
 every detection decides on its evidence carries that severity and that score.
 */
module Decisions {
  import opened Domain
  import opened Ledger
  import opened Rules
  import opened Scoring
  import opened Protocol
  import opened ProtocolInvariants
  import opened Consumers
  import opened AlertHistory
  import LostUpdates

  // ---------------------------------------------------------------- what a rule looks at

  ghost predicate ListNames(params: map<string, Value>, keys: seq<string>, name: string) {
    exists i: nat, j ::
      && Decides(params, keys, i) && Get(params, keys[i]).Texts?
      && 0 <= j < |Get(params, keys[i]).items| && SameName(Get(params, keys[i]).items[j], name)
  }

  ghost predicate NumberReached(params: map<string, Value>, keys: seq<string>, x: real) {
    exists i: nat :: Decides(params, keys, i) && AsDecimal(Get(params, keys[i])).Some?
                && x >= AsDecimal(Get(params, keys[i])).value
  }

  ghost predicate CountReached(params: map<string, Value>, keys: seq<string>, n: int) {
    exists i: nat :: Decides(params, keys, i) && AsInteger(Get(params, keys[i])).Some?
                && n >= AsInteger(Get(params, keys[i])).value
  }

  ghost predicate NumberExceeded(params: map<string, Value>, keys: seq<string>, x: real) {
    exists i: nat :: Decides(params, keys, i) && AsDecimal(Get(params, keys[i])).Some?
                && x > AsDecimal(Get(params, keys[i])).value
  }

  /** The user's risk as a fraction: zero without a profile. */
  function RiskOf(read: Option<Profile>): real {
    if read.Some? then read.value.score as real / 10000.0 else 0.0
  }

  predicate Inclusive(params: map<string, Value>) {
    "operator" !in params || (params["operator"].Text? && params["operator"].s == ">=")
  }

  /** What makes a rule trigger, by its kind: which part of the evidence it compares with which of its parameters. */
  ghost predicate Fires(rule: Rule, x: Evidence, read: Option<Profile>) {
    var params := rule.params;
    var currency := Get(params, "currency");
    rule.enabled
    && match rule.kind
       case AmountThreshold =>
         && (Truthy(currency) ==> currency.Text? && SameLetters(x.currency, currency.s))
         && if Inclusive(params) then NumberReached(params, ["threshold", "amount_threshold", "limit"], x.amount)
            else NumberExceeded(params, ["threshold", "amount_threshold", "limit"], x.amount)
       case HighRiskCountry => ListNames(params, ["countries", "country_codes", "country_list"], x.country)
       case Velocity =>
         || CountReached(params, ["max_count", "count_threshold"], x.activity.count)
         || NumberReached(params, ["max_amount", "amount_threshold"], x.activity.total)
       case UserRiskLevel => NumberReached(params, ["min_risk_score", "risk_threshold", "threshold"], RiskOf(read))
       case MerchantCategory => ListNames(params, ["categories", "category_list", "blocked_categories"], x.merchant)
  }

  lemma AmountFires(rule: Rule, x: Evidence, read: Option<Profile>)
    requires rule.kind.AmountThreshold?
    ensures Triggers(rule, ContextOf(x, read)) <==> Fires(rule, x, read)
  {
    var i := FirstKeyDecides(rule.params, ["threshold", "amount_threshold", "limit"]);
    AmountRule(rule, ContextOf(x, read), i);
    hide Decides, Triggers, SameLetters;
  }

  lemma VelocityFires(rule: Rule, x: Evidence, read: Option<Profile>)
    requires rule.kind.Velocity?
    ensures Triggers(rule, ContextOf(x, read)) <==> Fires(rule, x, read)
  {
    var i := FirstKeyDecides(rule.params, ["max_count", "count_threshold"]);
    var j := FirstKeyDecides(rule.params, ["max_amount", "amount_threshold"]);
    VelocityRule(rule, ContextOf(x, read), i, j);
    hide Decides, Triggers;
  }

  lemma RiskFires(rule: Rule, x: Evidence, read: Option<Profile>)
    requires rule.kind.UserRiskLevel?
    ensures Triggers(rule, ContextOf(x, read)) <==> Fires(rule, x, read)
  {
    var i := FirstKeyDecides(rule.params, ["min_risk_score", "risk_threshold", "threshold"]);
    RiskRule(rule, ContextOf(x, read), i);
    hide Decides, Triggers;
  }

  lemma ListFires(rule: Rule, x: Evidence, read: Option<Profile>)
    requires rule.kind.HighRiskCountry? || rule.kind.MerchantCategory?
    ensures Triggers(rule, ContextOf(x, read)) <==> Fires(rule, x, read)
  {
    if rule.kind.HighRiskCountry? {
      var i := FirstKeyDecides(rule.params, ["countries", "country_codes", "country_list"]);
      CountryRule(rule, ContextOf(x, read), i);
    } else {
      var i := FirstKeyDecides(rule.params, ["categories", "category_list", "blocked_categories"]);
      CategoryRule(rule, ContextOf(x, read), i);
    }
    hide Decides, Triggers, SameName;
  }

  /** A rule triggers exactly when its kind says so, of the evidence itself. */
  lemma TriggersIffFires(rule: Rule, x: Evidence, read: Option<Profile>)
    ensures Triggers(rule, ContextOf(x, read)) <==> Fires(rule, x, read)
  {
    match rule.kind
    case AmountThreshold => AmountFires(rule, x, read);
    case HighRiskCountry => ListFires(rule, x, read);
    case Velocity => VelocityFires(rule, x, read);
    case UserRiskLevel => RiskFires(rule, x, read);
    case MerchantCategory => ListFires(rule, x, read);
  }

  // ---------------------------------------------------------------- the decision

  /** `highest` is the worth of the gravest rule that fires, and zero if none does. */
  ghost predicate Highest(x: Evidence, read: Option<Profile>, highest: int) {
    if exists r | r in x.rules :: Fires(r, x, read)
    then && (exists r | r in x.rules :: Fires(r, x, read) && Worth(r.severity, highest))
         && (forall r, v | r in x.rules && Fires(r, x, read) && Worth(r.severity, v) :: v <= highest)
    else highest == 0
  }

  ghost predicate FiresCritical(x: Evidence, read: Option<Profile>) {
    exists r | r in x.rules :: Fires(r, x, read) && r.severity.Critical?
  }

  /** The score is the weighted sum of gravest rule, model score and user's risk, each and all rounded to units. */
  ghost predicate Scored(score: int, x: Evidence, read: Option<Profile>, highest: int, model: int) {
    && Highest(x, read, highest) && Nearest(model, x.ml * 10000.0)
    && Nearest(score, ExactSum(x.weights, highest, model, if read.Some? then read.value.score else 0))
  }

  /** What the evidence makes of severity and score; the user's risk enters with the units of the profile. */
  ghost predicate AsDetected(severity: AlertSeverity, score: int, x: Evidence, read: Option<Profile>) {
    && (exists highest, model :: Scored(score, x, read, highest, model))
    && 0 <= score <= 10000
    && (severity.Critical? <==> FiresCritical(x, read) || score >= 8500)
    && (severity.High? <==> !FiresCritical(x, read) && 7000 <= score < 8500)
    && (severity.Medium? <==> !FiresCritical(x, read) && 5000 <= score < 7000)
  }

  lemma DecisionExact(x: Evidence, read: Option<Profile>)
    ensures var d := DecisionOf(x, read);
            && AsDetected(d.severity, d.score, x, read)
            && (d.shouldAlert <==> FiresCritical(x, read) || d.score as real >= x.weights.threshold * 10000.0)
  {
    var context := ContextOf(x, read);
    var highest, model, risk := DetectionExact(x.rules, context, x.ml, x.weights);
    RiskExact(read, risk);
    GravestFires(x, read, highest);
    assert Scored(DecisionOf(x, read).score, x, read, highest, model);
    hide Scored, Detection, ExactSum, Nearest, CriticalTriggers, Gravest, Highest, FiresCritical;
  }

  lemma GravestFires(x: Evidence, read: Option<Profile>, highest: int)
    ensures Gravest(x.rules, ContextOf(x, read), highest) <==> Highest(x, read, highest)
    ensures CriticalTriggers(x.rules, ContextOf(x, read)) <==> FiresCritical(x, read)
  {
    forall r | r in x.rules ensures Triggers(r, ContextOf(x, read)) <==> Fires(r, x, read) {
      TriggersIffFires(r, x, read);
    }
    hide Triggers, Fires, Worth;
  }

  lemma RiskExact(read: Option<Profile>, risk: int)
    requires Nearest(risk, RiskOf(read) * 10000.0)
    ensures risk == if read.Some? then read.value.score else 0
  {
    if read.Some? {
      assert read.value.score as real / 10000.0 * 10000.0 == read.value.score as real;
    }
  }

  // ---------------------------------------------------------------- the alert

  /** A consumer that has taken its snapshot took it from the profiles at its first reading step. */
  lemma {:induction false} SnapshotOrigin(c: Settings, ls: seq<Label>, w: nat) returns (j: nat)
    requires Run(c, ls) && w in End(c, ls).workers
    requires End(c, ls).workers[w].Informed? || End(c, ls).workers[w].Primed?
    ensures j < |ls| && ls[j] == ReadProfile(w) && Run(c, ls[..j]) && Reads(End(c, ls), w)
    ensures End(c, ls).workers[w].snapshot
            == Lookup(End(c, ls[..j]).db.profiles, UserOf(MessageOf(End(c, ls), w).body))
  {
    var n := |ls| - 1;
    var before, l := ls[..n], ls[n];
    WorkersFine(c, before);
    assert Enabled(c, End(c, before), l) && End(c, ls) == Next(c, End(c, before), l);
    hide WorkersOk, Enabled, Next;
    SnapshotStep(c, End(c, before), l, w);
    if l == ReadProfile(w) && End(c, before).workers[w].Checked? {
      j := n;
    } else {
      j := SnapshotOrigin(c, before, w);
      assert before[..j] == ls[..j];
    }
  }

  lemma WorkersFine(c: Settings, ls: seq<Label>)
    requires Run(c, ls)
    ensures WorkersOk(c, End(c, ls))
  {
    RunInv(c, ls);
  }

  lemma SnapshotStep(c: Settings, s: State, l: Label, w: nat)
    requires WorkersOk(c, s) && Enabled(c, s, l) && w in Next(c, s, l).workers
    requires Next(c, s, l).workers[w].Informed? || Next(c, s, l).workers[w].Primed?
    ensures w in s.workers && Reads(s, w) && Reads(Next(c, s, l), w) && MessageOf(Next(c, s, l), w) == MessageOf(s, w)
    ensures if l == ReadProfile(w) && s.workers[w].Checked?
            then Next(c, s, l).workers[w].snapshot == Lookup(s.db.profiles, UserOf(MessageOf(s, w).body))
            else && (s.workers[w].Informed? || s.workers[w].Primed?)
                 && Next(c, s, l).workers[w].snapshot == s.workers[w].snapshot
  {
    hide WorkersOk, InsertTransaction, Settle, CommitDetection, CommitCompensation, EscalateRow, CommitResolution,
         IsPoll;
    assert w in s.workers;
    ReadableHere(c, s, w);
    assert s.log <= Next(c, s, l).log;
    if l != ReadProfile(w) {
      assert Next(c, s, l).workers[w] == s.workers[w];
    }
  }

  lemma ReadableHere(c: Settings, s: State, w: nat)
    requires WorkersOk(c, s) && w in s.workers
    ensures s.workers[w].message < |s.log|
    ensures s.workers[w].Checked? || s.workers[w].Informed? || s.workers[w].Primed? ==> Reads(s, w)
  {
    assert WorkOk(c, s.db, s.log, s.workers[w]);
  }

  /** The detection at step i of a decided run decides on the evidence for its message. */
  lemma {:induction false} DecidedAt(c: Settings, x: Entry -> Evidence, s: State, ls: seq<Label>, i: nat)
    requires Legal(c, s, ls) && Decided(c, x, s, ls) && i < |ls|
    ensures Legal(c, s, ls[..i]) && DecidesOn(x, Exec(c, s, ls[..i]), ls[i])
  {
    if i < |ls| - 1 {
      DecidedAt(c, x, s, ls[..|ls| - 1], i);
      assert ls[..|ls| - 1][..i] == ls[..i];
    }
  }

  /**
   An alert reports what the evidence for its transaction made of severity and score, on the profile that its user had
   at step j, when the detection took its snapshot; its instant is that of the detection, step i.
   */
  lemma AlertReports(c: Settings, x: Entry -> Evidence, ls: seq<Label>, a: AlertId) returns (i: nat, j: nat)
    requires Run(c, ls) && Decided(c, x, START, ls) && a in End(c, ls).db.alerts
    ensures j < i < |ls| && ls[i].Detect? && ls[i].a == a && ls[j] == ReadProfile(ls[i].w)
    ensures Run(c, ls[..i]) && Run(c, ls[..j]) && Reads(End(c, ls[..i]), ls[i].w)
    ensures var alert, message := End(c, ls).db.alerts[a], MessageOf(End(c, ls[..i]), ls[i].w);
            var read := Lookup(End(c, ls[..j]).db.profiles, alert.user);
            && message.body.TransactionCreated?
            && message.body.txn == alert.txn && message.body.user == alert.user && alert.createdAt == ls[i].now
            && AsDetected(alert.severity, alert.score, x(message), read)
            && (FiresCritical(x(message), read) || alert.score as real >= x(message).weights.threshold * 10000.0)
  {
    hide AsDetected, FiresCritical, DecisionOf;
    i := AlertOrigin(c, ls, a);
    j := SnapshotOrigin(c, ls[..i], ls[i].w);
    assert ls[..i][..j] == ls[..j];
    DecidedAt(c, x, START, ls, i);
    var alert := End(c, ls).db.alerts[a];
    DecisionExact(x(MessageOf(End(c, ls[..i]), ls[i].w)), Lookup(End(c, ls[..j]).db.profiles, alert.user));
  }

  // ---------------------------------------------------------------- two decisions

  /** A critical rule that matches, model score 0.9, default weights and no profile: 0.5 + 0.27, critical. */
  lemma CriticalExample()
    ensures DecisionOf(LostUpdates.ALARM, None) == Decision(true, Critical, 7700)
  {
    var x := LostUpdates.ALARM;
    LostUpdates.AlarmAlerts(None);
    DecisionExact(x, None);
  }

  /** The same rule with severity HIGH, and model score 1.0: 0.375 + 0.3, an alert by its score alone. */
  lemma HighExample()
    ensures var rule := LostUpdates.ALARM.rules[0].(severity := High);
            DecisionOf(LostUpdates.ALARM.(rules := [rule], ml := 1.0), None) == Decision(true, Medium, 6750)
  {
    var rule := LostUpdates.ALARM.rules[0].(severity := High);
    var x := LostUpdates.ALARM.(rules := [rule], ml := 1.0);
    assert Truthy(Number(10000.0)) && Pick(rule.params, AMOUNT_KEYS) == Number(10000.0);
    assert Triggers(rule, ContextOf(x, None));
    TriggersIffFires(rule, x, None);
    DecisionExact(x, None);
    assert rule in x.rules;
  }
}
