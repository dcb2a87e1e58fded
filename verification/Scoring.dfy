/**
 Composite scoring.  Scores count units of 0.0001: the weighted sum is exact, and rounding to a
 unit is half up.
 */
module Scoring {
  import opened Domain
  import opened Rules

  const ONE: int := 10000

  datatype Weights = Weights(rule: real, ml: real, profile: real, threshold: real) {
    predicate Valid() {
      0.0 <= rule <= 1.0 && 0.0 <= ml <= 1.0 && 0.0 <= profile <= 1.0 && 0.0 <= threshold <= 1.0
    }
  }

  function Rank(s: AlertSeverity): nat {
    match s
    case Low => 0
    case Medium => 1
    case High => 2
    case Critical => 3
  }

  function SeverityValue(s: AlertSeverity): int {
    match s
    case Low => 2500
    case Medium => 5000
    case High => 7500
    case Critical => 10000
  }

  /** ROUND_HALF_UP to a whole number: halves go away from zero. */
  function RoundHalfUp(x: real): int {
    if x >= 0.0 then (x + 0.5).Floor else -((-x + 0.5).Floor)
  }

  /** A decimal rounded to four places, in units. */
  function Quantize(x: real): int {
    RoundHalfUp(x * ONE as real)
  }

  /** The highest severity among the matches, or zero without any. */
  function SeverityScore(matches: seq<RuleMatch>): int {
    if |matches| == 0 then 0
    else
      var rest := SeverityScore(matches[..|matches| - 1]);
      var last := SeverityValue(matches[|matches| - 1].severity);
      if last > rest then last else rest
  }

  function WeightedSum(w: Weights, severity: int, ml: int, risk: int): real {
    Times(w.rule, severity as real) + Times(w.ml, ml as real) + Times(w.profile, risk as real)
  }

  function Clamp(x: real): real {
    if x < 0.0 then 0.0 else if x > ONE as real then ONE as real else x
  }

  function Composite(w: Weights, severity: int, ml: int, risk: int): int {
    RoundHalfUp(Clamp(WeightedSum(w, severity, ml, risk)))
  }

  function SeverityFor(composite: int, critical: bool): AlertSeverity {
    if critical || composite >= 8500 then Critical
    else if composite >= 7000 then High
    else if composite >= 5000 then Medium
    else Low
  }

  predicate HasCritical(matches: seq<RuleMatch>) {
    exists i | 0 <= i < |matches| :: matches[i].severity.Critical?
  }

  function RiskUnits(risk: Option<real>): int {
    match risk
    case None => 0
    case Some(r) => Quantize(r)
  }

  function Decide(matches: seq<RuleMatch>, ml: real, risk: Option<real>, w: Weights): Decision {
    var composite := Composite(w, SeverityScore(matches), Quantize(ml), RiskUnits(risk));
    var critical := HasCritical(matches);
    Decision(composite as real >= w.threshold * ONE as real || critical, SeverityFor(composite, critical), composite)
  }

  // ---------------------------------------------------------------- fixed point

  /** With weights that sum to one the clamp does nothing, and the composite lies between its components. */
  lemma CompositeBetween(w: Weights, severity: int, ml: int, risk: int, lo: int, hi: int)
    requires w.Valid() && w.rule + w.ml + w.profile == 1.0
    requires 0 <= lo <= hi <= ONE && lo <= severity <= hi && lo <= ml <= hi && lo <= risk <= hi
    ensures Clamp(WeightedSum(w, severity, ml, risk)) == WeightedSum(w, severity, ml, risk)
    ensures lo <= Composite(w, severity, ml, risk) <= hi
  {
    ConvexSum(w.rule, w.ml, w.profile, severity as real, ml as real, risk as real, lo as real, hi as real);
    var sum := WeightedSum(w, severity, ml, risk);
    assert lo as real <= sum <= hi as real;
    assert lo as real + 0.5 <= sum + 0.5 <= hi as real + 0.5;
    assert (lo as real + 0.5).Floor == lo && (hi as real + 0.5).Floor == hi;
  }

  /** A product, kept as one term where only its order matters. */
  function Times(a: real, x: real): real {
    a * x
  }

  lemma ConvexSum(a: real, b: real, c: real, x: real, y: real, z: real, lo: real, hi: real)
    requires 0.0 <= a && 0.0 <= b && 0.0 <= c && a + b + c == 1.0
    requires lo <= x <= hi && lo <= y <= hi && lo <= z <= hi
    ensures lo <= Times(a, x) + Times(b, y) + Times(c, z) <= hi
  {
    WeightedBounds(a, x, lo, hi);
    WeightedBounds(b, y, lo, hi);
    WeightedBounds(c, z, lo, hi);
    Split(a, b, c, lo);
    Split(a, b, c, hi);
    hide Times;
  }

  lemma Split(a: real, b: real, c: real, x: real)
    requires a + b + c == 1.0
    ensures Times(a, x) + Times(b, x) + Times(c, x) == x
  {
    calc {
      a * x + b * x + c * x;
      (a + b) * x + c * x;
      (a + b + c) * x;
      1.0 * x;
    }
  }

  lemma WeightedBounds(w: real, x: real, lo: real, hi: real)
    requires 0.0 <= w && lo <= x <= hi
    ensures Times(w, lo) <= Times(w, x) <= Times(w, hi)
  {
    NotNegative(w, x - lo);
    NotNegative(w, hi - x);
    assert w * x - w * lo == w * (x - lo);
    assert w * hi - w * x == w * (hi - x);
  }

  lemma NotNegative(a: real, x: real)
    requires 0.0 <= a && 0.0 <= x
    ensures 0.0 <= a * x
  {
  }

  function Ceiling(x: real): int {
    -((-x).Floor)
  }

  /**
   Rounding moves a threshold by half a unit at the most: the composite reaches t exactly when the exact sum
   reaches t - 1/2.
   */
  lemma ThresholdExact(w: Weights, severity: int, ml: int, risk: int, t: real)
    ensures Composite(w, severity, ml, risk) as real >= t <==>
            ExactSum(w, severity, ml, risk) >= Ceiling(t) as real - 0.5
    ensures t == t.Floor as real ==> Ceiling(t) as real == t
  {
    SumWritten(w, severity, ml, risk);
    CeilingBound(Composite(w, severity, ml, risk), t);
    RoundingBound(Clamp(WeightedSum(w, severity, ml, risk)), Ceiling(t));
    if t == t.Floor as real {
      assert -t == (-(t.Floor)) as real;
    }
  }

  /**
   For a threshold on the grid an alert is raised exactly for a critical match, or when the exact sum comes
   within half a unit of the threshold.
   */
  lemma AlertExact(matches: seq<RuleMatch>, ml: real, risk: Option<real>, w: Weights, t: int)
    requires w.threshold * ONE as real == t as real
    ensures Decide(matches, ml, risk, w).shouldAlert <==>
            || (exists m | m in matches :: m.severity.Critical?)
            || ExactSum(w, SeverityScore(matches), Quantize(ml), RiskUnits(risk)) >= t as real - 0.5
  {
    CriticalAmong(matches);
    ReachesExact(w, SeverityScore(matches), Quantize(ml), RiskUnits(risk), t);
    hide Composite, Quantize, RiskUnits, SeverityScore, HasCritical;
  }

  lemma ReachesExact(w: Weights, severity: int, ml: int, risk: int, t: int)
    ensures Composite(w, severity, ml, risk) as real >= t as real <==>
            ExactSum(w, severity, ml, risk) >= t as real - 0.5
  {
    SumWritten(w, severity, ml, risk);
    RoundingBound(Clamp(WeightedSum(w, severity, ml, risk)), t);
    hide WeightedSum;
  }

  /** Rule weight times worth of the gravest match, model weight times model score, profile weight times risk. */
  function ExactSum(w: Weights, highest: int, model: int, risk: int): real {
    var sum := w.rule * highest as real + w.ml * model as real + w.profile * risk as real;
    if sum < 0.0 then 0.0 else if sum > 10000.0 then 10000.0 else sum
  }

  lemma SumWritten(w: Weights, severity: int, ml: int, risk: int)
    ensures Clamp(WeightedSum(w, severity, ml, risk)) == ExactSum(w, severity, ml, risk)
  {
    assert Times(w.rule, severity as real) == w.rule * severity as real;
    assert Times(w.ml, ml as real) == w.ml * ml as real;
    assert Times(w.profile, risk as real) == w.profile * risk as real;
  }

  lemma CriticalAmong(matches: seq<RuleMatch>)
    ensures HasCritical(matches) <==> exists m | m in matches :: m.severity.Critical?
  {
    if HasCritical(matches) {
      var i :| 0 <= i < |matches| && matches[i].severity.Critical?;
      assert matches[i] in matches;
    }
  }

  lemma CeilingBound(n: int, t: real)
    ensures n as real >= t <==> n >= Ceiling(t)
  {
  }

  lemma RoundingBound(x: real, n: int)
    requires 0.0 <= x
    ensures RoundHalfUp(x) >= n <==> x >= n as real - 0.5
  {
  }

  /** Within half a unit of the number, upwards at a tie; of a negative number, downwards. */
  predicate Nearest(n: int, x: real) {
    if x >= 0.0 then n as real - 0.5 <= x < n as real + 0.5 else n as real - 0.5 < x <= n as real + 0.5
  }

  lemma RoundsToNearest(x: real)
    ensures Nearest(RoundHalfUp(x), x)
  {
    if x < 0.0 {
      var k := (-x + 0.5).Floor;
      assert RoundHalfUp(x) as real == -(k as real);
    }
  }

  /** With one weight one and the others zero the composite is that component. */
  lemma WeightsBelong(severity: int, ml: int, risk: int, t: real)
    requires 0 <= severity <= ONE && 0 <= ml <= ONE && 0 <= risk <= ONE
    ensures Composite(Weights(1.0, 0.0, 0.0, t), severity, ml, risk) == severity
    ensures Composite(Weights(0.0, 1.0, 0.0, t), severity, ml, risk) == ml
    ensures Composite(Weights(0.0, 0.0, 1.0, t), severity, ml, risk) == risk
  {
    assert (severity as real + 0.5).Floor == severity;
    assert (ml as real + 0.5).Floor == ml;
    assert (risk as real + 0.5).Floor == risk;
  }

  // ---------------------------------------------------------------- monotony and order

  lemma RoundMonotone(x: real, y: real)
    requires x <= y
    ensures RoundHalfUp(x) <= RoundHalfUp(y)
  {
  }

  lemma CompositeMonotone(w: Weights, s: int, s': int, ml: int, r: int, r': int)
    requires w.Valid() && s <= s' && r <= r'
    ensures Composite(w, s, ml, r) <= Composite(w, s', ml, r')
  {
    var x, x', y, y' := s as real, s' as real, r as real, r' as real;
    WeightedBounds(w.rule, x, x, x');
    WeightedBounds(w.profile, y, y, y');
    assert WeightedSum(w, s, ml, r) <= WeightedSum(w, s', ml, r');
    RoundMonotone(Clamp(WeightedSum(w, s, ml, r)), Clamp(WeightedSum(w, s', ml, r')));
  }

  /** The severity score is the least value that no match exceeds, and not negative. */
  lemma {:induction false} SeverityScoreIsMax(matches: seq<RuleMatch>)
    ensures 0 <= SeverityScore(matches) <= ONE
    ensures forall m | m in matches :: SeverityValue(m.severity) <= SeverityScore(matches)
    ensures |matches| > 0 ==> exists m | m in matches :: SeverityScore(matches) == 2500 * (Rank(m.severity) + 1)
    ensures forall m | m in matches :: 2500 * (Rank(m.severity) + 1) <= SeverityScore(matches)
    ensures |matches| == 0 ==> SeverityScore(matches) == 0
  {
    if |matches| > 0 {
      var n := |matches| - 1;
      SeverityScoreIsMax(matches[..n]);
      assert matches == matches[..n] + [matches[n]];
      assert matches[n] in matches;
    }
  }

  lemma SeverityScoreMonotone(xs: seq<RuleMatch>, ys: seq<RuleMatch>)
    requires forall m | m in xs :: m in ys
    ensures SeverityScore(xs) <= SeverityScore(ys)
    ensures HasCritical(xs) ==> HasCritical(ys)
  {
    SeverityScoreIsMax(xs);
    SeverityScoreIsMax(ys);
    if HasCritical(xs) {
      var i :| 0 <= i < |xs| && xs[i].severity.Critical?;
      assert xs[i] in ys;
    }
  }

  /** One decision is no milder than another. */
  predicate NoMilder(d: Decision, d': Decision) {
    d.score <= d'.score && Rank(d.severity) <= Rank(d'.severity) && (d.shouldAlert ==> d'.shouldAlert)
  }

  lemma DecideMonotone(xs: seq<RuleMatch>, ys: seq<RuleMatch>, ml: real, risk: Option<real>, risk': Option<real>,
      w: Weights)
    requires w.Valid() && forall m | m in xs :: m in ys
    requires (risk.Some? ==> risk'.Some? && risk.value <= risk'.value) && (risk'.Some? ==> 0.0 <= risk'.value)
    ensures NoMilder(Decide(xs, ml, risk, w), Decide(ys, ml, risk', w))
  {
    SeverityScoreMonotone(xs, ys);
    if risk.Some? {
      RoundMonotone(risk.value * ONE as real, risk'.value * ONE as real);
    } else if risk'.Some? {
      RoundMonotone(0.0, risk'.value * ONE as real);
    }
    CompositeMonotone(w, SeverityScore(xs), SeverityScore(ys), Quantize(ml), RiskUnits(risk), RiskUnits(risk'));
  }

  /** The whole detection function: rules, score, severity and alert. */
  function Detection(rules: seq<Rule>, x: Context, ml: real, w: Weights): Decision {
    Decide(Matches(rules, x), ml, x.risk, w)
  }

  /** The worth of a severity, on the scale of the score. */
  predicate Worth(severity: AlertSeverity, value: int) {
    match severity
    case Low => value == 2500
    case Medium => value == 5000
    case High => value == 7500
    case Critical => value == 10000
  }

  ghost predicate CriticalTriggers(rules: seq<Rule>, x: Context) {
    exists r | r in rules :: Triggers(r, x) && r.severity.Critical?
  }

  /** `highest` is the worth of the gravest rule that triggers, and zero if none does. */
  ghost predicate Gravest(rules: seq<Rule>, x: Context, highest: int) {
    if exists r | r in rules :: Triggers(r, x)
    then && (exists r | r in rules :: Triggers(r, x) && Worth(r.severity, highest))
         && (forall r, v | r in rules && Triggers(r, x) && Worth(r.severity, v) :: v <= highest)
    else highest == 0
  }

  /**
   What detection answers, for any rules, context, model score and weights.  The score is the weighted sum of the
   highest worth among the rules that trigger, of the model score and of the user's risk, the latter two rounded to
   units, clamped and rounded itself.  The severity is critical for a critical rule that triggers, and otherwise
   what the bounds 0.50, 0.70 and 0.85 make of the score.  An alert is raised for such a rule or a score that
   reaches the threshold.
   */
  lemma DetectionExact(rules: seq<Rule>, x: Context, ml: real, w: Weights) returns (highest: int, model: int, risk: int)
    ensures var d := Detection(rules, x, ml, w);
            var critical := CriticalTriggers(rules, x);
            && 0 <= d.score <= 10000 && Nearest(d.score, ExactSum(w, highest, model, risk))
            && (d.severity.Critical? <==> critical || d.score >= 8500)
            && (d.severity.High? <==> !critical && 7000 <= d.score < 8500)
            && (d.severity.Medium? <==> !critical && 5000 <= d.score < 7000)
            && (d.shouldAlert <==> critical || d.score as real >= w.threshold * 10000.0)
    ensures Gravest(rules, x, highest)
    ensures Nearest(model, ml * 10000.0)
    ensures match x.risk case None => risk == 0 case Some(value) => Nearest(risk, value * 10000.0)
  {
    var matches := Matches(rules, x);
    highest, model, risk := SeverityScore(matches), Quantize(ml), RiskUnits(x.risk);
    RoundsToNearest(ml * ONE as real);
    if x.risk.Some? {
      RoundsToNearest(x.risk.value * ONE as real);
    }
    ScoreExact(w, highest, model, risk);
    CriticalExact(rules, x);
    HighestExact(rules, x);
  }

  const BOUNDS: set<int> := {5000, 7000, 8500}

  /**
   The severity is critical for a critical rule that triggers, and otherwise its rank is the number of the bounds
   0.50, 0.70 and 0.85 that the score reaches.
   */
  lemma SeverityBands(rules: seq<Rule>, x: Context, ml: real, w: Weights)
    ensures var d := Detection(rules, x, ml, w);
            if CriticalTriggers(rules, x) then d.severity == Critical
            else Rank(d.severity) == |set t | t in BOUNDS && t <= d.score|
  {
    var d := Detection(rules, x, ml, w);
    var highest, model, risk := DetectionExact(rules, x, ml, w);
    var reached := set t | t in BOUNDS && t <= d.score;
    if d.score >= 8500 {
      assert reached == {5000, 7000, 8500};
    } else if d.score >= 7000 {
      assert reached == {5000, 7000};
    } else if d.score >= 5000 {
      assert reached == {5000};
    } else {
      assert reached == {};
    }
  }

  lemma ScoreExact(w: Weights, severity: int, ml: int, risk: int)
    ensures 0 <= Composite(w, severity, ml, risk) <= 10000
    ensures Nearest(Composite(w, severity, ml, risk), ExactSum(w, severity, ml, risk))
  {
    SumWritten(w, severity, ml, risk);
    RoundsToNearest(Clamp(WeightedSum(w, severity, ml, risk)));
    hide WeightedSum;
  }

  lemma CriticalExact(rules: seq<Rule>, x: Context)
    ensures HasCritical(Matches(rules, x)) <==> CriticalTriggers(rules, x)
  {
    var matches := Matches(rules, x);
    CriticalAmong(matches);
    if m :| m in matches && m.severity.Critical? {
      MatchMembers(rules, x, m);
      var i :| 0 <= i < |rules| && Triggers(rules[i], x) && m == MatchOf(rules[i]);
      assert rules[i] in rules;
    }
    if r :| r in rules && Triggers(r, x) && r.severity.Critical? {
      Matched(rules, x, r);
    }
  }

  lemma Matched(rules: seq<Rule>, x: Context, r: Rule)
    requires r in rules && Triggers(r, x)
    ensures MatchOf(r) in Matches(rules, x)
  {
    var i :| 0 <= i < |rules| && rules[i] == r;
    MatchMembers(rules, x, MatchOf(r));
  }

  lemma HighestExact(rules: seq<Rule>, x: Context)
    ensures Gravest(rules, x, SeverityScore(Matches(rules, x)))
  {
    var matches := Matches(rules, x);
    SeverityScoreIsMax(matches);
    if r :| r in rules && Triggers(r, x) {
      Matched(rules, x, r);
      var m :| m in matches && SeverityScore(matches) == 2500 * (Rank(m.severity) + 1);
      MatchMembers(rules, x, m);
      var i :| 0 <= i < |rules| && Triggers(rules[i], x) && m == MatchOf(rules[i]);
      assert rules[i] in rules && Worth(rules[i].severity, SeverityScore(matches));
      forall r, v | r in rules && Triggers(r, x) && Worth(r.severity, v) ensures v <= SeverityScore(matches) {
        Matched(rules, x, r);
      }
    } else {
      NoneMatched(rules, x);
    }
  }

  lemma {:induction false} NoneMatched(rules: seq<Rule>, x: Context)
    requires forall r | r in rules :: !Triggers(r, x)
    ensures Matches(rules, x) == []
  {
    if |rules| > 0 {
      assert rules[|rules| - 1] in rules;
      NoneMatched(rules[..|rules| - 1], x);
    }
  }

  /**
   For a fixed model score, raising the amount, the activity or the user's risk, or adding rules,
   never lowers the score or the severity and never turns an alert off.
   */
  lemma DetectionMonotone(rules: seq<Rule>, rules': seq<Rule>, x: Context, y: Context, ml: real, w: Weights)
    requires w.Valid() && AtMost(x, y) && (forall r | r in rules :: r in rules') &&
      (y.risk.Some? ==> 0.0 <= y.risk.value)
    ensures NoMilder(Detection(rules, x, ml, w), Detection(rules', y, ml, w))
  {
    MatchesMonotone(rules, rules', x, y);
    DecideMonotone(Matches(rules, x), Matches(rules', y), ml, x.risk, y.risk, w);
  }

  lemma SameMembers(xs: seq<Rule>, ys: seq<Rule>)
    requires multiset(xs) == multiset(ys)
    ensures forall r | r in xs :: r in ys
  {
    forall r | r in xs ensures r in ys {
      assert r in multiset(xs);
    }
  }

  /** The order in which the cache holds the rules does not change the decision. */
  lemma OrderIrrelevant(rules: seq<Rule>, rules': seq<Rule>, x: Context, ml: real, w: Weights)
    requires multiset(rules) == multiset(rules')
    ensures Detection(rules, x, ml, w) == Detection(rules', x, ml, w)
  {
    SameMembers(rules, rules');
    SameMembers(rules', rules);
    MatchesMonotone(rules, rules', x, x);
    MatchesMonotone(rules', rules, x, x);
    SeverityScoreMonotone(Matches(rules, x), Matches(rules', x));
    SeverityScoreMonotone(Matches(rules', x), Matches(rules, x));
  }
}
