/** The deterministic rules engine: five kinds of rules over a transaction and its context. */
module Rules {
  import opened Collections
  import opened Domain

  datatype RuleType = AmountThreshold | HighRiskCountry | Velocity | UserRiskLevel | MerchantCategory

  /**
   A JSON parameter.  Text carries what reading it as a decimal and as an integer would give;
   Object stands for nested values, of which only emptiness matters.
   */
  datatype Value =
    | Null
    | Bool(b: bool)
    | Number(n: real)
    | Text(s: string, decimal: Option<real>, integer: Option<int>)
    | Texts(items: seq<string>)
    | Object(empty: bool)

  datatype Rule = Rule(id: nat, kind: RuleType, params: map<string, Value>, severity: AlertSeverity, enabled: bool)

  datatype RuleMatch = RuleMatch(rule: nat, kind: RuleType, severity: AlertSeverity)

  datatype Activity = Activity(count: int, total: real)

  /** What a rule looks at: the transaction, the user's recent activity, and the user's risk score. */
  datatype Context = Context(amount: real, currency: string, country: string, merchant: string,
                             velocity: Option<Activity>, risk: Option<real>)

  // ---------------------------------------------------------------- reading parameters

  function Get(params: map<string, Value>, key: string): Value {
    if key in params then params[key] else Null
  }

  predicate Truthy(v: Value) {
    match v
    case Null => false
    case Bool(b) => b
    case Number(n) => n != 0.0
    case Text(s, _, _) => s != ""
    case Texts(items) => items != []
    case Object(empty) => !empty
  }

  /** `a or b`: the second operand is the result, even a falsy one, when the first is falsy. */
  function Or(a: Value, b: Value): Value {
    if Truthy(a) then a else b
  }

  /** `params.get(k0) or params.get(k1) or …` over the keys of one parameter. */
  function Pick(params: map<string, Value>, keys: seq<string>): Value
    requires |keys| > 0
  {
    if |keys| == 1 then Get(params, keys[0]) else Or(Get(params, keys[0]), Pick(params, keys[1..]))
  }

  const AMOUNT_KEYS := ["threshold", "amount_threshold", "limit"]
  const COUNTRY_KEYS := ["countries", "country_codes", "country_list"]
  const COUNT_KEYS := ["max_count", "count_threshold"]
  const TOTAL_KEYS := ["max_amount", "amount_threshold"]
  const RISK_KEYS := ["min_risk_score", "risk_threshold", "threshold"]
  const CATEGORY_KEYS := ["categories", "category_list", "blocked_categories"]

  function AsDecimal(v: Value): Option<real> {
    match v
    case Number(n) => Some(n)
    case Text(_, decimal, _) => decimal
    case _ => None
  }

  function AsInteger(v: Value): Option<int> {
    match v
    case Number(n) => Some(if n >= 0.0 then n.Floor else -((-n).Floor))
    case Text(_, _, integer) => integer
    case Bool(b) => Some(if b then 1 else 0)
    case _ => None
  }

  function UpperChar(c: char): char {
    if 'a' <= c <= 'z' then 'A' + (c - 'a') else c
  }

  function Upper(s: string): string {
    seq(|s|, i requires 0 <= i < |s| => UpperChar(s[i]))
  }

  predicate Space(c: char) {
    9 <= c as int <= 13 || 28 <= c as int <= 32
  }

  function Strip(s: string): string {
    if |s| > 0 && Space(s[0]) then Strip(s[1..])
    else if |s| > 0 && Space(s[|s| - 1]) then Strip(s[..|s| - 1])
    else s
  }

  /** The same name up to case and surrounding blanks. */
  predicate SameName(a: string, b: string) {
    Upper(Strip(a)) == Upper(Strip(b))
  }

  /** Whether a list parameter names the text. */
  predicate Names(v: Value, text: string) {
    v.Texts? && exists i | 0 <= i < |v.items| :: SameName(v.items[i], text)
  }

  // ---------------------------------------------------------------- the five kinds

  predicate AmountTriggers(params: map<string, Value>, x: Context) {
    var threshold := AsDecimal(Pick(params, AMOUNT_KEYS));
    threshold.Some? && CurrencyMatches(params, x) && Exceeds(params, x.amount, threshold.value)
  }

  predicate CurrencyMatches(params: map<string, Value>, x: Context) {
    var currency := Get(params, "currency");
    Truthy(currency) ==> currency.Text? && Upper(x.currency) == Upper(currency.s)
  }

  /** Any operator but ">=" stands for ">". */
  predicate Exceeds(params: map<string, Value>, amount: real, threshold: real) {
    if "operator" !in params || (params["operator"].Text? && params["operator"].s == ">=")
    then amount >= threshold
    else amount > threshold
  }

  predicate CountryTriggers(params: map<string, Value>, x: Context) {
    Names(Pick(params, COUNTRY_KEYS), x.country)
  }

  predicate VelocityTriggers(params: map<string, Value>, x: Context) {
    x.velocity.Some?
    && var maxCount := AsInteger(Pick(params, COUNT_KEYS));
       var maxAmount := AsDecimal(Pick(params, TOTAL_KEYS));
       || (maxCount.Some? && x.velocity.value.count >= maxCount.value)
       || (maxAmount.Some? && x.velocity.value.total >= maxAmount.value)
  }

  predicate RiskTriggers(params: map<string, Value>, x: Context) {
    x.risk.Some?
    && var minimum := AsDecimal(Pick(params, RISK_KEYS));
       minimum.Some? && x.risk.value >= minimum.value
  }

  predicate MerchantTriggers(params: map<string, Value>, x: Context) {
    Names(Pick(params, CATEGORY_KEYS), x.merchant)
  }

  predicate Triggers(rule: Rule, x: Context) {
    rule.enabled && match rule.kind
                    case AmountThreshold => AmountTriggers(rule.params, x)
                    case HighRiskCountry => CountryTriggers(rule.params, x)
                    case Velocity => VelocityTriggers(rule.params, x)
                    case UserRiskLevel => RiskTriggers(rule.params, x)
                    case MerchantCategory => MerchantTriggers(rule.params, x)
  }

  function MatchOf(rule: Rule): RuleMatch {
    RuleMatch(rule.id, rule.kind, rule.severity)
  }

  // ---------------------------------------------------------------- a collection of rules

  /** The matches of the rules that trigger, in the order of the rules. */
  function Matches(rules: seq<Rule>, x: Context): seq<RuleMatch> {
    if |rules| == 0 then []
    else
      var last := rules[|rules| - 1];
      Matches(rules[..|rules| - 1], x) + if Triggers(last, x) then [MatchOf(last)] else []
  }

  method EvaluateRules(rules: seq<Rule>, x: Context) returns (matches: seq<RuleMatch>)
    ensures matches == Matches(rules, x)
  {
    matches := [];
    for i := 0 to |rules|
      invariant matches == Matches(rules[..i], x)
    {
      assert rules[..i + 1][..i] == rules[..i];
      if Triggers(rules[i], x) {
        matches := matches + [MatchOf(rules[i])];
      }
    }
    assert rules[..|rules|] == rules;
  }

  /**
   The matches are an order-preserving selection: index k of the result comes from rule at[k], and no
   triggering rule is skipped.
   */
  lemma {:induction false} MatchesSelect(rules: seq<Rule>, x: Context) returns (at: seq<nat>)
    ensures |at| == |Matches(rules, x)|
    ensures forall k | 0 <= k < |at| ::
              && at[k] < |rules| && Triggers(rules[at[k]], x)
              && var rule, m := rules[at[k]], Matches(rules, x)[k];
                 m.rule == rule.id && m.kind == rule.kind && m.severity == rule.severity
    ensures forall j, k | 0 <= j < k < |at| :: at[j] < at[k]
    ensures forall i | 0 <= i < |rules| && Triggers(rules[i], x) :: i in at
  {
    at := [];
    if |rules| > 0 {
      var n := |rules| - 1;
      at := MatchesSelect(rules[..n], x);
      if Triggers(rules[n], x) {
        at := at + [n];
      }
    }
  }

  lemma {:induction false} MatchMembers(rules: seq<Rule>, x: Context, m: RuleMatch)
    ensures m in Matches(rules, x) <==> exists i :: 0 <= i < |rules| && Triggers(rules[i], x) && m == MatchOf(rules[i])
  {
    if |rules| > 0 {
      var n := |rules| - 1;
      MatchMembers(rules[..n], x, m);
      if i :| 0 <= i < |rules| && Triggers(rules[i], x) && m == MatchOf(rules[i]) {
        if i < n {
          assert rules[..n][i] == rules[i];
        }
      }
    }
  }

  // ---------------------------------------------------------------- which key decides

  predicate AllFalsy(params: map<string, Value>, keys: seq<string>) {
    forall i | 0 <= i < |keys| :: !Truthy(Get(params, keys[i]))
  }

  /** The first key with a truthy value, or the last one if there is none. */
  predicate Decides(params: map<string, Value>, keys: seq<string>, i: nat) {
    i < |keys| && AllFalsy(params, keys[..i]) && (Truthy(Get(params, keys[i])) || i == |keys| - 1)
  }

  lemma ConsFalsy(params: map<string, Value>, keys: seq<string>, i: nat)
    requires |keys| > 0 && i < |keys|
    ensures AllFalsy(params, keys[..i + 1]) <==> !Truthy(Get(params, keys[0])) && AllFalsy(params, keys[1..][..i])
  {
    assert keys[..i + 1] == [keys[0]] + keys[1..][..i];
    assert forall j | 0 <= j < i :: keys[..i + 1][j + 1] == keys[1..][..i][j];
  }

  /** Exactly one key of a parameter decides, and its value is what the rule works with. */
  lemma {:induction false} FirstKeyDecides(params: map<string, Value>, keys: seq<string>) returns (i: nat)
    requires |keys| > 0
    ensures Decides(params, keys, i) && Pick(params, keys) == Get(params, keys[i])
    ensures forall j: nat | Decides(params, keys, j) :: j == i
  {
    if |keys| == 1 || Truthy(Get(params, keys[0])) {
      i := 0;
      assert forall j: nat | Decides(params, keys, j) && j > 0 :: keys[..j][0] == keys[0];
    } else {
      var k := FirstKeyDecides(params, keys[1..]);
      i := k + 1;
      ConsFalsy(params, keys, k);
      forall j: nat | Decides(params, keys, j) ensures j == i {
        assert j != 0;
        ConsFalsy(params, keys, j - 1);
        assert Decides(params, keys[1..], j - 1);
      }
    }
  }

  /**
   A falsy value is what the rule works with exactly when it is under the last key and every other key is falsy
   too.
   */
  lemma FalsyOnlyLast(params: map<string, Value>, keys: seq<string>, v: Value)
    requires |keys| > 0 && !Truthy(v)
    ensures Pick(params, keys) == v <==> AllFalsy(params, keys) && Get(params, keys[|keys| - 1]) == v
  {
    var i := FirstKeyDecides(params, keys);
    if Pick(params, keys) == v {
      assert keys == keys[..i] + [keys[i]];
    }
    if AllFalsy(params, keys) {
      assert !Truthy(Get(params, keys[i]));
    }
  }

  /** A falsy value under any key but the last is as good as none. */
  lemma {:induction false} FalsyIsAbsent(params: map<string, Value>, keys: seq<string>, i: nat)
    requires i + 1 < |keys| && Distinct(keys) && !Truthy(Get(params, keys[i]))
    ensures Pick(params - {keys[i]}, keys) == Pick(params, keys)
  {
    if i == 0 {
      PickElsewhere(params, keys[1..], keys[0]);
    } else {
      FalsyIsAbsent(params, keys[1..], i - 1);
    }
  }

  lemma {:induction false} PickElsewhere(params: map<string, Value>, keys: seq<string>, key: string)
    requires |keys| > 0 && key !in keys
    ensures Pick(params - {key}, keys) == Pick(params, keys)
  {
    if |keys| > 1 {
      PickElsewhere(params, keys[1..], key);
    }
  }

  /** The value that was written first, in the order of the keys, whatever it is. */
  function FirstWritten(params: map<string, Value>, keys: seq<string>): Value
    requires |keys| > 0
  {
    if |keys| == 1 || Get(params, keys[0]) != Null then Get(params, keys[0]) else FirstWritten(params, keys[1..])
  }

  /**
   The rule works with the value that was written first exactly when that value is truthy, or nothing truthy and
   the same value again is behind it.
   */
  lemma {:induction false} FirstWrittenIff(params: map<string, Value>, keys: seq<string>)
    requires |keys| > 0
    ensures Pick(params, keys) == FirstWritten(params, keys) <==>
            || Truthy(FirstWritten(params, keys))
            || (AllFalsy(params, keys) && Get(params, keys[|keys| - 1]) == FirstWritten(params, keys))
  {
    if !Truthy(FirstWritten(params, keys)) {
      FalsyOnlyLast(params, keys, FirstWritten(params, keys));
    } else {
      WrittenTruthy(params, keys);
    }
  }

  lemma {:induction false} WrittenTruthy(params: map<string, Value>, keys: seq<string>)
    requires |keys| > 0 && Truthy(FirstWritten(params, keys))
    ensures Pick(params, keys) == FirstWritten(params, keys)
  {
    if |keys| > 1 && Get(params, keys[0]) == Null {
      WrittenTruthy(params, keys[1..]);
    }
  }

  // ---------------------------------------------------------------- what parameters mean

  /** The keys of a kind of rule that have another key behind them. */
  function KeysPassedOver(kind: RuleType): set<string> {
    match kind
    case AmountThreshold => {"threshold", "amount_threshold"}
    case HighRiskCountry => {"countries", "country_codes"}
    case Velocity => {"max_count", "max_amount"}
    case UserRiskLevel => {"min_risk_score", "risk_threshold"}
    case MerchantCategory => {"categories", "category_list"}
  }

  /**
   Whatever the kind and the parameters, a zero or another falsy value under such a key changes nothing: the rule
   acts as if the key were missing.
   */
  lemma ZeroIsMissing(rule: Rule, key: string, x: Context)
    requires key in KeysPassedOver(rule.kind) && !Truthy(Get(rule.params, key))
    ensures Triggers(rule.(params := rule.params - {key}), x) == Triggers(rule, x)
  {
    var p := rule.params;
    match rule.kind
    case AmountThreshold =>
      FalsyIsAbsent(p, AMOUNT_KEYS, if key == AMOUNT_KEYS[0] then 0 else 1);
    case HighRiskCountry =>
      FalsyIsAbsent(p, COUNTRY_KEYS, if key == COUNTRY_KEYS[0] then 0 else 1);
    case Velocity =>
      if key == COUNT_KEYS[0] {
        FalsyIsAbsent(p, COUNT_KEYS, 0);
        PickElsewhere(p, TOTAL_KEYS, key);
      } else {
        FalsyIsAbsent(p, TOTAL_KEYS, 0);
        PickElsewhere(p, COUNT_KEYS, key);
      }
    case UserRiskLevel =>
      FalsyIsAbsent(p, RISK_KEYS, if key == RISK_KEYS[0] then 0 else 1);
    case MerchantCategory =>
      FalsyIsAbsent(p, CATEGORY_KEYS, if key == CATEGORY_KEYS[0] then 0 else 1);
  }

  // ---------------------------------------------------------------- names

  /** The same letter, or the same letter in the other case. */
  predicate SameLetter(c: char, d: char) {
    || c == d
    || ('a' <= c <= 'z' && c as int == d as int + 32)
    || ('a' <= d <= 'z' && d as int == c as int + 32)
  }

  predicate SameLetters(a: string, b: string) {
    |a| == |b| && forall k | 0 <= k < |a| :: SameLetter(a[k], b[k])
  }

  const BLANKS: string := " \t\n\r\U{0B}\U{0C}\U{1C}\U{1D}\U{1E}\U{1F}"

  predicate BlankChar(c: char) {
    c in BLANKS
  }

  predicate Blank(s: string) {
    forall k | 0 <= k < |s| :: BlankChar(s[k])
  }

  predicate Trimmed(s: string) {
    s != "" ==> !BlankChar(s[0]) && !BlankChar(s[|s| - 1])
  }

  lemma SpacesAreBlanks(c: char)
    ensures Space(c) <==> BlankChar(c)
  {
    var n := c as int;
    assert BLANKS[0] == ' ' && BLANKS[1] == '\t' && BLANKS[2] == '\n' && BLANKS[3] == '\r' && BLANKS[4] == '\U{0B}';
    assert BLANKS[5] == '\U{0C}' && BLANKS[6] == '\U{1C}' && BLANKS[7] == '\U{1D}' && BLANKS[8] == '\U{1E}';
    assert BLANKS[9] == '\U{1F}';
    if Space(c) {
      assert n == 9 || n == 10 || n == 11 || n == 12 || n == 13 || n == 28 || n == 29 || n == 30 || n == 31 || n == 32;
    }
  }

  lemma UppersAreSame(a: string, b: string)
    ensures Upper(a) == Upper(b) <==> SameLetters(a, b)
  {
    if Upper(a) == Upper(b) {
      assert |Upper(a)| == |Upper(b)|;
      forall k | 0 <= k < |a| ensures SameLetter(a[k], b[k]) {
        assert Upper(a)[k] == Upper(b)[k];
      }
    }
  }

  /** Whatever blanks surround a name, stripping leaves the name. */
  lemma {:induction false} StripLeaves(pre: string, a: string, post: string)
    requires Blank(pre) && Blank(post) && Trimmed(a)
    ensures Strip(pre + a + post) == a
    decreases |pre| + |post|
  {
    hide BlankChar, Space;
    var s := pre + a + post;
    if pre != "" {
      SpacesAreBlanks(s[0]);
      assert s[1..] == pre[1..] + a + post;
      StripLeaves(pre[1..], a, post);
    } else if post != "" {
      var n := |post| - 1;
      SpacesAreBlanks(s[|s| - 1]);
      SpacesAreBlanks(s[0]);
      if a == "" {
        assert s == post && s[1..] == "" + a + post[1..];
        StripLeaves("", a, post[1..]);
      } else {
        assert s[..|s| - 1] == "" + a + post[..n];
        StripLeaves("", a, post[..n]);
      }
    } else {
      assert s == a;
      if a != "" {
        SpacesAreBlanks(a[0]);
        SpacesAreBlanks(a[|a| - 1]);
      }
    }
  }

  /** And every text is a name surrounded by blanks. */
  lemma {:induction false} StripParts(s: string) returns (pre: string, post: string)
    ensures Blank(pre) && Blank(post) && Trimmed(Strip(s)) && s == pre + Strip(s) + post
    decreases |s|
  {
    hide BlankChar, Space, Blank, Trimmed;
    NoBlanks(s);
    pre, post := "", "";
    if s != "" {
      var n := |s| - 1;
      SpacesAreBlanks(s[0]);
      SpacesAreBlanks(s[n]);
      if Space(s[0]) {
        var more;
        more, post := StripParts(s[1..]);
        pre := [s[0]] + more;
        OneMoreBefore(s[0], more, Strip(s), post);
        assert s == [s[0]] + s[1..];
      } else if Space(s[n]) {
        var more;
        pre, more := StripParts(s[..n]);
        post := more + [s[n]];
        OneMoreBehind(pre, Strip(s), more, s[n]);
        assert s == s[..n] + [s[n]];
      }
    }
  }

  lemma NoBlanks(s: string)
    ensures Blank("")
    ensures s == "" || (!Space(s[0]) && !Space(s[|s| - 1])) ==> Trimmed(s)
  {
    if s != "" {
      SpacesAreBlanks(s[0]);
      SpacesAreBlanks(s[|s| - 1]);
    }
  }

  lemma OneMoreBefore(c: char, pre: string, a: string, post: string)
    requires BlankChar(c) && Blank(pre)
    ensures Blank([c] + pre) && [c] + (pre + a + post) == [c] + pre + a + post
  {
    hide BlankChar;
  }

  lemma OneMoreBehind(pre: string, a: string, post: string, c: char)
    requires BlankChar(c) && Blank(post)
    ensures Blank(post + [c]) && pre + a + post + [c] == pre + a + (post + [c])
  {
    hide BlankChar;
  }

  /** Two texts are the same name exactly when their letters agree up to case, surrounding blanks aside. */
  lemma SameNameIff(pre: string, a: string, post: string, pre': string, b: string, post': string)
    requires Blank(pre) && Blank(post) && Trimmed(a) && Blank(pre') && Blank(post') && Trimmed(b)
    ensures SameName(pre + a + post, pre' + b + post') <==> SameLetters(a, b)
  {
    StripLeaves(pre, a, post);
    StripLeaves(pre', b, post');
    UppersAreSame(a, b);
  }

  // ---------------------------------------------------------------- when a rule triggers

  /** A number reads as itself and a text as what it spells; nothing else is a number. */
  lemma ReadsDecimal(v: Value, t: real)
    ensures AsDecimal(v) == Some(t) <==> v == Number(t) || (v.Text? && v.decimal == Some(t))
  {
  }

  /** For a count a number loses its fraction, towards zero, and a truth value is one or zero. */
  lemma ReadsInteger(v: Value, k: int)
    ensures AsInteger(v) == Some(k) <==>
            || (v.Number? && 0.0 <= v.n && k as real <= v.n < k as real + 1.0)
            || (v.Number? && v.n < 0.0 && k as real - 1.0 < v.n <= k as real)
            || (v.Text? && v.integer == Some(k))
            || (v.Bool? && k == if v.b then 1 else 0)
  {
    if v.Number? && v.n < 0.0 {
      assert (-v.n).Floor == -k <==> -(k as real) <= -v.n < -(k as real) + 1.0;
    }
  }

  /** What counts as missing: null, false, zero, and whatever is empty. */
  lemma Falsy(v: Value)
    ensures !Truthy(v) <==>
            v in {Null, Bool(false), Number(0.0), Texts([]), Object(true)} || (v.Text? && |v.s| == 0)
  {
  }

  lemma DisabledNeverTriggers(rule: Rule, x: Context)
    requires !rule.enabled
    ensures !Triggers(rule, x)
  {
  }

  /**
   For any parameters, with key i deciding: an amount rule triggers exactly when it is enabled, the payment is in
   the rule's currency if there is one, and its amount reaches the number under the key, or exceeds it if an
   operator other than >= is given.
   */
  lemma AmountRule(rule: Rule, x: Context, i: nat)
    requires rule.kind.AmountThreshold? && Decides(rule.params, ["threshold", "amount_threshold", "limit"], i)
    ensures var t := AsDecimal(Get(rule.params, ["threshold", "amount_threshold", "limit"][i]));
            Triggers(rule, x) <==>
              && rule.enabled && t.Some?
              && ("currency" in rule.params && Truthy(rule.params["currency"]) ==>
                    rule.params["currency"].Text? && SameLetters(x.currency, rule.params["currency"].s))
              && (x.amount > t.value
                  || (x.amount == t.value
                      && ("operator" !in rule.params
                          || (rule.params["operator"].Text? && rule.params["operator"].s == ">="))))
  {
    var k := FirstKeyDecides(rule.params, AMOUNT_KEYS);
    var currency := Get(rule.params, "currency");
    if currency.Text? {
      UppersAreSame(x.currency, currency.s);
    }
  }

  /** A user-risk rule triggers exactly when it is enabled and the score is known and reaches the number. */
  lemma RiskRule(rule: Rule, x: Context, i: nat)
    requires rule.kind.UserRiskLevel? && Decides(rule.params, ["min_risk_score", "risk_threshold", "threshold"], i)
    ensures var t := AsDecimal(Get(rule.params, ["min_risk_score", "risk_threshold", "threshold"][i]));
            Triggers(rule, x) <==> rule.enabled && t.Some? && x.risk.Some? && x.risk.value >= t.value
  {
    var k := FirstKeyDecides(rule.params, RISK_KEYS);
  }

  /**
   A velocity rule triggers exactly when it is enabled, the activity is known, and its count reaches the integer
   under the deciding key of the one limit or its total the number under that of the other.
   */
  lemma VelocityRule(rule: Rule, x: Context, i: nat, j: nat)
    requires rule.kind.Velocity?
    requires Decides(rule.params, ["max_count", "count_threshold"], i)
    requires Decides(rule.params, ["max_amount", "amount_threshold"], j)
    ensures var n := AsInteger(Get(rule.params, ["max_count", "count_threshold"][i]));
            var t := AsDecimal(Get(rule.params, ["max_amount", "amount_threshold"][j]));
            Triggers(rule, x) <==>
              && rule.enabled && x.velocity.Some?
              && ((n.Some? && x.velocity.value.count >= n.value) || (t.Some? && x.velocity.value.total >= t.value))
  {
    var k := FirstKeyDecides(rule.params, COUNT_KEYS);
    var l := FirstKeyDecides(rule.params, TOTAL_KEYS);
  }

  /** A country rule triggers exactly when it is enabled and an item of the deciding list names the country. */
  lemma CountryRule(rule: Rule, x: Context, i: nat)
    requires rule.kind.HighRiskCountry? && Decides(rule.params, ["countries", "country_codes", "country_list"], i)
    ensures var v := Get(rule.params, ["countries", "country_codes", "country_list"][i]);
            Triggers(rule, x) <==>
              rule.enabled && v.Texts? && exists j | 0 <= j < |v.items| :: SameName(v.items[j], x.country)
  {
    var k := FirstKeyDecides(rule.params, COUNTRY_KEYS);
  }

  /** A category rule triggers exactly when it is enabled and an item of the deciding list names the category. */
  lemma CategoryRule(rule: Rule, x: Context, i: nat)
    requires rule.kind.MerchantCategory?
    requires Decides(rule.params, ["categories", "category_list", "blocked_categories"], i)
    ensures var v := Get(rule.params, ["categories", "category_list", "blocked_categories"][i]);
            Triggers(rule, x) <==>
              rule.enabled && v.Texts? && exists j | 0 <= j < |v.items| :: SameName(v.items[j], x.merchant)
  {
    var k := FirstKeyDecides(rule.params, CATEGORY_KEYS);
  }

  /**
   A zero is the bound of a numeric rule exactly when it is under the last key of the parameter and no other key
   has a truthy value.
   */
  lemma ZeroOnlyLast(rule: Rule, x: Context)
    ensures var zero, params := Number(0.0), rule.params;
            && (Pick(params, AMOUNT_KEYS) == zero <==> AllFalsy(params, AMOUNT_KEYS) && Get(params, "limit") == zero)
            && (Pick(params, COUNT_KEYS) == zero <==>
                AllFalsy(params, COUNT_KEYS) && Get(params, "count_threshold") == zero)
            && (Pick(params, TOTAL_KEYS) == zero <==>
                AllFalsy(params, TOTAL_KEYS) && Get(params, "amount_threshold") == zero)
            && (Pick(params, RISK_KEYS) == zero <==> AllFalsy(params, RISK_KEYS) && Get(params, "threshold") == zero)
    ensures rule.kind.AmountThreshold? && Pick(rule.params, AMOUNT_KEYS) == Number(0.0) ==>
              (Triggers(rule, x) <==>
                 rule.enabled && CurrencyMatches(rule.params, x) && Exceeds(rule.params, x.amount, 0.0))
    ensures rule.kind.Velocity? && rule.enabled && x.velocity.Some? ==>
              && (Pick(rule.params, COUNT_KEYS) == Number(0.0) && x.velocity.value.count >= 0 ==> Triggers(rule, x))
              && (Pick(rule.params, TOTAL_KEYS) == Number(0.0) && x.velocity.value.total >= 0.0 ==> Triggers(rule, x))
    ensures rule.kind.UserRiskLevel? && Pick(rule.params, RISK_KEYS) == Number(0.0) ==>
              (Triggers(rule, x) <==> rule.enabled && x.risk.Some? && x.risk.value >= 0.0)
  {
    FalsyOnlyLast(rule.params, AMOUNT_KEYS, Number(0.0));
    FalsyOnlyLast(rule.params, COUNT_KEYS, Number(0.0));
    FalsyOnlyLast(rule.params, TOTAL_KEYS, Number(0.0));
    FalsyOnlyLast(rule.params, RISK_KEYS, Number(0.0));
  }

  /**
   So an amount rule that was written to catch every payment catches none, when its zero stands under the first
   key, and every one under the last.
   */
  lemma ZeroThreshold(rule: Rule, x: Context)
    requires rule.kind.AmountThreshold? && rule.enabled && 0.0 <= x.amount
    ensures rule.params == map["threshold" := Number(0.0)] ==> !Triggers(rule, x)
    ensures rule.params == map["limit" := Number(0.0)] ==> Triggers(rule, x)
  {
    ZeroOnlyLast(rule, x);
    NoBoundNoTrigger(rule, x);
  }

  /**
   With nothing but falsy values under the first keys and nothing at all under the last, a numeric rule never
   triggers, a zero among them notwithstanding.
   */
  lemma NoBoundNoTrigger(rule: Rule, x: Context)
    ensures rule.kind.AmountThreshold? && AllFalsy(rule.params, AMOUNT_KEYS) && Get(rule.params, "limit") == Null ==>
              !Triggers(rule, x)
    ensures rule.kind.UserRiskLevel? && AllFalsy(rule.params, RISK_KEYS) && Get(rule.params, "threshold") == Null ==>
              !Triggers(rule, x)
    ensures (rule.kind.Velocity?
             && AllFalsy(rule.params, COUNT_KEYS) && Get(rule.params, "count_threshold") == Null
             && AllFalsy(rule.params, TOTAL_KEYS) && Get(rule.params, "amount_threshold") == Null) ==>
              !Triggers(rule, x)
  {
    FalsyOnlyLast(rule.params, AMOUNT_KEYS, Null);
    FalsyOnlyLast(rule.params, COUNT_KEYS, Null);
    FalsyOnlyLast(rule.params, TOTAL_KEYS, Null);
    FalsyOnlyLast(rule.params, RISK_KEYS, Null);
  }

  function Only(params: map<string, Value>, keys: seq<string>): map<string, Value> {
    map k | k in params && k in keys :: params[k]
  }

  lemma {:induction false} PickOnly(params: map<string, Value>, keys: seq<string>, all: seq<string>)
    requires |keys| > 0
    ensures (forall k | k in keys :: k in all) ==> Pick(Only(params, all), keys) == Pick(params, keys)
    ensures (forall k | k in keys :: k !in all) ==> Pick(Only(params, all), keys) == Null
  {
    assert keys[0] in keys;
    if |keys| > 1 {
      assert forall k | k in keys[1..] :: k in keys;
      PickOnly(params, keys[1..], all);
    }
  }

  /** For all parameters: a velocity rule triggers when its count limit or its total limit would on its own. */
  lemma EitherLimit(rule: Rule, x: Context)
    requires rule.kind.Velocity?
    ensures Triggers(rule, x) <==>
            || Triggers(rule.(params := Only(rule.params, ["max_count", "count_threshold"])), x)
            || Triggers(rule.(params := Only(rule.params, ["max_amount", "amount_threshold"])), x)
  {
    PickOnly(rule.params, COUNT_KEYS, COUNT_KEYS);
    PickOnly(rule.params, TOTAL_KEYS, TOTAL_KEYS);
    PickOnly(rule.params, COUNT_KEYS, TOTAL_KEYS);
    PickOnly(rule.params, TOTAL_KEYS, COUNT_KEYS);
  }

  /** Every name of one list is in the other, up to case and blanks. */
  predicate NamedIn(xs: seq<string>, ys: seq<string>) {
    forall i | 0 <= i < |xs| :: exists j | 0 <= j < |ys| :: SameName(xs[i], ys[j])
  }

  lemma NamedElsewhere(xs: seq<string>, ys: seq<string>, a: string, b: string)
    requires NamedIn(xs, ys) && SameName(a, b) && Names(Texts(xs), a)
    ensures Names(Texts(ys), b)
  {
    hide Upper, Strip;
    var i :| 0 <= i < |xs| && SameName(xs[i], a);
    var j :| 0 <= j < |ys| && SameName(xs[i], ys[j]);
    assert SameName(ys[j], b);
  }

  /** Order, repetition, case and blanks of a list do not matter, nor case and blanks of the name looked up. */
  lemma ListsUpToCase(xs: seq<string>, ys: seq<string>, a: string, b: string)
    requires NamedIn(xs, ys) && NamedIn(ys, xs) && SameName(a, b)
    ensures Names(Texts(xs), a) <==> Names(Texts(ys), b)
  {
    hide NamedIn, Names, Upper, Strip;
    if Names(Texts(xs), a) {
      NamedElsewhere(xs, ys, a, b);
    }
    if Names(Texts(ys), b) {
      NamedElsewhere(ys, xs, b, a);
    }
  }

  // ---------------------------------------------------------------- monotony

  /** The same transaction and user, with no less amount, activity and risk. */
  predicate AtMost(x: Context, y: Context) {
    && x.currency == y.currency && x.country == y.country && x.merchant == y.merchant
    && x.amount <= y.amount
    && (x.velocity.Some? ==> y.velocity.Some? && x.velocity.value.count <= y.velocity.value.count
                             && x.velocity.value.total <= y.velocity.value.total)
    && (x.risk.Some? ==> y.risk.Some? && x.risk.value <= y.risk.value)
  }

  /** A rule that triggers goes on to trigger when amount, activity or risk rise. */
  lemma TriggersMonotone(rule: Rule, x: Context, y: Context)
    requires AtMost(x, y) && Triggers(rule, x)
    ensures Triggers(rule, y)
  {
  }

  /** No match disappears when the context rises or rules are added, wherever they are added. */
  lemma MatchesMonotone(rules: seq<Rule>, rules': seq<Rule>, x: Context, y: Context)
    requires AtMost(x, y) && forall r | r in rules :: r in rules'
    ensures forall m | m in Matches(rules, x) :: m in Matches(rules', y)
  {
    forall m | m in Matches(rules, x) ensures m in Matches(rules', y) {
      MatchMembers(rules, x, m);
      MatchMembers(rules', y, m);
      var i :| 0 <= i < |rules| && Triggers(rules[i], x) && m == MatchOf(rules[i]);
      TriggersMonotone(rules[i], x, y);
      assert rules[i] in rules';
      var j :| 0 <= j < |rules'| && rules'[j] == rules[i];
    }
  }
}
