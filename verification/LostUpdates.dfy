/**
 Runs from the clean start in which counters fall behind their tables: two consumers read the same
 profile before either of them writes it.  Every detection in them decides on its evidence.
 */
module LostUpdates {
  import opened Collections
  import opened Domain
  import opened Ledger
  import opened LedgerInvariants
  import opened Rules
  import opened Scoring
  import opened Protocol
  import opened ProtocolInvariants
  import opened Consumers
  import opened Counters
  import opened Progress

  /** A payment far above the threshold of a critical rule. */
  const ALARM := Evidence(50000.0, "USD", "US", "electronics", Activity(1, 50000.0),
                          [Rule(0, AmountThreshold, map["threshold" := Number(10000.0)], Critical, true)], 0.9,
                          Weights(0.5, 0.3, 0.2, 0.6))

  const ALARMING: Entry -> Evidence := (entry: Entry) => ALARM

  lemma AlarmAlerts(read: Option<Profile>)
    ensures DecisionOf(ALARM, read).shouldAlert
  {
    var x := ContextOf(ALARM, read);
    var rule := ALARM.rules[0];
    assert Truthy(Number(10000.0)) && Pick(rule.params, AMOUNT_KEYS) == Number(10000.0);
    assert Triggers(rule, x);
    assert Matches(ALARM.rules[..0], x) == [];
    assert Matches(ALARM.rules, x) == [MatchOf(rule)];
    assert HasCritical([MatchOf(rule)]) by {
      assert [MatchOf(rule)][0].severity.Critical?;
    }
  }

  /** Consumer w is past the inbox check with the message of event e, and nobody has processed e yet. */
  ghost predicate AtWork(s: State, w: nat, e: EventId, g: Group, body: EventBody) {
    && Reads(s, w) && MessageOf(s, w) == Message(e, body)
    && s.workers[w].group == g && (s.workers[w].Checked? || s.workers[w].Primed?) && !InInbox(s, w)
  }

  /** Everything a consumer holds, it goes on holding. */
  predicate Hold(s: State, t: State) {
    s.log <= t.log && forall w | w in s.workers :: w in t.workers && t.workers[w] == s.workers[w]
  }

  /** What bringing one more message to one more consumer leaves as it was. */
  ghost predicate Calm(s: State, t: State) {
    SameBusiness(s.db, t.db) && t.publishers == s.publishers && t.clients == s.clients && Hold(s, t)
  }

  /** A consumer takes the message in its hands up as far as the inbox check. */
  lemma TakenUp(c: Settings, x: Entry -> Evidence, s: State, w: nat, g: Group, m: nat)
    requires c.Valid() && Takes(s, w, g, m, 1) && s.log[m].Message? && (s.log[m].event, g) !in s.db.inbox
    ensures Leads(c, x, s, [CheckInbox(w)], s.(workers := s.workers[w := Checked(g, m)]))
  {
    CheckMoves(c, s, w, g, m, 1);
    OneStep(c, x, s, CheckInbox(w), s.(workers := s.workers[w := Checked(g, m)]));
  }

  /** A waiting event can be brought to a consumer of its own. */
  lemma Arrives(c: Settings, x: Entry -> Evidence, s: State, e: EventId, g: Group)
    returns (ls: seq<Label>, t: State, w: nat)
    requires c.Valid() && Inv(c, s) && s.publishers == map[]
    requires e in s.db.outbox && s.db.outbox[e].status.Waiting?
    requires StreamOf(s.db.outbox[e].body) == StreamFor(g) && (e, g) !in s.db.inbox
    ensures Leads(c, x, s, ls, t) && Inv(c, t) && Calm(s, t) && w !in s.workers
    ensures AtWork(t, w, e, g, s.db.outbox[e].body) && t.workers[w].Checked?
  {
    hide Leads, LedgerInv, WorkersOk, RowsOk, PublishersOk, SchedulersOk;
    assert Locked(s.publishers) == {};
    assert GroupOk(s.db, s.log, g, s.groups[g]);
    var u, v, deliver;
    ls, u := PublishUnlocked(c, x, s, e, 0);
    var m :| |s.log| <= m < |u.log| && u.log[m] == Message(e, s.db.outbox[e].body);
    var fresh' := FreshKey(u.workers);
    deliver, v := DeliverUpTo(c, x, u, g, m, fresh');
    w :| w !in u.workers && Takes(v, w, g, m, 1);
    TakenUp(c, x, v, w, g, m);
    t := v.(workers := v.workers[w := Checked(g, m)]);
    Then(c, x, s, ls, u, deliver, v);
    Then(c, x, s, ls + deliver, v, [CheckInbox(w)], t);
    ls := ls + deliver + [CheckInbox(w)];
    LeadsKeepInv(c, x, s, ls, t);
  }

  lemma NotProcessed(c: Settings, s: State, e: EventId, g: Group)
    requires Inv(c, s) && e !in s.db.outbox
    ensures (e, g) !in s.db.inbox
  {
  }

  /** In t, as compared to s, consumer w has joined with the event of a new transaction under the key. */
  ghost predicate Joined(s: State, t: State, key: string, w: nat, e: EventId, body: EventBody) {
    && t.publishers == map[] && t.clients == map[] && Hold(s, t) && w !in s.workers
    && t.db.inbox == s.db.inbox && t.db.alerts == s.db.alerts && t.db.profiles == s.db.profiles
    && (forall k | k != key && !KeyKnown(s.db.txns, k) :: !KeyKnown(t.db.txns, k))
    && s.db.outbox.Keys + {e} == t.db.outbox.Keys && e !in s.db.outbox
    && body.TransactionCreated? && body.user == 0 && AtWork(t, w, e, ProcessorGroup, body)
    && w in t.workers && t.workers[w].Checked?
  }

  /** One more transaction of user 0 is submitted, and its event brought to a consumer of its own. */
  lemma OneMoreTransaction(c: Settings, x: Entry -> Evidence, s: State, key: string)
    returns (ls: seq<Label>, t: State, w: nat, e: EventId, body: EventBody)
    requires c.Valid() && Inv(c, s) && s.publishers == map[] && s.clients == map[] && !KeyKnown(s.db.txns, key)
    ensures Leads(c, x, s, ls, t) && Inv(c, t) && Joined(s, t, key, w, e, body)
  {
    hide Leads, Joined, KeyKnown, InsertTransaction;
    var u, id, arrive;
    u, id, e := OneMoreSubmission(c, x, s, key);
    body := TransactionCreated(id, 0, 0);
    hide Inv, AtWork, Calm;
    ls := [CheckKey(0, key), Insert(0, id, e, 0, 0)];
    arrive, t, w := Arrives(c, x, u, e, ProcessorGroup);
    Then(c, x, s, ls, u, arrive, t);
    ls := ls + arrive;
    JoinedBy(s, u, t, key, w, id, e);
  }

  lemma OneMoreSubmission(c: Settings, x: Entry -> Evidence, s: State, key: string)
    returns (u: State, id: TxnId, e: EventId)
    requires c.Valid() && Inv(c, s) && s.clients == map[] && !KeyKnown(s.db.txns, key)
    ensures u == s.(db := InsertTransaction(s.db, id, e, key, 0, 0)) && Inv(c, u) && e !in s.db.outbox
    ensures Leads(c, x, s, [CheckKey(0, key), Insert(0, id, e, 0, 0)], u)
    ensures e in u.db.outbox && u.db.outbox[e] == NewRow(TransactionCreated(id, 0, 0), 0)
    ensures (e, ProcessorGroup) !in u.db.inbox
  {
    hide Leads, KeyKnown;
    id := FreshKey(s.db.txns);
    e := FreshKey(s.db.outbox);
    NotProcessed(c, s, e, ProcessorGroup);
    Submitted(c, x, s, key, id, e);
    hide Inv, InsertTransaction;
    u := s.(db := InsertTransaction(s.db, id, e, key, 0, 0));
    LeadsKeepInv(c, x, s, [CheckKey(0, key), Insert(0, id, e, 0, 0)], u);
    RowSubmitted(s.db, id, e, key);
  }

  lemma RowSubmitted(db: Db, id: TxnId, e: EventId, key: string)
    ensures var after := InsertTransaction(db, id, e, key, 0, 0);
            && after.inbox == db.inbox && e in after.outbox
            && after.outbox[e] == NewRow(TransactionCreated(id, 0, 0), 0)
  {
  }

  lemma JoinedBy(s: State, u: State, t: State, key: string, w: nat, id: TxnId, e: EventId)
    requires u == s.(db := InsertTransaction(s.db, id, e, key, 0, 0)) && s.publishers == map[] && s.clients == map[]
    requires e !in s.db.outbox && w !in u.workers && Calm(u, t)
    requires AtWork(t, w, e, ProcessorGroup, TransactionCreated(id, 0, 0)) && w in t.workers && t.workers[w].Checked?
    ensures Joined(s, t, key, w, e, TransactionCreated(id, 0, 0))
  {
    assert forall k | k != key && !KeyKnown(s.db.txns, k) :: !KeyKnown(u.db.txns, k);
    hide KeyKnown, AtWork;
  }

  lemma Submitted(c: Settings, x: Entry -> Evidence, s: State, key: string, id: TxnId, e: EventId)
    requires s.clients == map[] && !KeyKnown(s.db.txns, key) && id !in s.db.txns && e !in s.db.outbox
    ensures Leads(c, x, s, [CheckKey(0, key), Insert(0, id, e, 0, 0)],
                  s.(db := InsertTransaction(s.db, id, e, key, 0, 0)))
  {
    var u := s.(clients := map[0 := key]);
    var t := s.(db := InsertTransaction(s.db, id, e, key, 0, 0));
    assert Without(u.clients, 0) == map[];
    OneStep(c, x, s, CheckKey(0, key), u);
    OneStep(c, x, u, Insert(0, id, e, 0, 0), t);
    hide Leads, Enabled, Next;
    Then(c, x, s, [CheckKey(0, key)], u, [Insert(0, id, e, 0, 0)], t);
    assert [CheckKey(0, key)] + [Insert(0, id, e, 0, 0)] == [CheckKey(0, key), Insert(0, id, e, 0, 0)];
  }

  // ---------------------------------------------------------------- a lost alert

  /** The consumer has read the profile as it is, twice if it is to detect, and is about to commit. */
  function AboutTo(s: State, w: nat, g: Group, body: EventBody): State
    requires w in s.workers
  {
    var profile := Lookup(s.db.profiles, UserOf(body));
    s.(workers := s.workers[w := Primed(g, s.workers[w].message, profile, profile)])
  }

  lemma ReadsProfile(c: Settings, x: Entry -> Evidence, s: State, w: nat, e: EventId, g: Group, body: EventBody)
    returns (ls: seq<Label>)
    requires AtWork(s, w, e, g, body) && s.workers[w].Checked?
    ensures Leads(c, x, s, ls, AboutTo(s, w, g, body)) && AtWork(AboutTo(s, w, g, body), w, e, g, body)
  {
    var u := AfterReading(s, w);
    ReadStep(c, x, s, w);
    OneStep(c, x, s, ReadProfile(w), u);
    ls := [ReadProfile(w)];
    if g.ProcessorGroup? {
      ReadStep(c, x, u, w);
      OneStep(c, x, u, ReadProfile(w), AfterReading(u, w));
      hide Leads, Enabled, Next;
      Then(c, x, s, [ReadProfile(w)], u, [ReadProfile(w)], AfterReading(u, w));
      ls := [ReadProfile(w)] + [ReadProfile(w)];
      assert AfterReading(u, w) == AboutTo(s, w, g, body);
    }
  }

  /** In t, as compared to s, consumer w has settled event e and raised alert a. */
  ghost predicate RaisedBy(s: State, t: State, w: nat, e: EventId, body: EventBody, a: AlertId)
    requires w in s.workers && s.workers[w].Primed? && body.TransactionCreated?
  {
    && t.log == s.log && t.publishers == s.publishers && t.clients == s.clients
    && t.workers == s.workers[w := Settled(ProcessorGroup, s.workers[w].message)]
    && a !in s.db.alerts && t.db.alerts.Keys == s.db.alerts.Keys + {a}
    && t.db.alerts[a].status.Pending? && t.db.alerts[a].user == body.user
    && (forall b | b in s.db.alerts :: t.db.alerts[b] == s.db.alerts[b])
    && t.db.profiles == CountAlert(s.db.profiles, body.user, s.workers[w].read)
    && t.db.inbox == s.db.inbox + {(e, ProcessorGroup)}
  }

  /** Consumer w, which has read the profile, commits its detection and raises an alert. */
  lemma Detected(c: Settings, s: State, w: nat, e: EventId, body: EventBody)
    returns (ls: seq<Label>, t: State, a: AlertId)
    requires c.Valid() && Inv(c, s) && AtWork(s, w, e, ProcessorGroup, body) && body.TransactionCreated?
    requires s.workers[w].Primed? && (s.workers[w].read.None? ==> body.user !in s.db.profiles)
    ensures Leads(c, ALARMING, s, ls, t) && Inv(c, t) && RaisedBy(s, t, w, e, body, a)
  {
    hide Inv, DecisionOf, Leads;
    a := FreshKey(s.db.alerts);
    var e2 := FreshKey(s.db.outbox);
    AlarmAlerts(s.workers[w].snapshot);
    var l := Detect(w, DecisionOf(ALARM, s.workers[w].snapshot), a, e2, 0);
    t := Next(c, s, l);
    OneStep(c, ALARMING, s, l, t);
    ls := [l];
    StepKeepsInv(c, s, l);
  }

  lemma StaysAtWork(s: State, t: State, w: nat, e: EventId, g: Group, body: EventBody)
    requires AtWork(s, w, e, g, body) && s.log <= t.log && w in t.workers && t.workers[w] == s.workers[w]
    requires (e, g) !in t.db.inbox
    ensures AtWork(t, w, e, g, body)
  {
  }

  lemma StillAtWork(s: State, t: State, w: nat, e: EventId, g: Group, body: EventBody)
    requires AtWork(s, w, e, g, body) && s.log <= t.log && w in t.workers && t.workers[w] == s.workers[w]
    requires t.db.inbox == s.db.inbox
    ensures AtWork(t, w, e, g, body)
  {
  }

  /** n consumers are at work on a transaction of user 0 each, and nothing has been read or written yet. */
  ghost predicate AllAtWork(s: State, n: nat, ws: seq<nat>, e: seq<EventId>, b: seq<EventBody>) {
    && |ws| == |e| == |b| == n && Distinct(ws) && Distinct(e)
    && (forall i | 0 <= i < n :: e[i] in s.db.outbox && ws[i] in s.workers)
    && s.db.alerts == map[] && s.db.profiles == map[] && s.publishers == map[] && s.clients == map[]
    && (forall i | 0 <= i < n ::
          && b[i].TransactionCreated? && b[i].user == 0 && AtWork(s, ws[i], e[i], ProcessorGroup, b[i])
          && s.workers[ws[i]].Checked?)
    && (forall key | |key| >= n :: !KeyKnown(s.db.txns, key))
  }

  lemma {:induction false} ManyAtWork(c: Settings, n: nat)
    returns (ls: seq<Label>, t: State, ws: seq<nat>, e: seq<EventId>, b: seq<EventBody>)
    requires c.Valid()
    ensures Leads(c, ALARMING, START, ls, t) && Inv(c, t) && AllAtWork(t, n, ws, e, b)
  {
    hide Leads, Inv, AllAtWork;
    if n == 0 {
      StartInv(c);
      NoStep(c, ALARMING, START);
      NobodyAtWork();
      ls, t, ws, e, b := [], START, [], [], [];
    } else {
      var s, more, w, e', b';
      ls, s, ws, e, b := ManyAtWork(c, n - 1);
      more, t, w, e', b' := AnotherAtWork(c, s, n - 1, ws, e, b);
      Then(c, ALARMING, START, ls, s, more, t);
      ls, ws, e, b := ls + more, ws + [w], e + [e'], b + [b'];
    }
  }

  lemma NobodyAtWork()
    ensures AllAtWork(START, 0, [], [], [])
  {
  }

  lemma AnotherAtWork(c: Settings, s: State, n: nat, ws: seq<nat>, e: seq<EventId>, b: seq<EventBody>)
    returns (ls: seq<Label>, t: State, w: nat, e': EventId, b': EventBody)
    requires c.Valid() && Inv(c, s) && AllAtWork(s, n, ws, e, b)
    ensures Leads(c, ALARMING, s, ls, t) && Inv(c, t) && AllAtWork(t, n + 1, ws + [w], e + [e'], b + [b'])
  {
    hide Leads, Inv, Joined, AllAtWork, KeyKnown;
    NoneBusy(s, n, ws, e, b);
    ls, t, w, e', b' := OneMoreTransaction(c, ALARMING, s, NewKey(n));
    OneMoreAtWork(s, t, n, ws, e, b, w, e', b');
  }

  lemma NoneBusy(s: State, n: nat, ws: seq<nat>, e: seq<EventId>, b: seq<EventBody>)
    requires AllAtWork(s, n, ws, e, b)
    ensures s.publishers == map[] && s.clients == map[] && !KeyKnown(s.db.txns, NewKey(n))
  {
  }

  function NewKey(n: nat): (key: string)
    ensures |key| == n
  {
    seq(n, i => 'k')
  }

  lemma OneMoreAtWork(s: State, t: State, n: nat, ws: seq<nat>, e: seq<EventId>, b: seq<EventBody>, w: nat, e': EventId,
      b': EventBody)
    requires AllAtWork(s, n, ws, e, b) && Joined(s, t, NewKey(n), w, e', b')
    ensures AllAtWork(t, n + 1, ws + [w], e + [e'], b + [b'])
  {
    hide AtWork, KeyKnown;
    forall i | 0 <= i < n
      ensures AtWork(t, ws[i], e[i], ProcessorGroup, b[i]) && t.workers[ws[i]] == s.workers[ws[i]]
    {
      StillAtWork(s, t, ws[i], e[i], ProcessorGroup, b[i]);
    }
  }

  /** Three consumers, each with its event. */
  datatype Team = Team(w: nat, e: EventId, b: EventBody, w1: nat, e1: EventId, b1: EventBody,
                       w2: nat, e2: EventId, b2: EventBody)

  ghost predicate Ready(s: State, w: nat, e: EventId, b: EventBody) {
    b.TransactionCreated? && b.user == 0 && AtWork(s, w, e, ProcessorGroup, b) && s.workers[w].Checked?
  }

  ghost predicate ReadyWith(s: State, w: nat, e: EventId, b: EventBody, read: Option<Profile>) {
    b.TransactionCreated? && b.user == 0 && AtWork(s, w, e, ProcessorGroup, b)
    && s.workers[w].Primed? && s.workers[w].read == read
  }

  predicate Apart(t: Team) {
    t.w != t.w1 && t.w != t.w2 && t.w1 != t.w2 && t.e != t.e1 && t.e != t.e2 && t.e1 != t.e2
  }

  /** Nobody has read the profile yet, and there is none. */
  ghost predicate AtStart(s: State, team: Team) {
    && Apart(team) && s.db.alerts == map[] && s.db.profiles == map[] && s.publishers == map[]
    && Ready(s, team.w, team.e, team.b) && Ready(s, team.w1, team.e1, team.b1) && Ready(s, team.w2, team.e2, team.b2)
  }

  /** The first of them has raised its alert, and created the profile. */
  ghost predicate OneRaised(s: State, a: AlertId) {
    && s.publishers == map[] && s.db.alerts.Keys == {a} && s.db.alerts[a].status.Pending? && s.db.alerts[a].user == 0
    && s.db.profiles == map[0 := Profile(1, 0, 0)]
  }

  ghost predicate AfterFirst(s: State, team: Team, a: AlertId) {
    && Apart(team) && OneRaised(s, a)
    && Ready(s, team.w1, team.e1, team.b1) && Ready(s, team.w2, team.e2, team.b2)
  }

  /** The other two have read the profile, and neither has written it. */
  ghost predicate BothHaveRead(s: State, team: Team, a: AlertId) {
    && Apart(team) && OneRaised(s, a)
    && ReadyWith(s, team.w1, team.e1, team.b1, Some(Profile(1, 0, 0)))
    && ReadyWith(s, team.w2, team.e2, team.b2, Some(Profile(1, 0, 0)))
  }

  lemma ThreeAtWork(c: Settings) returns (ls: seq<Label>, s: State, team: Team)
    requires c.Valid()
    ensures Leads(c, ALARMING, START, ls, s) && Inv(c, s) && AtStart(s, team)
  {
    var ws, e, b;
    ls, s, ws, e, b := ManyAtWork(c, 3);
    team := Team(ws[0], e[0], b[0], ws[1], e[1], b[1], ws[2], e[2], b[2]);
  }

  /** A consumer that is ready reads the profile; the others are as they were. */
  lemma GetsReady(c: Settings, s: State, w: nat, e: EventId, b: EventBody) returns (ls: seq<Label>, t: State)
    requires c.Valid() && Inv(c, s) && Ready(s, w, e, b)
    ensures Leads(c, ALARMING, s, ls, t) && Inv(c, t) && HasRead(s, t, w, e, b)
  {
    hide Leads, Inv;
    ls := ReadsProfile(c, ALARMING, s, w, e, ProcessorGroup, b);
    t := AboutTo(s, w, ProcessorGroup, b);
    LeadsKeepInv(c, ALARMING, s, ls, t);
  }

  ghost predicate HasRead(s: State, t: State, w: nat, e: EventId, b: EventBody) {
    && t == s.(workers := t.workers) && ReadyWith(t, w, e, b, Lookup(s.db.profiles, 0))
    && (forall v | v in s.workers && v != w :: v in t.workers && t.workers[v] == s.workers[v])
  }

  /** The first of them finds no profile, and creates it with its alert. */
  lemma FirstAlert(c: Settings) returns (ls: seq<Label>, s: State, team: Team, a: AlertId)
    requires c.Valid()
    ensures Leads(c, ALARMING, START, ls, s) && Inv(c, s) && AfterFirst(s, team, a)
  {
    var r, u, more, last;
    ls, r, team := ThreeAtWork(c);
    hide Leads, Inv, HasRead, RaisedBy;
    more, u := GetsReady(c, r, team.w, team.e, team.b);
    MayDetect(r, u, team);
    last, s, a := Detected(c, u, team.w, team.e, team.b);
    hide AtStart, AfterFirst, AtWork;
    FirstHasRaised(r, u, s, team, a);
    Then(c, ALARMING, START, ls, r, more, u);
    Then(c, ALARMING, START, ls + more, u, last, s);
    ls := ls + more + last;
  }

  lemma MayDetect(r: State, u: State, team: Team)
    requires AtStart(r, team) && HasRead(r, u, team.w, team.e, team.b)
    ensures AtWork(u, team.w, team.e, ProcessorGroup, team.b) && team.b.TransactionCreated? && team.b.user == 0
    ensures u.workers[team.w].Primed? && u.db.profiles == map[]
  {
  }

  lemma FirstHasRaised(r: State, u: State, s: State, team: Team, a: AlertId)
    requires AtStart(r, team) && HasRead(r, u, team.w, team.e, team.b) && team.b.TransactionCreated?
    requires team.w in u.workers && u.workers[team.w].Primed? && RaisedBy(u, s, team.w, team.e, team.b, a)
    ensures AfterFirst(s, team, a)
  {
    assert OneRaised(s, a);
    StaysAtWork(r, s, team.w1, team.e1, ProcessorGroup, team.b1);
    StaysAtWork(r, s, team.w2, team.e2, ProcessorGroup, team.b2);
  }

  /** The other two read the profile before either writes it. */
  lemma BothRead(c: Settings) returns (ls: seq<Label>, s: State, team: Team, a: AlertId)
    requires c.Valid()
    ensures Leads(c, ALARMING, START, ls, s) && Inv(c, s) && BothHaveRead(s, team, a)
  {
    var r, u, more, last;
    ls, r, team, a := FirstAlert(c);
    hide Leads, Inv, HasRead, BothHaveRead;
    more, u := GetsReady(c, r, team.w1, team.e1, team.b1);
    NextReady(r, u, team, a);
    last, s := GetsReady(c, u, team.w2, team.e2, team.b2);
    BothReady(r, u, s, team, a);
    Then(c, ALARMING, START, ls, r, more, u);
    Then(c, ALARMING, START, ls + more, u, last, s);
    ls := ls + more + last;
  }

  lemma NextReady(r: State, u: State, team: Team, a: AlertId)
    requires AfterFirst(r, team, a) && HasRead(r, u, team.w1, team.e1, team.b1)
    ensures Ready(u, team.w2, team.e2, team.b2)
  {
    StillAtWork(r, u, team.w2, team.e2, ProcessorGroup, team.b2);
  }

  lemma BothReady(r: State, u: State, s: State, team: Team, a: AlertId)
    requires AfterFirst(r, team, a)
    requires HasRead(r, u, team.w1, team.e1, team.b1) && HasRead(u, s, team.w2, team.e2, team.b2)
    ensures BothHaveRead(s, team, a)
  {
    StillAtWork(u, s, team.w1, team.e1, ProcessorGroup, team.b1);
  }

  /** Three alerts of user 0, of which the profile counts two. */
  ghost predicate TwoCounted(s: State, a: AlertId, a1: AlertId, a2: AlertId) {
    && s.publishers == map[] && a != a1 && a != a2 && a1 != a2 && s.db.alerts.Keys == {a, a1, a2}
    && (forall b | b in s.db.alerts :: s.db.alerts[b].status.Pending? && s.db.alerts[b].user == 0)
    && 0 in s.db.profiles && s.db.profiles[0].total == 2
  }

  lemma ThreeAlerts(c: Settings) returns (ls: seq<Label>, s: State, a: AlertId, a1: AlertId, a2: AlertId)
    requires c.Valid()
    ensures Leads(c, ALARMING, START, ls, s) && Inv(c, s) && TwoCounted(s, a, a1, a2)
  {
    var r, u, more, last, team;
    ls, r, team, a := BothRead(c);
    hide Leads, Inv, RaisedBy, AtWork, TwoCounted;
    more, u, a1 := Detected(c, r, team.w1, team.e1, team.b1);
    OtherStillReady(r, u, team, a, a1);
    last, s, a2 := Detected(c, u, team.w2, team.e2, team.b2);
    ThirdHasRaised(r, u, s, team, a, a1, a2);
    Then(c, ALARMING, START, ls, r, more, u);
    Then(c, ALARMING, START, ls + more, u, last, s);
    ls := ls + more + last;
  }

  lemma OtherStillReady(r: State, u: State, team: Team, a: AlertId, a1: AlertId)
    requires BothHaveRead(r, team, a) && RaisedBy(r, u, team.w1, team.e1, team.b1, a1)
    ensures ReadyWith(u, team.w2, team.e2, team.b2, Some(Profile(1, 0, 0)))
  {
    StaysAtWork(r, u, team.w2, team.e2, ProcessorGroup, team.b2);
  }

  lemma ThirdHasRaised(r: State, u: State, s: State, team: Team, a: AlertId, a1: AlertId, a2: AlertId)
    requires BothHaveRead(r, team, a) && RaisedBy(r, u, team.w1, team.e1, team.b1, a1)
    requires ReadyWith(u, team.w2, team.e2, team.b2, Some(Profile(1, 0, 0)))
    requires RaisedBy(u, s, team.w2, team.e2, team.b2, a2)
    ensures TwoCounted(s, a, a1, a2)
  {
    hide AtWork;
  }

  /** A run from the clean start, decided on evidence that alerts, in which three alerts are raised and two counted. */
  lemma LostAlert(c: Settings) returns (ls: seq<Label>)
    requires c.Valid()
    ensures Run(c, ls) && Decided(c, ALARMING, START, ls)
    ensures Total(End(c, ls).db, 0) == 2 && |AlertsOf(End(c, ls).db, 0)| == 3
  {
    var s, a, a1, a2;
    ls, s, a, a1, a2 := ThreeAlerts(c);
    hide Legal, Exec, Decided, Inv;
    CountThree(s, a, a1, a2);
  }

  lemma CountThree(s: State, a: AlertId, a1: AlertId, a2: AlertId)
    requires TwoCounted(s, a, a1, a2)
    ensures Total(s.db, 0) == 2 && |AlertsOf(s.db, 0)| == 3
  {
    assert AlertsOf(s.db, 0) == {a, a1, a2};
  }

  // ---------------------------------------------------------------- a lost compensation

  /** In t, as compared to s, consumer w has joined with the recalculation for alert a. */
  ghost predicate MarkedBy(s: State, t: State, a: AlertId, w: nat, e: EventId) {
    && t.publishers == map[] && Hold(s, t) && w !in s.workers
    && t.db.inbox == s.db.inbox && t.db.profiles == s.db.profiles && s.db.outbox.Keys <= t.db.outbox.Keys
    && (forall b | b in s.db.alerts && b != a :: b in t.db.alerts && t.db.alerts[b] == s.db.alerts[b])
    && e !in s.db.outbox && e in t.db.outbox && AtWork(t, w, e, CompensationGroup, RiskRecalculate(0, a))
    && t.workers[w].Checked?
  }

  /** An alert of user 0 is marked false, and the recalculation brought to a consumer of its own. */
  lemma OneMoreFalseAlert(c: Settings, s: State, a: AlertId)
    returns (ls: seq<Label>, t: State, w: nat, e: EventId)
    requires c.Valid() && Inv(c, s) && s.publishers == map[] && Open(s.db, a) && s.db.alerts[a].user == 0
    ensures Leads(c, ALARMING, s, ls, t) && Inv(c, t)
    ensures MarkedBy(s, t, a, w, e)
  {
    hide Leads, Inv;
    var e1 := FreshKey(s.db.outbox);
    e := e1 + 1;
    assert e !in s.db.outbox;
    var l := Resolve(a, FalsePositive, e1, e, 0);
    var u := Next(c, s, l);
    MarkedFalse(c, s, a, e1, e);
    hide CommitResolution, Open, AtWork, Enabled, Next;
    StepKeepsInv(c, s, l);
    NotProcessed(c, s, e, CompensationGroup);
    var arrive;
    arrive, t, w := Arrives(c, ALARMING, u, e, CompensationGroup);
    Then(c, ALARMING, s, [l], u, arrive, t);
    ls := [l] + arrive;
  }

  lemma MarkedFalse(c: Settings, s: State, a: AlertId, e1: EventId, e: EventId)
    requires Open(s.db, a) && s.db.alerts[a].user == 0
    requires e1 !in s.db.outbox && e !in s.db.outbox && e1 != e
    ensures var l := Resolve(a, FalsePositive, e1, e, 0);
            && Enabled(c, s, l) && Leads(c, ALARMING, s, [l], Next(c, s, l))
            && var t := Next(c, s, l);
               && t == s.(db := t.db) && t.db.inbox == s.db.inbox && t.db.profiles == s.db.profiles
               && (forall b | b in s.db.alerts && b != a :: b in t.db.alerts && t.db.alerts[b] == s.db.alerts[b])
               && s.db.outbox.Keys <= t.db.outbox.Keys && e in t.db.outbox
               && t.db.outbox[e] == NewRow(RiskRecalculate(0, a), 0)
  {
    var l := Resolve(a, FalsePositive, e1, e, 0);
    OneStep(c, ALARMING, s, l, Next(c, s, l));
  }

  /** A consumer that has read the profile commits its compensation. */
  lemma Compensated(c: Settings, s: State, w: nat, e: EventId, a: AlertId)
    requires c.Valid() && Inv(c, s) && AtWork(s, w, e, CompensationGroup, RiskRecalculate(0, a))
    requires s.workers[w].Primed? && s.workers[w].read.Some?
    ensures Enabled(c, s, Compensate(w)) && Leads(c, ALARMING, s, [Compensate(w)], Next(c, s, Compensate(w)))
    ensures var t := Next(c, s, Compensate(w));
            && Inv(c, t) && t.log == s.log && t.db.inbox == s.db.inbox + {(e, CompensationGroup)}
            && t.workers == s.workers[w := Settled(CompensationGroup, s.workers[w].message)]
  {
    hide Inv;
    OneStep(c, ALARMING, s, Compensate(w), Next(c, s, Compensate(w)));
    StepKeepsInv(c, s, Compensate(w));
  }

  /** It counts its false positive on top of what it has read. */
  lemma CompensationCounted(c: Settings, s: State, w: nat, e: EventId, a: AlertId)
    requires Inv(c, s) && CountersOk(s, 0) && AtWork(s, w, e, CompensationGroup, RiskRecalculate(0, a))
    requires s.workers[w].Primed? && s.workers[w].read.Some? && Enabled(c, s, Compensate(w)) && 0 in s.db.profiles
    ensures var t := Next(c, s, Compensate(w));
            && FalsePositives(t.db, 0) == s.workers[w].read.value.falsePositives + 1 && 0 in t.db.profiles
            && |CompensationsOf(t.db, 0)| == |CompensationsOf(s.db, 0)| + 1
  {
    hide CountersOk, CompensationsOf, LedgerInv, GroupsOk, WorkersOk, RowsOk, PublishersOk, SchedulersOk;
    InboxAgreesHere(c, s);
    ProfileCompensated(c, s, Compensate(w), 0);
    SetsGrow(c, s, Compensate(w), 0);
  }

  lemma InboxAgreesHere(c: Settings, s: State)
    requires Inv(c, s)
    ensures InboxAgrees(s.db)
  {
  }

  /** Two consumers at work on compensations of user 0, of whom both, the second or neither has read the profile. */
  ghost predicate TwoFalse(s: State, w: nat, e: EventId, a: AlertId, w': nat, e': EventId, a': AlertId) {
    && e != e' && w != w' && 0 in s.db.profiles
    && AtWork(s, w, e, CompensationGroup, RiskRecalculate(0, a))
    && AtWork(s, w', e', CompensationGroup, RiskRecalculate(0, a'))
  }

  ghost predicate HasProfile(s: State, w: nat) {
    w in s.workers && s.workers[w].Primed? && s.workers[w].read == Lookup(s.db.profiles, 0)
  }

  lemma TwoMarkedFalse(c: Settings)
    returns (ls: seq<Label>, s: State, w: nat, e: EventId, a: AlertId, w': nat, e': EventId, a': AlertId)
    requires c.Valid()
    ensures Leads(c, ALARMING, START, ls, s) && Inv(c, s) && TwoFalse(s, w, e, a, w', e', a')
    ensures s.workers[w].Checked? && s.workers[w'].Checked?
  {
    var r, u, a'', more, more';
    ls, r, a, a', a'' := ThreeAlerts(c);
    hide Leads, Inv;
    hide AtWork, TwoCounted, MarkedBy, TwoFalse;
    StillOpen(r, r, a, a', a'', a, 0, 0);
    more, u, w, e := OneMoreFalseAlert(c, r, a);
    StillOpen(r, u, a, a', a'', a', w, e);
    more', s, w', e' := OneMoreFalseAlert(c, u, a');
    BothMarked(r, u, s, a, a', a'', w, e, w', e');
    Then(c, ALARMING, START, ls, r, more, u);
    Then(c, ALARMING, START, ls + more, u, more', s);
    ls := ls + more + more';
  }

  lemma StillOpen(r: State, u: State, a: AlertId, a': AlertId, a'': AlertId, b: AlertId, w: nat, e: EventId)
    requires TwoCounted(r, a, a', a'') && ((u == r && b == a) || (MarkedBy(r, u, a, w, e) && b == a'))
    ensures u.publishers == map[] && Open(u.db, b) && u.db.alerts[b].user == 0
  {
    hide AtWork;
  }

  lemma BothMarked(r: State, u: State, s: State, a: AlertId, a': AlertId, a'': AlertId, w: nat, e: EventId, w': nat,
      e': EventId)
    requires TwoCounted(r, a, a', a'') && MarkedBy(r, u, a, w, e) && MarkedBy(u, s, a', w', e')
    ensures TwoFalse(s, w, e, a, w', e', a') && s.workers[w].Checked? && s.workers[w'].Checked?
  {
    StillAtWork(u, s, w, e, CompensationGroup, RiskRecalculate(0, a));
  }

  /** Both read the profile before either writes it. */
  lemma BothCompensating(c: Settings)
    returns (ls: seq<Label>, s: State, w: nat, e: EventId, a: AlertId, w': nat, e': EventId, a': AlertId)
    requires c.Valid()
    ensures Leads(c, ALARMING, START, ls, s) && Inv(c, s) && TwoFalse(s, w, e, a, w', e', a')
    ensures HasProfile(s, w) && HasProfile(s, w')
  {
    var r, u, first, second;
    ls, r, w, e, a, w', e', a' := TwoMarkedFalse(c);
    hide Leads, Inv;
    first := ReadsProfile(c, ALARMING, r, w, e, CompensationGroup, RiskRecalculate(0, a));
    u := AboutTo(r, w, CompensationGroup, RiskRecalculate(0, a));
    StillAtWork(r, u, w', e', CompensationGroup, RiskRecalculate(0, a'));
    second := ReadsProfile(c, ALARMING, u, w', e', CompensationGroup, RiskRecalculate(0, a'));
    s := AboutTo(u, w', CompensationGroup, RiskRecalculate(0, a'));
    StillAtWork(u, s, w, e, CompensationGroup, RiskRecalculate(0, a));
    hide AtWork;
    LeadsKeepInv(c, ALARMING, r, first, u);
    LeadsKeepInv(c, ALARMING, u, second, s);
    Then(c, ALARMING, START, ls, r, first, u);
    Then(c, ALARMING, START, ls + first, u, second, s);
    ls := ls + first + second;
  }

  /** The first commits, and the second counts on top of what it has read nevertheless. */
  lemma OneCounted(c: Settings, s: State, w: nat, e: EventId, a: AlertId, w': nat, e': EventId, a': AlertId)
    returns (ls: seq<Label>, t: State)
    requires c.Valid() && Inv(c, s) && CountersOk(s, 0) && TwoFalse(s, w, e, a, w', e', a')
    requires HasProfile(s, w) && HasProfile(s, w')
    ensures Leads(c, ALARMING, s, ls, t) && FalsePositives(t.db, 0) == FalsePositives(s.db, 0) + 1
    ensures |CompensationsOf(t.db, 0)| == |CompensationsOf(s.db, 0)| + 2
  {
    hide Inv, Leads, CountersOk, CompensationsOf, Enabled, Next;
    Compensated(c, s, w, e, a);
    CompensationCounted(c, s, w, e, a);
    var u := Next(c, s, Compensate(w));
    StaysAtWork(s, u, w', e', CompensationGroup, RiskRecalculate(0, a'));
    CountersStay(c, s, Compensate(w), 0);
    Compensated(c, u, w', e', a');
    CompensationCounted(c, u, w', e', a');
    t := Next(c, u, Compensate(w'));
    Then(c, ALARMING, s, [Compensate(w)], u, [Compensate(w')], t);
    ls := [Compensate(w)] + [Compensate(w')];
  }

  /** A run from the clean start in which two compensations of one user are processed and one is counted. */
  lemma LostCompensation(c: Settings) returns (ls: seq<Label>)
    requires c.Valid()
    ensures Run(c, ls) && Decided(c, ALARMING, START, ls)
    ensures FalsePositives(End(c, ls).db, 0) < |CompensationsOf(End(c, ls).db, 0)|
  {
    var s, w, e, a, w', e', a', more, t;
    ls, s, w, e, a, w', e', a' := BothCompensating(c);
    RunCounters(c, ls, 0);
    NeverTooMuch(c, ls, 0);
    hide Inv, Legal, Exec, Decided, CountersOk, TwoFalse, HasProfile, CompensationsOf, FalsePositives;
    more, t := OneCounted(c, s, w, e, a, w', e', a');
    Then(c, ALARMING, START, ls, s, more, t);
    ls := ls + more;
  }
}
