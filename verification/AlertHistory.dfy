/**
 The life of an alert over whole runs, with scheduler ticks that work from stale selections and
 analysts who resolve at any moment.
 */
module AlertHistory {
  import opened Collections
  import opened Domain
  import opened Ledger
  import opened LedgerInvariants
  import opened Protocol
  import opened ProtocolInvariants

  /** The moves an alert may make. */
  predicate Allowed(from: AlertStatus, to: AlertStatus) {
    || (from.Pending? && to.EscalatedEmail?)
    || (from.EscalatedEmail? && to.EscalatedSlack?)
    || (!from.Terminal() && to.Terminal())
  }

  /** The statuses follow one another by allowed moves. */
  predicate Chain(from: AlertStatus, to: seq<AlertStatus>) {
    && (|to| > 0 ==> Allowed(from, to[0]))
    && (forall i | 1 <= i < |to| :: Allowed(to[i - 1], to[i]))
  }

  function LastOf(from: AlertStatus, to: seq<AlertStatus>): AlertStatus {
    if |to| == 0 then from else to[|to| - 1]
  }

  /** The audit log of an alert is a chain of allowed moves from PENDING that ends in the alert's status. */
  lemma AuditReplays(c: Settings, ls: seq<Label>, a: AlertId)
    requires Run(c, ls) && a in End(c, ls).db.alerts
    ensures var db := End(c, ls).db;
            var h := History(db.audits, a);
            && Chain(Pending, h) && LastOf(Pending, h) == db.alerts[a].status
            && Distinct(h)
            && (forall i | 0 <= i < |h| && h[i].Terminal() :: i == |h| - 1)
  {
    RunInv(c, ls);
    TrailChains(c, End(c, ls).db.alerts[a]);
  }

  lemma TrailChains(c: Settings, alert: Alert)
    requires Coherent(c, alert)
    ensures var h := Trail(alert);
            && Chain(Pending, h) && LastOf(Pending, h) == alert.status
            && Distinct(h)
            && (forall i | 0 <= i < |h| && h[i].Terminal() :: i == |h| - 1)
  {
  }

  /** The event that a move to this status announces. */
  function Announcement(a: AlertId, u: UserId, st: AlertStatus): EventBody {
    if st.Terminal() then AlertResolved(a, u, st) else EscalationRequested(a, u, st)
  }

  ghost predicate OnlyEvent(db: Db, e: EventId, body: EventBody) {
    e in db.outbox && db.outbox[e].body == body && forall f | f in db.outbox && db.outbox[f].body == body :: f == e
  }

  /**
   The outbox holds one event for every audited move of an alert and none for a move that did not
   happen, one event for the alert itself, and a recalculation exactly for a false positive.
   */
  lemma EventsMatchAudit(c: Settings, ls: seq<Label>, a: AlertId, st: AlertStatus)
    requires Run(c, ls) && a in End(c, ls).db.alerts && !st.Pending?
    ensures var db := End(c, ls).db;
            var u := db.alerts[a].user;
            && (st in History(db.audits, a) <==> exists e :: OnlyEvent(db, e, Announcement(a, u, st)))
            && (st !in History(db.audits, a) ==>
                forall e | e in db.outbox :: db.outbox[e].body != Announcement(a, u, st))
            && (exists e :: OnlyEvent(db, e, AlertCreated(a, db.alerts[a].txn, u)))
            && (db.alerts[a].status == FalsePositive <==> exists e :: OnlyEvent(db, e, RiskRecalculate(u, a)))
  {
    hide OnlyEvent, OutboxAgrees, InboxAgrees, AuditAgrees, Exec, Legal;
    RunInv(c, ls);
    AnnouncedIffAudited(c, End(c, ls).db, a, st);
    EventIffDue(c, End(c, ls).db, AlertCreated(a, End(c, ls).db.alerts[a].txn, End(c, ls).db.alerts[a].user));
    EventIffDue(c, End(c, ls).db, RiskRecalculate(End(c, ls).db.alerts[a].user, a));
  }

  lemma AnnouncedIffAudited(c: Settings, db: Db, a: AlertId, st: AlertStatus)
    requires LedgerInv(c, db) && a in db.alerts && !st.Pending?
    ensures var body := Announcement(a, db.alerts[a].user, st);
            && (st in History(db.audits, a) <==> exists e :: OnlyEvent(db, e, body))
            && (st !in History(db.audits, a) ==> forall e | e in db.outbox :: db.outbox[e].body != body)
  {
    hide OutboxAgrees, InboxAgrees, OnlyEvent;
    TrailMembers(c, db.alerts[a], st);
    EventIffDue(c, db, Announcement(a, db.alerts[a].user, st));
  }

  lemma TrailMembers(c: Settings, alert: Alert, st: AlertStatus)
    requires Coherent(c, alert) && !st.Pending?
    ensures st in Trail(alert) <==>
            match st
            case EscalatedEmail => alert.emailAt.Some?
            case EscalatedSlack => alert.slackAt.Some?
            case _ => alert.status == st
  {
  }

  lemma EventIffDue(c: Settings, db: Db, body: EventBody)
    requires LedgerInv(c, db)
    ensures Due(db, body) <==> exists e :: OnlyEvent(db, e, body)
    ensures !Due(db, body) ==> forall e | e in db.outbox :: db.outbox[e].body != body
  {
    if Due(db, body) {
      assert body in Facts(db);
      var e :| e in db.outbox && db.outbox[e].body == body;
      assert OnlyEvent(db, e, body);
    } else {
      forall e | e in db.outbox ensures db.outbox[e].body != body {
        assert db.outbox[e].body in Facts(db);
      }
    }
  }

  // ---------------------------------------------------------------- over time

  lemma {:induction false} HistoryGrows(xs: seq<Audit>, ys: seq<Audit>, a: AlertId)
    requires xs <= ys
    ensures History(xs, a) <= History(ys, a)
  {
    if |xs| < |ys| {
      HistoryGrows(xs, ys[..|ys| - 1], a);
    } else {
      assert xs == ys;
    }
  }

  lemma {:induction false} RunGrows(c: Settings, ls: seq<Label>, n: nat)
    requires Run(c, ls) && n <= |ls|
    ensures Run(c, ls[..n]) && DbGrows(End(c, ls[..n]).db, End(c, ls).db)
  {
    PrefixLegal(c, START, ls, n);
    if n == |ls| {
      assert ls[..n] == ls;
    } else {
      var before := ls[..|ls| - 1];
      RunGrows(c, before, n);
      assert before[..n] == ls[..n];
      RunInv(c, before);
      StepGrows(c, End(c, before), ls[|ls| - 1]);
      DbGrowsTransitive(End(c, ls[..n]).db, End(c, before).db, End(c, ls).db);
    }
  }

  lemma DbGrowsTransitive(x: Db, y: Db, z: Db)
    requires DbGrows(x, y) && DbGrows(y, z)
    ensures DbGrows(x, z)
  {
  }

  /** History is only added to, and a resolved alert never changes again, in any of its columns. */
  lemma HistoryIsFinal(c: Settings, ls: seq<Label>, n: nat, a: AlertId)
    requires Run(c, ls) && n <= |ls|
    requires Run(c, ls[..n]) && a in End(c, ls[..n]).db.alerts
    ensures a in End(c, ls).db.alerts
    ensures History(End(c, ls[..n]).db.audits, a) <= History(End(c, ls).db.audits, a)
    ensures End(c, ls[..n]).db.alerts[a].status.Terminal() ==> End(c, ls).db.alerts[a] == End(c, ls[..n]).db.alerts[a]
  {
    var early, late := End(c, ls[..n]).db, End(c, ls).db;
    RunGrows(c, ls, n);
    HistoryGrows(early.audits, late.audits, a);
    RunInv(c, ls[..n]);
    RunInv(c, ls);
    assert AlertGrows(early.alerts[a], late.alerts[a]);
    if early.alerts[a].status.Terminal() {
      TerminalTrail(c, early.alerts[a], late.alerts[a]);
    }
  }

  lemma TerminalTrail(c: Settings, x: Alert, y: Alert)
    requires Coherent(c, x) && Coherent(c, y) && AlertGrows(x, y) && Trail(x) <= Trail(y) && x.status.Terminal()
    ensures y == x
  {
    var n := |Trail(x)|;
    assert Trail(x)[n - 1] == x.status;
    TrailChains(c, y);
    assert Trail(y)[n - 1] == x.status;
    assert |Trail(y)| == n;
  }

  /** A step that adds an alert is the detection that decided on it. */
  lemma NewAlert(c: Settings, s: State, l: Label, db': Db, a: AlertId)
    requires Commits(c, s, l, db') && a in db'.alerts && a !in s.db.alerts
    ensures l.Detect? && l.a == a && l.d.shouldAlert
    ensures var alert := db'.alerts[a];
      alert.severity == l.d.severity && alert.score == l.d.score && alert.createdAt == l.now
    ensures Reads(s, l.w) && MessageOf(s, l.w).body.TransactionCreated?
            && MessageOf(s, l.w).body.txn == db'.alerts[a].txn && MessageOf(s, l.w).body.user == db'.alerts[a].user
    ensures s.workers[l.w].Primed?
  {
    if l.CommitBatch? {
      var pub := s.publishers[l.p];
      SettleSameBusiness(c.maxRetries, s.db, pub.batch, pub.outcomes, |pub.batch|, pub.now);
    }
  }

  /** However an alert has moved since, it reports the decision of the one detection that raised it. */
  lemma {:induction false} AlertOrigin(c: Settings, ls: seq<Label>, a: AlertId) returns (i: nat)
    requires Run(c, ls) && a in End(c, ls).db.alerts
    ensures i < |ls| && ls[i].Detect? && ls[i].a == a && ls[i].d.shouldAlert
    ensures var alert := End(c, ls).db.alerts[a];
            alert.severity == ls[i].d.severity && alert.score == ls[i].d.score && alert.createdAt == ls[i].now
    ensures Run(c, ls[..i]) && Reads(End(c, ls[..i]), ls[i].w) && End(c, ls[..i]).workers[ls[i].w].Primed?
    ensures var body := MessageOf(End(c, ls[..i]), ls[i].w).body;
            && body.TransactionCreated? && body.txn == End(c, ls).db.alerts[a].txn
            && body.user == End(c, ls).db.alerts[a].user
    ensures forall j | i < j < |ls| && ls[j].Detect? && ls[j].d.shouldAlert :: ls[j].a != a
  {
    var before, l := ls[..|ls| - 1], ls[|ls| - 1];
    var s := End(c, before);
    assert Enabled(c, s, l) && End(c, ls) == Next(c, s, l);
    hide Run, End, Legal, Exec, Enabled, Next;
    if a in s.db.alerts {
      i := AlertOrigin(c, before, a);
      assert before[..i] == ls[..i];
      OldAlert(c, before, l, a);
    } else {
      i := |ls| - 1;
      NextCommits(c, s, l);
      NewAlert(c, s, l, End(c, ls).db, a);
    }
  }

  /** An alert that is there already keeps what its detection decided, and no detection can take its identifier. */
  lemma OldAlert(c: Settings, ls: seq<Label>, l: Label, a: AlertId)
    requires Run(c, ls) && Enabled(c, End(c, ls), l) && a in End(c, ls).db.alerts
    ensures a in Next(c, End(c, ls), l).db.alerts &&
      AlertGrows(End(c, ls).db.alerts[a], Next(c, End(c, ls), l).db.alerts[a])
    ensures l.Detect? ==> l.a != a
  {
    RunInv(c, ls);
    StepGrows(c, End(c, ls), l);
  }

  // ---------------------------------------------------------------- one resolution wins

  /** How many resolutions of an alert the run committed. */
  function Resolutions(ls: seq<Label>, a: AlertId): nat {
    if |ls| == 0 then 0
    else Resolutions(ls[..|ls| - 1], a) + if ls[|ls| - 1].Resolve? && ls[|ls| - 1].a == a then 1 else 0
  }

  /** One resolution wins at the most: exactly when the alert ends resolved. */
  lemma {:induction false} OneResolutionWins(c: Settings, ls: seq<Label>, a: AlertId)
    requires Run(c, ls)
    ensures Resolutions(ls, a) == if Resolved(End(c, ls), a) then 1 else 0
  {
    if |ls| > 0 {
      OneResolutionWins(c, ls[..|ls| - 1], a);
      ResolvedStep(c, End(c, ls[..|ls| - 1]), ls[|ls| - 1], a);
    }
  }

  /** The resolution that won decides the status for good. */
  lemma {:induction false} WinnerDecides(c: Settings, ls: seq<Label>, a: AlertId, i: nat)
    requires Run(c, ls) && i < |ls| && ls[i].Resolve? && ls[i].a == a
    ensures Resolved(End(c, ls), a) && End(c, ls).db.alerts[a].status == ls[i].target
  {
    var before := ls[..|ls| - 1];
    ResolvedStep(c, End(c, before), ls[|ls| - 1], a);
    if i < |before| {
      WinnerDecides(c, before, a, i);
    }
  }

  predicate Resolved(s: State, a: AlertId) {
    a in s.db.alerts && s.db.alerts[a].status.Terminal()
  }

  lemma ResolvedCommit(c: Settings, s: State, l: Label, db': Db, a: AlertId)
    requires Commits(c, s, l, db')
    ensures var s' := s.(db := db');
            if l.Resolve? && l.a == a then !Resolved(s, a) && Resolved(s', a) && db'.alerts[a].status == l.target
            else Resolved(s, a) == Resolved(s', a) && (Resolved(s, a) ==> db'.alerts[a].status == s.db.alerts[a].status)
  {
    if l.CommitBatch? {
      var pub := s.publishers[l.p];
      SettleSameBusiness(c.maxRetries, s.db, pub.batch, pub.outcomes, |pub.batch|, pub.now);
    }
  }

  /** Only a resolution makes an alert terminal, only of an open alert, and nothing takes it back. */
  lemma ResolvedStep(c: Settings, s: State, l: Label, a: AlertId)
    requires Enabled(c, s, l)
    ensures var s' := Next(c, s, l);
            if l.Resolve? && l.a == a then !Resolved(s, a) && Resolved(s', a) && s'.db.alerts[a].status == l.target
            else
              && Resolved(s, a) == Resolved(s', a)
              && (Resolved(s, a) ==> s'.db.alerts[a].status == s.db.alerts[a].status)
  {
    hide Commits;
    NextCommits(c, s, l);
    ResolvedCommit(c, s, l, Next(c, s, l).db, a);
  }

  // ---------------------------------------------------------------- timing

  /** Escalation is never early, although the updates themselves check no time. */
  lemma EscalationOnTime(c: Settings, ls: seq<Label>, a: AlertId)
    requires Run(c, ls) && a in End(c, ls).db.alerts
    ensures var alert := End(c, ls).db.alerts[a];
            && (alert.emailAt.Some? ==> alert.createdAt + c.emailDelay <= alert.emailAt.value)
            && (alert.slackAt.Some? ==>
                  alert.emailAt.Some? && alert.emailAt.value + c.slackDelay <= alert.slackAt.value)
            && (alert.resolvedAt.Some? <==> alert.status.Terminal())
  {
    RunInv(c, ls);
    assert Coherent(c, End(c, ls).db.alerts[a]);
  }

  /** A scheduler whose selection has gone stale writes nothing at all. */
  lemma LostRaceWritesNothing(c: Settings, ls: seq<Label>, k: nat, a: AlertId, e: EventId)
    requires Run(c, ls) && Enabled(c, End(c, ls), Escalate(k, a, e))
    ensures var s := End(c, ls);
            a in s.db.alerts && (s.db.alerts[a].status != StatusBefore(s.schedulers[k].tier) <==>
                                 Next(c, s, Escalate(k, a, e)).db == s.db)
  {
    RunInv(c, ls);
    var s := End(c, ls);
    assert Ripe(c, s.db, a, s.schedulers[k].tier, s.schedulers[k].now);
    if s.db.alerts[a].status == StatusBefore(s.schedulers[k].tier) {
      assert e in Next(c, s, Escalate(k, a, e)).db.outbox;
    }
  }
}
