/**
 What every committed database transaction keeps: the outbox says exactly what the tables say,
 the audit trail replays to the alert, and a transaction is processed exactly when its event is
 in the inbox.
 */
module LedgerInvariants {
  import opened Domain
  import opened Ledger

  // ---------------------------------------------------------------- the outbox and the tables

  /** The fact about the tables that one event reports. */
  predicate Due(db: Db, b: EventBody) {
    match b
    case TransactionCreated(t, u, at) => t in db.txns && db.txns[t].user == u && db.txns[t].createdAt == at
    case AlertCreated(a, t, u) => a in db.alerts && db.alerts[a].txn == t && db.alerts[a].user == u
    case AlertResolved(a, u, st) =>
      a in db.alerts && db.alerts[a].user == u && db.alerts[a].status == st && st.Terminal()
    case EscalationRequested(a, u, st) =>
      && a in db.alerts && db.alerts[a].user == u
      && (st.EscalatedEmail? || st.EscalatedSlack?)
      && (if st.EscalatedEmail? then db.alerts[a].emailAt.Some? else db.alerts[a].slackAt.Some?)
    case RiskRecalculate(u, a) => a in db.alerts && db.alerts[a].user == u && db.alerts[a].status == FalsePositive
  }

  ghost function Facts(db: Db): iset<EventBody> {
    iset b | Due(db, b)
  }

  /** The outbox reports exactly these facts, each of them once. */
  ghost predicate Reports(outbox: map<EventId, OutboxRow>, facts: iset<EventBody>) {
    && (forall e, f | e in outbox && f in outbox && outbox[e].body == outbox[f].body :: e == f)
    && (forall e | e in outbox :: outbox[e].body in facts)
    && (forall b | b in facts :: exists e :: e in outbox && outbox[e].body == b)
  }

  ghost predicate OutboxAgrees(db: Db) {
    Reports(db.outbox, Facts(db))
  }

  // ---------------------------------------------------------------- alerts and their audit trail

  /** The status reached by an alert that nobody has resolved, by its escalation stamps. */
  function OpenStatus(alert: Alert): AlertStatus {
    if alert.slackAt.Some? then EscalatedSlack else if alert.emailAt.Some? then EscalatedEmail else Pending
  }

  predicate Coherent(c: Settings, alert: Alert) {
    && (alert.resolvedAt.Some? <==> alert.status.Terminal())
    && (!alert.status.Terminal() ==> alert.status == OpenStatus(alert))
    && (alert.emailAt.Some? ==> alert.createdAt + c.emailDelay <= alert.emailAt.value)
    && (alert.slackAt.Some? ==> alert.emailAt.Some? && alert.emailAt.value + c.slackDelay <= alert.slackAt.value)
  }

  /** The statuses an alert has moved through since PENDING. */
  function Trail(alert: Alert): seq<AlertStatus> {
    (if alert.emailAt.Some? then [EscalatedEmail] else [])
    + (if alert.slackAt.Some? then [EscalatedSlack] else [])
    + (if alert.status.Terminal() then [alert.status] else [])
  }

  /** The `after` statuses that the audit log holds for one alert, oldest first. */
  function History(audits: seq<Audit>, a: AlertId): seq<AlertStatus> {
    if |audits| == 0 then []
    else
      var last := audits[|audits| - 1];
      History(audits[..|audits| - 1], a) + (if last.alert == a then [last.after] else [])
  }

  ghost predicate AuditAgrees(c: Settings, db: Db) {
    && (forall a | a in db.alerts :: Coherent(c, db.alerts[a]))
    && (forall a :: History(db.audits, a) == if a in db.alerts then Trail(db.alerts[a]) else [])
  }

  // ---------------------------------------------------------------- transactions and the inbox

  ghost predicate InboxAgrees(db: Db) {
    && (forall e, g | (e, g) in db.inbox :: e in db.outbox && StreamOf(db.outbox[e].body) == StreamFor(g))
    && (forall t | t in db.txns ::
          (db.txns[t].status.Submitted? || db.txns[t].status.Processed?)
          && (db.txns[t].processedAt.Some? <==> db.txns[t].status.Processed?))
    && (forall e | e in db.outbox && db.outbox[e].body.TransactionCreated? ::
          var t := db.outbox[e].body.txn;
          t in db.txns && (db.txns[t].status.Processed? <==> (e, ProcessorGroup) in db.inbox))
    && (forall a | a in db.alerts ::
          var t := db.alerts[a].txn;
          t in db.txns && db.txns[t].status.Processed? && db.txns[t].user == db.alerts[a].user)
    && (forall a, b | a in db.alerts && b in db.alerts && db.alerts[a].txn == db.alerts[b].txn :: a == b)
  }

  ghost predicate LedgerInv(c: Settings, db: Db) {
    OutboxAgrees(db) && AuditAgrees(c, db) && InboxAgrees(db)
  }

  /** One more fact and one more event that reports it keep the two in step. */
  lemma EnqueueReports(outbox: map<EventId, OutboxRow>, facts: iset<EventBody>, e: EventId, row: OutboxRow)
    requires Reports(outbox, facts) && e !in outbox && row.body !in facts
    ensures Reports(outbox[e := row], facts + iset{row.body})
  {
    var outbox' := outbox[e := row];
    forall b | b in facts + iset{row.body} ensures exists f :: f in outbox' && outbox'[f].body == b {
      if b == row.body {
        assert outbox'[e].body == b;
      } else {
        var f :| f in outbox && outbox[f].body == b;
        assert outbox'[f].body == b;
      }
    }
  }

  // ---------------------------------------------------------------- each transaction keeps them

  lemma InsertReports(db: Db, t: TxnId, e: EventId, key: string, user: UserId, now: Instant)
    requires OutboxAgrees(db) && t !in db.txns && e !in db.outbox
    ensures OutboxAgrees(InsertTransaction(db, t, e, key, user, now))
  {
    var body := TransactionCreated(t, user, now);
    var after := InsertTransaction(db, t, e, key, user, now);
    EnqueueReports(db.outbox, Facts(db), e, NewRow(body, now));
    forall x ensures x in Facts(after) <==> x in Facts(db) + iset{body} {
      assert Due(after, x) <==> Due(db, x) || x == body;
    }
    assert Facts(after) == Facts(db) + iset{body};
  }

  lemma InsertKeeps(c: Settings, db: Db, t: TxnId, e: EventId, key: string, user: UserId, now: Instant)
    requires LedgerInv(c, db) && t !in db.txns && e !in db.outbox
    ensures LedgerInv(c, InsertTransaction(db, t, e, key, user, now))
  {
    InsertReports(db, t, e, key, user, now);
    InsertInbox(db, t, e, key, user, now);
    assert AuditAgrees(c, InsertTransaction(db, t, e, key, user, now));
  }

  lemma InsertInbox(db: Db, t: TxnId, e: EventId, key: string, user: UserId, now: Instant)
    requires InboxAgrees(db) && t !in db.txns && e !in db.outbox
    ensures InboxAgrees(InsertTransaction(db, t, e, key, user, now))
  {
  }

  /** The tables of a detection commit before any alert is added. */
  function Marked(db: Db, e: EventId, b: EventBody, now: Instant): Db
    requires b.TransactionCreated?
  {
    db.(txns := MarkProcessed(db.txns, b.txn, b.at, now), inbox := db.inbox + {(e, ProcessorGroup)})
  }

  lemma MarkReports(db: Db, e: EventId, now: Instant)
    requires OutboxAgrees(db) && e in db.outbox && db.outbox[e].body.TransactionCreated?
    ensures OutboxAgrees(Marked(db, e, db.outbox[e].body, now))
    ensures Due(db, db.outbox[e].body)
    ensures forall f | f in db.outbox && db.outbox[f].body.TransactionCreated? &&
      db.outbox[f].body.txn == db.outbox[e].body.txn :: f == e
  {
    var marked := Marked(db, e, db.outbox[e].body, now);
    assert db.outbox[e].body in Facts(db);
    forall x ensures x in Facts(marked) <==> x in Facts(db) {
      assert Due(marked, x) <==> Due(db, x);
    }
    assert Facts(marked) == Facts(db);
    forall f | f in db.outbox && db.outbox[f].body.TransactionCreated? && db.outbox[f].body.txn == db.outbox[e].body.txn
      ensures f == e {
      assert db.outbox[f].body in Facts(db);
    }
  }

  lemma MarkKeeps(c: Settings, db: Db, e: EventId, now: Instant)
    requires LedgerInv(c, db) && e in db.outbox && db.outbox[e].body.TransactionCreated?
    ensures LedgerInv(c, Marked(db, e, db.outbox[e].body, now))
    ensures var b := db.outbox[e].body;
            b.txn in db.txns && Marked(db, e, b, now).txns
              == db.txns[b.txn := db.txns[b.txn].(status := Processed, processedAt := Some(now))]
  {
    hide OutboxAgrees, InboxAgrees;
    MarkReports(db, e, now);
    MarkInbox(db, e, now);
  }

  lemma MarkInbox(db: Db, e: EventId, now: Instant)
    requires InboxAgrees(db) && e in db.outbox && db.outbox[e].body.TransactionCreated? && Due(db, db.outbox[e].body)
    requires forall f | f in db.outbox && db.outbox[f].body.TransactionCreated? &&
      db.outbox[f].body.txn == db.outbox[e].body.txn :: f == e
    ensures InboxAgrees(Marked(db, e, db.outbox[e].body, now))
  {
  }

  lemma DetectionKeeps(c: Settings, db: Db, e: EventId, read: Option<Profile>, d: Decision, a: AlertId, e2: EventId,
      now: Instant)
    requires LedgerInv(c, db) && e in db.outbox && db.outbox[e].body.TransactionCreated?
    requires (e, ProcessorGroup) !in db.inbox && a !in db.alerts && e2 !in db.outbox
    ensures LedgerInv(c, CommitDetection(db, e, db.outbox[e].body, read, d, a, e2, now))
  {
    var b := db.outbox[e].body;
    var marked := Marked(db, e, b, now);
    MarkKeeps(c, db, e, now);
    if d.shouldAlert {
      assert forall x | x in db.alerts :: db.alerts[x].txn != b.txn;
      var alert := Alert(b.txn, b.user, Pending, d.severity, d.score, now, None, None, None);
      var profiles := CountAlert(db.profiles, b.user, read);
      RaiseKeeps(c, marked, alert, profiles, a, e2, now);
    }
  }

  /** Detection, once the transaction is marked: the new alert and the event that reports it. */
  lemma RaiseKeeps(c: Settings, db: Db, alert: Alert, profiles: map<UserId, Profile>, a: AlertId, e: EventId,
      now: Instant)
    requires LedgerInv(c, db) && a !in db.alerts && e !in db.outbox
    requires alert.status.Pending? && alert.emailAt.None? && alert.slackAt.None? && alert.resolvedAt.None?
    requires alert.txn in db.txns && db.txns[alert.txn].status.Processed? && db.txns[alert.txn].user == alert.user
    requires forall x | x in db.alerts :: db.alerts[x].txn != alert.txn
    ensures LedgerInv(c, Enqueue(db.(alerts := db.alerts[a := alert], profiles := profiles), e,
                                 AlertCreated(a, alert.txn, alert.user), now))
  {
    hide OutboxAgrees, InboxAgrees, AuditAgrees;
    var after := Enqueue(db.(alerts := db.alerts[a := alert], profiles := profiles), e,
                         AlertCreated(a, alert.txn, alert.user), now);
    assert OutboxAgrees(after) by {
      RaiseReports(db, alert, profiles, a, e, now);
    }
    assert AuditAgrees(c, after) by {
      RaiseAudit(c, db, alert, a, after);
    }
    RaiseInbox(db, alert, a, after);
  }

  lemma RaiseReports(db: Db, alert: Alert, profiles: map<UserId, Profile>, a: AlertId, e: EventId, now: Instant)
    requires OutboxAgrees(db) && a !in db.alerts && e !in db.outbox
    requires alert.status.Pending? && alert.emailAt.None? && alert.slackAt.None?
    ensures OutboxAgrees(Enqueue(db.(alerts := db.alerts[a := alert], profiles := profiles), e,
                                 AlertCreated(a, alert.txn, alert.user), now))
  {
    var body := AlertCreated(a, alert.txn, alert.user);
    var after := Enqueue(db.(alerts := db.alerts[a := alert], profiles := profiles), e, body, now);
    EnqueueReports(db.outbox, Facts(db), e, NewRow(body, now));
    forall x ensures x in Facts(after) <==> x in Facts(db) + iset{body} {
      assert Due(after, x) <==> Due(db, x) || x == body;
    }
    assert Facts(after) == Facts(db) + iset{body};
  }

  lemma RaiseAudit(c: Settings, db: Db, alert: Alert, a: AlertId, after: Db)
    requires AuditAgrees(c, db) && a !in db.alerts
    requires alert.status.Pending? && alert.emailAt.None? && alert.slackAt.None? && alert.resolvedAt.None?
    requires after.audits == db.audits && after.alerts == db.alerts[a := alert]
    ensures AuditAgrees(c, after)
  {
  }

  lemma RaiseInbox(db: Db, alert: Alert, a: AlertId, after: Db)
    requires InboxAgrees(db) && a !in db.alerts
    requires alert.txn in db.txns && db.txns[alert.txn].status.Processed? && db.txns[alert.txn].user == alert.user
    requires forall x | x in db.alerts :: db.alerts[x].txn != alert.txn
    requires after.txns == db.txns && after.inbox == db.inbox && after.alerts == db.alerts[a := alert]
    requires forall e | e in db.outbox :: e in after.outbox && after.outbox[e] == db.outbox[e]
    requires forall e | e in after.outbox && e !in db.outbox :: !after.outbox[e].body.TransactionCreated?
    ensures InboxAgrees(after)
  {
  }

  lemma CompensationReports(db: Db, e: EventId, read: Option<Profile>)
    requires OutboxAgrees(db) && e in db.outbox && db.outbox[e].body.RiskRecalculate?
    ensures OutboxAgrees(CommitCompensation(db, e, db.outbox[e].body, read))
  {
    var after := CommitCompensation(db, e, db.outbox[e].body, read);
    forall x ensures x in Facts(after) <==> x in Facts(db) {
      assert Due(after, x) <==> Due(db, x);
    }
    assert Facts(after) == Facts(db);
  }

  lemma CompensationInbox(db: Db, e: EventId, read: Option<Profile>)
    requires InboxAgrees(db) && e in db.outbox && db.outbox[e].body.RiskRecalculate?
    ensures InboxAgrees(CommitCompensation(db, e, db.outbox[e].body, read))
  {
  }

  lemma CompensationKeeps(c: Settings, db: Db, e: EventId, read: Option<Profile>)
    requires LedgerInv(c, db) && e in db.outbox && db.outbox[e].body.RiskRecalculate?
    ensures LedgerInv(c, CommitCompensation(db, e, db.outbox[e].body, read))
  {
    hide OutboxAgrees, InboxAgrees;
    CompensationReports(db, e, read);
    CompensationInbox(db, e, read);
  }

  lemma TrailMoves(c: Settings, db: Db, a: AlertId, alert': Alert, x: Audit, after: Db)
    requires AuditAgrees(c, db) && a in db.alerts && x.alert == a
    requires Coherent(c, alert') && Trail(alert') == Trail(db.alerts[a]) + [x.after]
    requires after.alerts == db.alerts[a := alert'] && after.audits == db.audits + [x]
    ensures AuditAgrees(c, after)
  {
  }

  /** Changing an alert's status and adding events of other types leaves transactions and inbox as they were. */
  lemma InboxIgnoresMoves(db: Db, a: AlertId, alert': Alert, after: Db)
    requires InboxAgrees(db) && a in db.alerts && alert'.txn == db.alerts[a].txn && alert'.user == db.alerts[a].user
    requires after.txns == db.txns && after.inbox == db.inbox && after.alerts == db.alerts[a := alert']
    requires forall e | e in db.outbox :: e in after.outbox && after.outbox[e] == db.outbox[e]
    requires forall e | e in after.outbox && e !in db.outbox :: !after.outbox[e].body.TransactionCreated?
    ensures InboxAgrees(after)
  {
  }

  lemma ResolutionAudit(c: Settings, db: Db, a: AlertId, target: AlertStatus, e: EventId, e2: EventId, now: Instant)
    requires AuditAgrees(c, db) && Open(db, a) && target.Terminal()
    ensures AuditAgrees(c, CommitResolution(db, a, target, e, e2, now))
  {
    var alert' := db.alerts[a].(status := target, resolvedAt := Some(now));
    assert Trail(alert') == Trail(db.alerts[a]) + [target];
    TrailMoves(c, db, a, alert', Audit(a, Unresolved, target), CommitResolution(db, a, target, e, e2, now));
  }

  lemma ResolutionKeeps(c: Settings, db: Db, a: AlertId, target: AlertStatus, e: EventId, e2: EventId, now: Instant)
    requires LedgerInv(c, db) && Open(db, a) && target.Terminal()
    requires e !in db.outbox && e2 !in db.outbox && e != e2
    ensures LedgerInv(c, CommitResolution(db, a, target, e, e2, now))
  {
    hide OutboxAgrees, InboxAgrees, AuditAgrees;
    var alert' := db.alerts[a].(status := target, resolvedAt := Some(now));
    InboxIgnoresMoves(db, a, alert', CommitResolution(db, a, target, e, e2, now));
    ResolutionAudit(c, db, a, target, e, e2, now);
    ResolutionReports(db, a, target, e, e2, now);
  }

  lemma ResolutionDue(db: Db, a: AlertId, target: AlertStatus, e: EventId, e2: EventId, now: Instant, b: EventBody)
    requires Open(db, a) && target.Terminal()
    ensures Due(CommitResolution(db, a, target, e, e2, now), b) <==>
            || Due(db, b)
            || b == AlertResolved(a, db.alerts[a].user, target)
            || (target.FalsePositive? && b == RiskRecalculate(db.alerts[a].user, a))
  {
  }

  lemma ResolutionReports(db: Db, a: AlertId, target: AlertStatus, e: EventId, e2: EventId, now: Instant)
    requires OutboxAgrees(db) && Open(db, a) && target.Terminal()
    requires e !in db.outbox && e2 !in db.outbox && e != e2
    ensures OutboxAgrees(CommitResolution(db, a, target, e, e2, now))
  {
    var first, second := AlertResolved(a, db.alerts[a].user, target), RiskRecalculate(db.alerts[a].user, a);
    var after := CommitResolution(db, a, target, e, e2, now);
    var facts := Facts(db) + iset{first} + if target.FalsePositive? then iset{second} else iset{};
    assert Reports(after.outbox, facts) by {
      EnqueueReports(db.outbox, Facts(db), e, NewRow(first, now));
      if target.FalsePositive? {
        EnqueueReports(db.outbox[e := NewRow(first, now)], Facts(db) + iset{first}, e2, NewRow(second, now));
      } else {
        assert facts == Facts(db) + iset{first};
      }
    }
    forall b ensures b in Facts(after) <==> b in facts {
      ResolutionDue(db, a, target, e, e2, now, b);
    }
    assert Facts(after) == facts;
  }

  /** What the escalation scheduler established when it selected the alert. */
  predicate Ripe(c: Settings, db: Db, a: AlertId, tier: Tier, now: Instant) {
    && a in db.alerts
    && match tier
       case EmailTier => db.alerts[a].createdAt + c.emailDelay <= now
       case SlackTier => db.alerts[a].emailAt.Some? && db.alerts[a].emailAt.value + c.slackDelay <= now
  }

  lemma EscalationAudit(c: Settings, db: Db, a: AlertId, tier: Tier, e: EventId, now: Instant)
    requires AuditAgrees(c, db) && Ripe(c, db, a, tier, now) && db.alerts[a].status == StatusBefore(tier)
    ensures AuditAgrees(c, EscalateRow(db, a, tier, e, now)) && Coherent(c, db.alerts[a])
  {
    var alert' := Stamped(db.alerts[a], tier, now);
    assert Trail(alert') == Trail(db.alerts[a]) + [StatusAfter(tier)];
    TrailMoves(c, db, a, alert', Audit(a, From(StatusBefore(tier)), StatusAfter(tier)),
        EscalateRow(db, a, tier, e, now));
  }

  lemma EscalationKeeps(c: Settings, db: Db, a: AlertId, tier: Tier, e: EventId, now: Instant)
    requires LedgerInv(c, db) && Ripe(c, db, a, tier, now) && e !in db.outbox
    ensures LedgerInv(c, EscalateRow(db, a, tier, e, now))
  {
    hide OutboxAgrees, InboxAgrees, AuditAgrees;
    if db.alerts[a].status == StatusBefore(tier) {
      InboxIgnoresMoves(db, a, Stamped(db.alerts[a], tier, now), EscalateRow(db, a, tier, e, now));
      EscalationAudit(c, db, a, tier, e, now);
      EscalationReports(c, db, a, tier, e, now);
    }
  }

  lemma EscalationDue(c: Settings, db: Db, a: AlertId, tier: Tier, e: EventId, now: Instant, b: EventBody)
    requires a in db.alerts && db.alerts[a].status == StatusBefore(tier) && Coherent(c, db.alerts[a])
    ensures Due(EscalateRow(db, a, tier, e, now), b) <==>
            Due(db, b) || b == EscalationRequested(a, db.alerts[a].user, StatusAfter(tier))
    ensures !Due(db, EscalationRequested(a, db.alerts[a].user, StatusAfter(tier)))
  {
  }

  lemma EscalationReports(c: Settings, db: Db, a: AlertId, tier: Tier, e: EventId, now: Instant)
    requires OutboxAgrees(db) && a in db.alerts && e !in db.outbox
    requires db.alerts[a].status == StatusBefore(tier) && Coherent(c, db.alerts[a])
    ensures OutboxAgrees(EscalateRow(db, a, tier, e, now))
  {
    var body := EscalationRequested(a, db.alerts[a].user, StatusAfter(tier));
    var after := EscalateRow(db, a, tier, e, now);
    forall b ensures b in Facts(after) <==> b in Facts(db) + iset{body} {
      EscalationDue(c, db, a, tier, e, now, b);
    }
    EscalationDue(c, db, a, tier, e, now, body);
    EnqueueReports(db.outbox, Facts(db), e, NewRow(body, now));
    assert Facts(after) == Facts(db) + iset{body};
  }

  // ---------------------------------------------------------------- the relay touches no business row

  /** Equal tables, up to how far each outbox event has been relayed. */
  ghost predicate SameBusiness(db: Db, db': Db) {
    && db'.txns == db.txns && db'.alerts == db.alerts && db'.profiles == db.profiles
    && db'.inbox == db.inbox && db'.audits == db.audits
    && db'.outbox.Keys == db.outbox.Keys
    && forall e | e in db.outbox ::
       db'.outbox[e].body == db.outbox[e].body && db'.outbox[e].createdAt == db.outbox[e].createdAt
  }

  lemma {:induction false} SettleSameBusiness(max: nat, db: Db, batch: seq<EventId>, outcomes: seq<bool>, n: nat,
      now: Instant)
    requires n <= |batch| && n <= |outcomes|
    ensures SameBusiness(db, Settle(max, db, batch, outcomes, n, now))
  {
    if n > 0 {
      SettleSameBusiness(max, db, batch, outcomes, n - 1, now);
    }
  }

  lemma BodiesStay(db: Db, db': Db)
    requires SameBusiness(db, db') && forall b | b in Facts(db) :: exists e :: e in db.outbox && db.outbox[e].body == b
    ensures forall b | b in Facts(db) :: exists e :: e in db'.outbox && db'.outbox[e].body == b
  {
    forall b | b in Facts(db) ensures exists e :: e in db'.outbox && db'.outbox[e].body == b {
      var e :| e in db.outbox && db.outbox[e].body == b;
      assert db'.outbox[e].body == b;
    }
  }

  lemma SameBusinessKeeps(c: Settings, db: Db, db': Db)
    requires LedgerInv(c, db) && SameBusiness(db, db')
    ensures LedgerInv(c, db')
  {
    assert Facts(db') == Facts(db);
    BodiesStay(db, db');
  }
}
