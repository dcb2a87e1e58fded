/**
 The relational tables, and the database transactions that the services commit.  Each function
 below is one atomic commit; the services in the other modules are proved to commit exactly these.
 */
module Ledger {
  import opened Domain

  datatype Db = Db(
    txns: map<TxnId, Txn>,
    alerts: map<AlertId, Alert>,
    outbox: map<EventId, OutboxRow>,
    profiles: map<UserId, Profile>,
    inbox: set<(EventId, Group)>,
    audits: seq<Audit>,
    dead: seq<DeadLetter>)

  const EMPTY := Db(map[], map[], map[], map[], {}, [], [])

  /** A new outbox row: waiting, never tried. */
  function NewRow(body: EventBody, now: Instant): OutboxRow {
    OutboxRow(body, Waiting, 0, now, None)
  }

  function Enqueue(db: Db, e: EventId, body: EventBody, now: Instant): Db {
    db.(outbox := db.outbox[e := NewRow(body, now)])
  }

  function Lookup(profiles: map<UserId, Profile>, u: UserId): Option<Profile> {
    if u in profiles then Some(profiles[u]) else None
  }

  /** Ingestion: the transaction and its outbox event, in one commit. */
  function InsertTransaction(db: Db, t: TxnId, e: EventId, key: string, user: UserId, now: Instant): Db {
    Enqueue(db.(txns := db.txns[t := Txn(key, user, now, Submitted, None)]),
            e, TransactionCreated(t, user, now), now)
  }

  /** UPDATE transactions SET status = PROCESSED WHERE id = t AND created_at = at. */
  function MarkProcessed(txns: map<TxnId, Txn>, t: TxnId, at: Instant, now: Instant): map<TxnId, Txn> {
    if t in txns && txns[t].createdAt == at
    then txns[t := txns[t].(status := Processed, processedAt := Some(now))]
    else txns
  }

  /** The alert counter is written from the profile read earlier; the other columns are left alone. */
  function CountAlert(profiles: map<UserId, Profile>, u: UserId, read: Option<Profile>): map<UserId, Profile> {
    match read
    case None => profiles[u := Profile(1, 0, 0)]
    case Some(p) => if u in profiles then profiles[u := profiles[u].(total := p.total + 1)] else profiles
  }

  /** Detection: transaction status, alert, outbox event, profile and inbox row, in one commit. */
  function CommitDetection(db: Db, e: EventId, body: EventBody, read: Option<Profile>, d: Decision, a: AlertId,
      e2: EventId, now: Instant): Db
    requires body.TransactionCreated?
  {
    var marked := db.(txns := MarkProcessed(db.txns, body.txn, body.at, now),
                      inbox := db.inbox + {(e, ProcessorGroup)});
    if d.shouldAlert then
      var alert := Alert(body.txn, body.user, Pending, d.severity, d.score, now, None, None, None);
      Enqueue(marked.(alerts := db.alerts[a := alert],
                      profiles := CountAlert(db.profiles, body.user, read)),
              e2, AlertCreated(a, body.txn, body.user), now)
    else
      marked
  }

  /** The score after compensation: a quarter for every alert not marked false, at most one. */
  function NetScore(total: nat, falsePositives: nat): int {
    var effective := if total > falsePositives then total - falsePositives else 0;
    if total > 0 then (if 2500 * effective < 10000 then 2500 * effective else 10000) else 0
  }

  function Recalculated(p: Profile): Profile {
    Profile(p.total, p.falsePositives + 1, NetScore(p.total, p.falsePositives + 1))
  }

  /**
   False positives and score are written from the profile read earlier, the score only when it
   differs from the one read: a column that keeps its value is not part of the update.  The total is
   left alone.
   */
  function CountFalsePositive(profiles: map<UserId, Profile>, u: UserId, read: Option<Profile>): map<UserId, Profile> {
    match read
    case None => profiles[u := Profile(0, 1, 0)]
    case Some(p) =>
      if u in profiles
      then
        var score := if Recalculated(p).score == p.score then profiles[u].score else Recalculated(p).score;
        profiles[u := profiles[u].(falsePositives := p.falsePositives + 1, score := score)]
      else profiles
  }

  /** Compensation: profile and inbox row, in one commit. */
  function CommitCompensation(db: Db, e: EventId, body: EventBody, read: Option<Profile>): Db
    requires body.RiskRecalculate?
  {
    db.(profiles := CountFalsePositive(db.profiles, body.user, read),
        inbox := db.inbox + {(e, CompensationGroup)})
  }

  /** An alert still open to an analyst. */
  predicate Open(db: Db, a: AlertId) {
    a in db.alerts && !db.alerts[a].status.Terminal()
  }

  /** Resolution of an open alert: status, audit row and one or two outbox events, in one commit. */
  function CommitResolution(db: Db, a: AlertId, target: AlertStatus, e: EventId, e2: EventId, now: Instant): Db
    requires a in db.alerts
  {
    var alert := db.alerts[a];
    var resolved := Enqueue(db.(alerts := db.alerts[a := alert.(status := target, resolvedAt := Some(now))],
                                audits := db.audits + [Audit(a, Unresolved, target)]),
                            e, AlertResolved(a, alert.user, target), now);
    if target.FalsePositive? then Enqueue(resolved, e2, RiskRecalculate(alert.user, a), now) else resolved
  }

  datatype Tier = EmailTier | SlackTier

  function StatusBefore(tier: Tier): AlertStatus {
    if tier.EmailTier? then Pending else EscalatedEmail
  }

  function StatusAfter(tier: Tier): AlertStatus {
    if tier.EmailTier? then EscalatedEmail else EscalatedSlack
  }

  function Stamped(alert: Alert, tier: Tier, now: Instant): Alert {
    if tier.EmailTier?
    then alert.(status := EscalatedEmail, emailAt := Some(now))
    else alert.(status := EscalatedSlack, slackAt := Some(now))
  }

  /** One row of an escalation tick: it moves only when the status still is the expected one. */
  function EscalateRow(db: Db, a: AlertId, tier: Tier, e: EventId, now: Instant): Db {
    if a in db.alerts && db.alerts[a].status == StatusBefore(tier) then
      Enqueue(db.(alerts := db.alerts[a := Stamped(db.alerts[a], tier, now)],
                  audits := db.audits + [Audit(a, From(StatusBefore(tier)), StatusAfter(tier))]),
              e, EscalationRequested(a, db.alerts[a].user, StatusAfter(tier)), now)
    else
      db
  }

  /** The row of an attempted event: published, or one failure closer to being dead-lettered. */
  function Attempted(maxRetries: nat, row: OutboxRow, ok: bool, now: Instant): OutboxRow {
    if ok then row.(status := Published, publishedAt := Some(now))
    else if row.retries + 1 >= maxRetries then row.(status := DeadLettered, retries := row.retries + 1)
    else row.(retries := row.retries + 1)
  }

  /** One event of a relay batch, as the batch's commit will store it. */
  function SettleOne(maxRetries: nat, db: Db, e: EventId, ok: bool, now: Instant): Db {
    if e in db.outbox then
      var row := Attempted(maxRetries, db.outbox[e], ok, now);
      db.(outbox := db.outbox[e := row],
          dead := if row.status.DeadLettered? && !ok then db.dead + [OfPublisher(e, row.retries)] else db.dead)
    else
      db
  }

  /** The commit of a relay batch: the first n events settled in order. */
  function Settle(maxRetries: nat, db: Db, batch: seq<EventId>, outcomes: seq<bool>, n: nat, now: Instant): Db
    requires n <= |batch| && n <= |outcomes|
  {
    if n == 0 then db
    else SettleOne(maxRetries, Settle(maxRetries, db, batch, outcomes, n - 1, now), batch[n - 1], outcomes[n - 1], now)
  }
}
