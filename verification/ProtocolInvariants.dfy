/**
 What holds in every reachable state of the protocol, whatever crashes, duplicates and races
 the run contains.
 */
module ProtocolInvariants {
  import opened Collections
  import opened Domain
  import opened Ledger
  import opened LedgerInvariants
  import opened Protocol

  // ---------------------------------------------------------------- the invariant

  ghost predicate Buried(dead: seq<DeadLetter>, g: Group, m: nat) {
    exists n :: OfConsumer(g, m, n) in dead
  }

  /** The group is done with entry m: its event is in the inbox, or a dead-letter row names it. */
  ghost predicate Handled(db: Db, log: seq<Entry>, g: Group, m: nat) {
    m < |log| && ((log[m].Message? && (log[m].event, g) in db.inbox) || Buried(db.dead, g, m))
  }

  ghost predicate InLog(log: seq<Entry>, e: EventId) {
    exists i | 0 <= i < |log| :: log[i].Message? && log[i].event == e
  }

  /** Every parseable entry is the copy of an outbox row. */
  predicate EntriesOk(outbox: map<EventId, OutboxRow>, log: seq<Entry>) {
    forall i | 0 <= i < |log| && log[i].Message? :: log[i].event in outbox && outbox[log[i].event].body == log[i].body
  }

  /** Every entry that was delivered to a group is still pending there, or handled. */
  ghost predicate GroupOk(db: Db, log: seq<Entry>, g: Group, group: GroupState) {
    && group.cursor <= |log|
    && (forall i | i in group.pending :: i < group.cursor && log[i].Stream() == StreamFor(g))
    && (forall i: nat | i < group.cursor && log[i].Stream() == StreamFor(g) ::
        i in group.pending || Handled(db, log, g, i))
  }

  ghost predicate GroupsOk(s: State) {
    forall g: Group :: g in s.groups && GroupOk(s.db, s.log, g, s.groups[g])
  }

  ghost predicate WorkOk(c: Settings, db: Db, log: seq<Entry>, work: Work) {
    && work.message < |log| && log[work.message].Stream() == StreamFor(work.group)
    && match work
       case Fetched(_, _, deliveries) => 1 <= deliveries <= 2
       case Checked(_, m) => log[m].Message?
       case Informed(_, m, _) => log[m].Message?
       case Primed(_, m, _, _) => log[m].Message?
       case Settled(g, m) => log[m].Message? && (log[m].event, g) in db.inbox
       case Condemned(g, m) => Buried(db.dead, g, m)
  }

  ghost predicate WorkersOk(c: Settings, s: State) {
    forall w | w in s.workers :: WorkOk(c, s.db, s.log, s.workers[w])
  }

  /** How often the publisher gave up on an event. */
  function Abandoned(dead: seq<DeadLetter>, e: EventId): nat {
    if |dead| == 0 then 0
    else
      var last := dead[|dead| - 1];
      Abandoned(dead[..|dead| - 1], e) + (if last.OfPublisher? && last.event == e then 1 else 0)
  }

  /** Waiting, published with an entry in its stream, or dead-lettered with exactly one row. */
  ghost predicate RowOk(c: Settings, dead: seq<DeadLetter>, log: seq<Entry>, e: EventId, row: OutboxRow) {
    && (row.publishedAt.Some? <==> row.status.Published?)
    && match row.status
       case Waiting => row.retries < c.maxRetries && Abandoned(dead, e) == 0
       case Published => row.retries < c.maxRetries && Abandoned(dead, e) == 0 && InLog(log, e)
       case DeadLettered => row.retries == c.maxRetries && Abandoned(dead, e) == 1
  }

  ghost predicate RowsOk(c: Settings, s: State) {
    && (forall e | e in s.db.outbox :: RowOk(c, s.db.dead, s.log, e, s.db.outbox[e]))
    && (forall e | e !in s.db.outbox :: Abandoned(s.db.dead, e) == 0)
  }

  /** A batch holds waiting rows, each once, and a success was preceded by an entry in the stream. */
  ghost predicate PublisherOk(db: Db, log: seq<Entry>, pub: Publisher) {
    && Distinct(pub.batch)
    && (forall i | 0 <= i < |pub.batch| :: pub.batch[i] in db.outbox && db.outbox[pub.batch[i]].status.Waiting?)
    && |pub.outcomes| <= |pub.batch|
    && (forall i | 0 <= i < |pub.outcomes| && pub.outcomes[i] :: InLog(log, pub.batch[i]))
  }

  ghost predicate PublishersOk(s: State) {
    && (forall p | p in s.publishers :: PublisherOk(s.db, s.log, s.publishers[p]))
    && (forall p, q, e | p in s.publishers && q in s.publishers && p != q
                         && e in s.publishers[p].batch :: e !in s.publishers[q].batch)
  }

  ghost predicate SchedulersOk(c: Settings, s: State) {
    forall k, a | k in s.schedulers && a in s.schedulers[k].selected ::
      Ripe(c, s.db, a, s.schedulers[k].tier, s.schedulers[k].now)
  }

  ghost predicate Inv(c: Settings, s: State) {
    && LedgerInv(c, s.db)
    && EntriesOk(s.db.outbox, s.log)
    && GroupsOk(s)
    && WorkersOk(c, s)
    && RowsOk(c, s)
    && PublishersOk(s)
    && SchedulersOk(c, s)
  }

  // ---------------------------------------------------------------- what no step undoes

  /** An alert keeps its identity, its stamps and its final status. */
  predicate AlertGrows(a: Alert, b: Alert) {
    && b.txn == a.txn && b.user == a.user && b.createdAt == a.createdAt && b.severity == a.severity &&
       b.score == a.score
    && (a.emailAt.Some? ==> b.emailAt == a.emailAt)
    && (a.slackAt.Some? ==> b.slackAt == a.slackAt)
    && (a.status.Terminal() ==> b.status == a.status && b.resolvedAt == a.resolvedAt)
  }

  predicate RowGrows(a: OutboxRow, b: OutboxRow) {
    b.body == a.body && b.createdAt == a.createdAt && a.retries <= b.retries
  }

  ghost predicate DbGrows(db: Db, db': Db) {
    && db.inbox <= db'.inbox && db.dead <= db'.dead && db.audits <= db'.audits
    && (forall e | e in db.outbox :: e in db'.outbox && RowGrows(db.outbox[e], db'.outbox[e]))
    && (forall a | a in db.alerts :: a in db'.alerts && AlertGrows(db.alerts[a], db'.alerts[a]))
    && db.txns.Keys <= db'.txns.Keys && db.profiles.Keys <= db'.profiles.Keys
  }

  ghost predicate Grows(s: State, s': State) {
    DbGrows(s.db, s'.db) && s.log <= s'.log
  }

  lemma {:induction false} SettleGrows(max: nat, db: Db, batch: seq<EventId>, outcomes: seq<bool>, n: nat, now: Instant)
    requires n <= |batch| && n <= |outcomes|
    ensures DbGrows(db, Settle(max, db, batch, outcomes, n, now))
  {
    if n > 0 {
      SettleGrows(max, db, batch, outcomes, n - 1, now);
    }
  }

  /** The tables db' are what step l commits, with the checks that the commit has passed. */
  ghost predicate Commits(c: Settings, s: State, l: Label, db': Db) {
    match l
    case Insert(client, t, e, user, now) =>
      client in s.clients && t !in s.db.txns && e !in s.db.outbox
      && db' == InsertTransaction(s.db, t, e, s.clients[client], user, now)
    case CommitBatch(p) =>
      p in s.publishers && |s.publishers[p].outcomes| == |s.publishers[p].batch|
      && var pub := s.publishers[p];
         db' == Settle(c.maxRetries, s.db, pub.batch, pub.outcomes, |pub.batch|, pub.now)
    case Detect(w, d, a, e, now) =>
      Reads(s, w) && s.workers[w].Primed? && s.workers[w].group.ProcessorGroup? &&
        MessageOf(s, w).body.TransactionCreated?
      && !InInbox(s, w) && a !in s.db.alerts && e !in s.db.outbox
      && db' == CommitDetection(s.db, MessageOf(s, w).event, MessageOf(s, w).body, s.workers[w].read, d, a, e, now)
    case Compensate(w) =>
      Reads(s, w) && s.workers[w].Primed? && s.workers[w].group.CompensationGroup? &&
        MessageOf(s, w).body.RiskRecalculate?
      && !InInbox(s, w)
      && db' == CommitCompensation(s.db, MessageOf(s, w).event, MessageOf(s, w).body, s.workers[w].read)
    case Bury(w) =>
      w in s.workers && s.workers[w].Fetched?
      && db' == s.db.(dead := s.db.dead
          + [OfConsumer(s.workers[w].group, s.workers[w].message, s.workers[w].deliveries)])
    case Escalate(k, a, e) =>
      k in s.schedulers && a in s.schedulers[k].selected && e !in s.db.outbox
      && db' == EscalateRow(s.db, a, s.schedulers[k].tier, e, s.schedulers[k].now)
    case Resolve(a, target, e, e2, now) =>
      Open(s.db, a) && target.Terminal() && e !in s.db.outbox && e2 !in s.db.outbox && e != e2
      && db' == CommitResolution(s.db, a, target, e, e2, now)
    case _ => db' == s.db
  }

  lemma NextCommits(c: Settings, s: State, l: Label)
    requires Enabled(c, s, l)
    ensures Commits(c, s, l, Next(c, s, l).db)
  {
    hide InsertTransaction, Settle, CommitDetection, CommitCompensation, EscalateRow, CommitResolution, Ripe, Without;
  }

  /** Labels that commit nothing to the database. */
  predicate Quiet(l: Label) {
    !(l.Insert? || l.CommitBatch? || l.Detect? || l.Compensate? || l.Bury? || l.Escalate? || l.Resolve?)
  }

  lemma QuietKeepsDb(c: Settings, s: State, l: Label)
    requires Enabled(c, s, l) && Quiet(l)
    ensures Next(c, s, l).db == s.db
  {
  }

  lemma AlertsGrow(c: Settings, db: Db, db': Db, a: AlertId, alert': Alert)
    requires a in db.alerts && AlertGrows(db.alerts[a], alert') && db'.alerts == db.alerts[a := alert']
    requires db'.inbox == db.inbox && db'.dead == db.dead && db.audits <= db'.audits
    requires db'.txns == db.txns && db'.profiles == db.profiles
    requires forall e | e in db.outbox :: e in db'.outbox && db'.outbox[e] == db.outbox[e]
    ensures DbGrows(db, db')
  {
  }

  lemma EscalateGrows(c: Settings, db: Db, a: AlertId, tier: Tier, e: EventId, now: Instant)
    requires AuditAgrees(c, db) && e !in db.outbox
    ensures DbGrows(db, EscalateRow(db, a, tier, e, now))
  {
    if a in db.alerts && db.alerts[a].status == StatusBefore(tier) {
      assert Coherent(c, db.alerts[a]);
      AlertsGrow(c, db, EscalateRow(db, a, tier, e, now), a, Stamped(db.alerts[a], tier, now));
    }
  }

  lemma ResolveGrows(c: Settings, db: Db, a: AlertId, target: AlertStatus, e: EventId, e2: EventId, now: Instant)
    requires Open(db, a) && e !in db.outbox && e2 !in db.outbox && e != e2
    ensures DbGrows(db, CommitResolution(db, a, target, e, e2, now))
  {
  }

  lemma DetectGrows(db: Db, e: EventId, body: EventBody, read: Option<Profile>, d: Decision, a: AlertId, e2: EventId,
      now: Instant)
    requires body.TransactionCreated? && a !in db.alerts && e2 !in db.outbox
    ensures DbGrows(db, CommitDetection(db, e, body, read, d, a, e2, now))
  {
  }

  /** The tables after a step that commits something. */
  lemma CommitGrows(c: Settings, s: State, l: Label, db': Db)
    requires AuditAgrees(c, s.db) && Commits(c, s, l, db') && !Quiet(l)
    ensures DbGrows(s.db, db')
  {
    hide AuditAgrees;
    var db := s.db;
    match l
    case Insert(client, t, e, user, now) =>
    case CommitBatch(p) =>
      var pub := s.publishers[p];
      SettleGrows(c.maxRetries, db, pub.batch, pub.outcomes, |pub.batch|, pub.now);
    case Detect(w, d, a, e, now) =>
      DetectGrows(db, MessageOf(s, w).event, MessageOf(s, w).body, s.workers[w].read, d, a, e, now);
    case Compensate(w) =>
    case Bury(w) =>
    case Escalate(k, a, e) =>
      EscalateGrows(c, db, a, s.schedulers[k].tier, e, s.schedulers[k].now);
    case Resolve(a, target, e, e2, now) =>
      ResolveGrows(c, db, a, target, e, e2, now);
  }

  lemma StepGrows(c: Settings, s: State, l: Label)
    requires AuditAgrees(c, s.db) && Enabled(c, s, l)
    ensures Grows(s, Next(c, s, l))
  {
    if Quiet(l) {
      QuietKeepsDb(c, s, l);
    } else {
      NextCommits(c, s, l);
      CommitGrows(c, s, l, Next(c, s, l).db);
    }
    assert s.log <= Next(c, s, l).log;
  }

  // ---------------------------------------------------------------- each part of the invariant is kept

  /** Ingestion, resolution and escalation. */
  lemma FrontLedger(c: Settings, s: State, l: Label, db': Db)
    requires LedgerInv(c, s.db) && SchedulersOk(c, s) && Commits(c, s, l, db') &&
      (l.Insert? || l.Escalate? || l.Resolve?)
    ensures LedgerInv(c, db')
  {
    hide LedgerInv;
    match l
    case Insert(client, t, e, user, now) => InsertKeeps(c, s.db, t, e, s.clients[client], user, now);
    case Escalate(k, a, e) => EscalationKeeps(c, s.db, a, s.schedulers[k].tier, e, s.schedulers[k].now);
    case Resolve(a, target, e, e2, now) => ResolutionKeeps(c, s.db, a, target, e, e2, now);
  }

  /** Relay and consumers. */
  lemma BackLedger(c: Settings, s: State, l: Label, db': Db)
    requires LedgerInv(c, s.db) && EntriesOk(s.db.outbox, s.log) && Commits(c, s, l, db')
    requires l.CommitBatch? || l.Detect? || l.Compensate? || l.Bury?
    ensures LedgerInv(c, db')
  {
    hide LedgerInv;
    match l
    case CommitBatch(p) =>
      var pub := s.publishers[p];
      SettleSameBusiness(c.maxRetries, s.db, pub.batch, pub.outcomes, |pub.batch|, pub.now);
      SameBusinessKeeps(c, s.db, db');
    case Detect(w, d, a, e, now) => DetectionKeeps(c, s.db, MessageOf(s, w).event, s.workers[w].read, d, a, e, now);
    case Compensate(w) => CompensationKeeps(c, s.db, MessageOf(s, w).event, s.workers[w].read);
    case Bury(w) => SameBusinessKeeps(c, s.db, db');
  }

  lemma StepLedger(c: Settings, s: State, l: Label)
    requires LedgerInv(c, s.db) && EntriesOk(s.db.outbox, s.log) && SchedulersOk(c, s) && Enabled(c, s, l)
    ensures LedgerInv(c, Next(c, s, l).db)
  {
    hide LedgerInv;
    NextCommits(c, s, l);
    if l.Insert? || l.Escalate? || l.Resolve? {
      FrontLedger(c, s, l, Next(c, s, l).db);
    } else if l.CommitBatch? || l.Detect? || l.Compensate? || l.Bury? {
      BackLedger(c, s, l, Next(c, s, l).db);
    } else {
      QuietKeepsDb(c, s, l);
    }
  }

  lemma StepEntries(c: Settings, s: State, l: Label)
    requires Enabled(c, s, l) && EntriesOk(s.db.outbox, s.log) && Grows(s, Next(c, s, l))
    ensures EntriesOk(Next(c, s, l).db.outbox, Next(c, s, l).log)
  {
    if l.Attempt? || l.Pollute? {
      assert Next(c, s, l).db == s.db;
    } else {
      assert Next(c, s, l).log == s.log;
    }
  }

  lemma HandledGrows(s: State, s': State, g: Group, m: nat)
    requires Grows(s, s') && Handled(s.db, s.log, g, m)
    ensures Handled(s'.db, s'.log, g, m)
  {
  }

  lemma GroupFrame(s: State, s': State, g: Group, group: GroupState)
    requires Grows(s, s') && GroupOk(s.db, s.log, g, group)
    ensures GroupOk(s'.db, s'.log, g, group)
  {
  }

  /** A worker that has settled or condemned its message has handled it. */
  lemma WorkHandled(c: Settings, db: Db, log: seq<Entry>, work: Work)
    requires WorkOk(c, db, log, work) && (work.Settled? || work.Condemned?)
    ensures Handled(db, log, work.group, work.message)
  {
  }

  lemma GroupAcknowledged(db: Db, log: seq<Entry>, g: Group, group: GroupState, m: nat)
    requires GroupOk(db, log, g, group) && Handled(db, log, g, m)
    ensures GroupOk(db, log, g, group.(pending := group.pending - {m}))
  {
  }

  lemma GroupDelivered(db: Db, log: seq<Entry>, g: Group, group: GroupState, m: nat)
    requires GroupOk(db, log, g, group) && group.cursor <= m < |log| && log[m].Stream() == StreamFor(g)
    requires forall i | group.cursor <= i < m :: log[i].Stream() != StreamFor(g)
    ensures GroupOk(db, log, g, GroupState(m + 1, group.pending + {m}))
  {
  }

  lemma StepGroups(c: Settings, s: State, l: Label)
    requires Enabled(c, s, l) && GroupsOk(s) && WorkersOk(c, s) && Grows(s, Next(c, s, l))
    ensures GroupsOk(Next(c, s, l))
  {
    hide Handled, WorkOk, Grows, GroupOk;
    var s' := Next(c, s, l);
    forall g: Group ensures g in s'.groups && GroupOk(s'.db, s'.log, g, s'.groups[g]) {
      GroupFrame(s, s', g, s.groups[g]);
      if l.Acknowledge? && s.workers[l.w].group == g {
        WorkHandled(c, s.db, s.log, s.workers[l.w]);
        HandledGrows(s, s', g, s.workers[l.w].message);
        GroupAcknowledged(s'.db, s'.log, g, s.groups[g], s.workers[l.w].message);
      } else if l.Deliver? && l.g == g {
        GroupDelivered(s'.db, s'.log, g, s.groups[g], l.m);
      } else {
        assert s'.groups[g] == s.groups[g];
      }
    }
  }

  lemma WorkFrame(c: Settings, s: State, s': State, work: Work)
    requires Grows(s, s') && WorkOk(c, s.db, s.log, work)
    ensures WorkOk(c, s'.db, s'.log, work)
  {
  }

  lemma StepWorkers(c: Settings, s: State, l: Label)
    requires Enabled(c, s, l) && GroupsOk(s) && WorkersOk(c, s) && Grows(s, Next(c, s, l))
    ensures WorkersOk(c, Next(c, s, l))
  {
    var s' := Next(c, s, l);
    forall w | w in s'.workers ensures WorkOk(c, s'.db, s'.log, s'.workers[w]) {
      if w in s.workers && s'.workers[w] == s.workers[w] {
        WorkFrame(c, s, s', s.workers[w]);
      } else {
        WorkMoves(c, s, l, w);
      }
    }
  }

  lemma WorkMoves(c: Settings, s: State, l: Label, w: nat)
    requires Enabled(c, s, l) && GroupsOk(s) && WorkersOk(c, s)
    requires w in Next(c, s, l).workers && (w in s.workers ==> Next(c, s, l).workers[w] != s.workers[w])
    ensures WorkOk(c, Next(c, s, l).db, Next(c, s, l).log, Next(c, s, l).workers[w])
  {
    var s' := Next(c, s, l);
    match l
    case Deliver(_, g, m) =>
    case Reclaim(_, g, m) => assert GroupOk(s.db, s.log, g, s.groups[g]);
    case CheckInbox(_) => assert WorkOk(c, s.db, s.log, s.workers[w]);
    case ReadProfile(_) => assert WorkOk(c, s.db, s.log, s.workers[w]);
    case Detect(_, d, a, e, now) => assert WorkOk(c, s.db, s.log, s.workers[w]);
    case Compensate(_) => assert WorkOk(c, s.db, s.log, s.workers[w]);
    case Bury(_) =>
      var work := s.workers[w];
      assert WorkOk(c, s.db, s.log, work);
      assert OfConsumer(work.group, work.message, work.deliveries) in s'.db.dead;
    case _ =>
  }

  lemma AbandonedAppend(dead: seq<DeadLetter>, x: DeadLetter, e: EventId)
    ensures Abandoned(dead + [x], e) == Abandoned(dead, e) + (if x.OfPublisher? && x.event == e then 1 else 0)
  {
  }

  lemma InLogGrows(log: seq<Entry>, log': seq<Entry>, e: EventId)
    requires InLog(log, e) && log <= log'
    ensures InLog(log', e)
  {
  }

  /** The outcome that the first n attempts of a batch had for one event. */
  function Tried(batch: seq<EventId>, outcomes: seq<bool>, n: nat, e: EventId): Option<bool>
    requires n <= |batch| && n <= |outcomes|
  {
    if n == 0 then None
    else if batch[n - 1] == e then Some(outcomes[n - 1])
    else Tried(batch, outcomes, n - 1, e)
  }

  lemma {:induction false} TriedAt(batch: seq<EventId>, outcomes: seq<bool>, n: nat, e: EventId)
    requires n <= |batch| && n <= |outcomes|
    ensures Tried(batch, outcomes, n, e).Some? <==> e in batch[..n]
    ensures Distinct(batch) ==> forall i | 0 <= i < n && batch[i] == e ::
      Tried(batch, outcomes, n, e) == Some(outcomes[i])
  {
    if n > 0 {
      TriedAt(batch, outcomes, n - 1, e);
      assert batch[..n] == batch[..n - 1] + [batch[n - 1]];
    }
  }

  /** A settled batch attempts each of its rows once, and leaves one dead-letter row for each that it gives up on. */
  lemma {:induction false} SettleEffect(max: nat, db: Db, batch: seq<EventId>, outcomes: seq<bool>, n: nat,
      now: Instant, e: EventId)
    requires n <= |batch| && n <= |outcomes| && Distinct(batch) && e in db.outbox
    requires Tried(batch, outcomes, n, e).Some? ==> db.outbox[e].status.Waiting?
    ensures var after := Settle(max, db, batch, outcomes, n, now);
            e in after.outbox
            && match Tried(batch, outcomes, n, e)
               case None => after.outbox[e] == db.outbox[e] && Abandoned(after.dead, e) == Abandoned(db.dead, e)
               case Some(ok) =>
                 var row := Attempted(max, db.outbox[e], ok, now);
                 after.outbox[e] == row
                 && Abandoned(after.dead, e) == Abandoned(db.dead, e) + if row.status.DeadLettered? then 1 else 0
  {
    if n > 0 {
      var b := batch[n - 1];
      if b == e {
        TriedAt(batch, outcomes, n - 1, e);
        assert e !in batch[..n - 1];
      }
      SettleEffect(max, db, batch, outcomes, n - 1, now, e);
      SettleOneEffect(max, Settle(max, db, batch, outcomes, n - 1, now), b, outcomes[n - 1], now, e);
    }
  }

  lemma SettleOneEffect(max: nat, db: Db, b: EventId, ok: bool, now: Instant, e: EventId)
    ensures var after := SettleOne(max, db, b, ok, now);
            && (b != e ==> (e in db.outbox ==> e in after.outbox && after.outbox[e] == db.outbox[e])
                           && Abandoned(after.dead, e) == Abandoned(db.dead, e))
            && (b == e && e in db.outbox && db.outbox[e].status.Waiting? ==>
                  && e in after.outbox && after.outbox[e] == Attempted(max, db.outbox[e], ok, now)
                  && Abandoned(after.dead, e)
                     == Abandoned(db.dead, e) + if after.outbox[e].status.DeadLettered? then 1 else 0)
  {
  }

  /** Events outside the table stay outside, and no dead-letter row is written for them. */
  lemma {:induction false} SettleOutside(max: nat, db: Db, batch: seq<EventId>, outcomes: seq<bool>, n: nat,
      now: Instant, e: EventId)
    requires n <= |batch| && n <= |outcomes| && e !in db.outbox
    ensures var after := Settle(max, db, batch, outcomes, n, now);
            e !in after.outbox && Abandoned(after.dead, e) == Abandoned(db.dead, e)
  {
    if n > 0 {
      SettleOutside(max, db, batch, outcomes, n - 1, now, e);
      var before := Settle(max, db, batch, outcomes, n - 1, now);
      if batch[n - 1] in before.outbox {
        AbandonedAppend(before.dead,
            OfPublisher(batch[n - 1], Attempted(max, before.outbox[batch[n - 1]], outcomes[n - 1], now).retries), e);
      }
    }
  }

  lemma RowFrame(c: Settings, dead: seq<DeadLetter>, dead': seq<DeadLetter>, log: seq<Entry>, log': seq<Entry>,
      e: EventId, row: OutboxRow)
    requires RowOk(c, dead, log, e, row) && log <= log' && Abandoned(dead', e) == Abandoned(dead, e)
    ensures RowOk(c, dead', log', e, row)
  {
  }

  lemma AttemptedOk(c: Settings, dead: seq<DeadLetter>, dead': seq<DeadLetter>, log: seq<Entry>, e: EventId,
      row: OutboxRow, ok: bool, now: Instant)
    requires row.status.Waiting? && RowOk(c, dead, log, e, row) && (ok ==> InLog(log, e))
    requires Abandoned(dead', e) ==
             Abandoned(dead, e) + if Attempted(c.maxRetries, row, ok, now).status.DeadLettered? then 1 else 0
    ensures RowOk(c, dead', log, e, Attempted(c.maxRetries, row, ok, now))
  {
  }

  lemma CommitBatchRows(c: Settings, s: State, p: nat)
    requires Enabled(c, s, CommitBatch(p)) && RowsOk(c, s) && PublisherOk(s.db, s.log, s.publishers[p])
    ensures RowsOk(c, Next(c, s, CommitBatch(p)))
  {
    var s' := Next(c, s, CommitBatch(p));
    var pub := s.publishers[p];
    var n := |pub.batch|;
    forall e
      ensures e in s'.db.outbox ==> RowOk(c, s'.db.dead, s'.log, e, s'.db.outbox[e])
      ensures e !in s'.db.outbox ==> Abandoned(s'.db.dead, e) == 0
    {
      if e in s.db.outbox {
        TriedAt(pub.batch, pub.outcomes, n, e);
        SettleEffect(c.maxRetries, s.db, pub.batch, pub.outcomes, n, pub.now, e);
        if e in pub.batch[..n] {
          var i :| 0 <= i < n && pub.batch[i] == e;
          AttemptedOk(c, s.db.dead, s'.db.dead, s.log, e, s.db.outbox[e], pub.outcomes[i], pub.now);
        } else {
          RowFrame(c, s.db.dead, s'.db.dead, s.log, s.log, e, s.db.outbox[e]);
        }
      } else {
        SettleOutside(c.maxRetries, s.db, pub.batch, pub.outcomes, n, pub.now, e);
      }
    }
  }

  /** Apart from a batch commit, no step gives an event up on the relay's behalf. */
  lemma CommittedDead(c: Settings, s: State, l: Label, db': Db, e: EventId)
    requires Commits(c, s, l, db') && !l.CommitBatch?
    ensures Abandoned(db'.dead, e) == Abandoned(s.db.dead, e)
  {
  }

  lemma NewRowOk(c: Settings, dead: seq<DeadLetter>, log: seq<Entry>, e: EventId, row: OutboxRow)
    requires c.Valid() && row == NewRow(row.body, row.createdAt) && Abandoned(dead, e) == 0
    ensures RowOk(c, dead, log, e, row)
  {
  }

  lemma CommittedRowOk(c: Settings, s: State, l: Label, db': Db, log': seq<Entry>, e: EventId)
    requires c.Valid() && Commits(c, s, l, db') && !l.CommitBatch? && s.log <= log'
    requires if e in s.db.outbox then RowOk(c, s.db.dead, s.log, e, s.db.outbox[e]) else Abandoned(s.db.dead, e) == 0
    ensures if e in db'.outbox then RowOk(c, db'.dead, log', e, db'.outbox[e]) else Abandoned(db'.dead, e) == 0
  {
    CommittedDead(c, s, l, db', e);
    CommittedRows(c, s, l, db', e);
    hide Commits, RowOk;
    if e in s.db.outbox {
      RowFrame(c, s.db.dead, db'.dead, s.log, log', e, s.db.outbox[e]);
    } else if e in db'.outbox {
      NewRowOk(c, db'.dead, log', e, db'.outbox[e]);
    }
  }

  lemma StepRows(c: Settings, s: State, l: Label)
    requires c.Valid() && Enabled(c, s, l) && RowsOk(c, s) && PublishersOk(s) && s.log <= Next(c, s, l).log
    ensures RowsOk(c, Next(c, s, l))
  {
    hide Commits, RowOk, PublisherOk;
    if l.CommitBatch? {
      CommitBatchRows(c, s, l.p);
      return;
    }
    var s' := Next(c, s, l);
    NextCommits(c, s, l);
    forall e
      ensures e in s'.db.outbox ==> RowOk(c, s'.db.dead, s'.log, e, s'.db.outbox[e])
      ensures e !in s'.db.outbox ==> Abandoned(s'.db.dead, e) == 0
    {
      CommittedRowOk(c, s, l, s'.db, s'.log, e);
    }
  }

  lemma CommittedRows(c: Settings, s: State, l: Label, db': Db, e: EventId)
    requires Commits(c, s, l, db') && !l.CommitBatch?
    ensures e in s.db.outbox ==> e in db'.outbox && db'.outbox[e] == s.db.outbox[e]
    ensures e in db'.outbox && e !in s.db.outbox ==> var row := db'.outbox[e]; row == NewRow(row.body, row.createdAt)
  {
  }

  /** Apart from a batch commit, a step only adds rows, and it adds them waiting and untried. */
  lemma OtherRows(c: Settings, s: State, l: Label, e: EventId)
    requires Enabled(c, s, l) && !l.CommitBatch?
    ensures var s' := Next(c, s, l);
            && (e in s.db.outbox ==> e in s'.db.outbox && s'.db.outbox[e] == s.db.outbox[e])
            && (e in s'.db.outbox && e !in s.db.outbox ==>
                  var row := s'.db.outbox[e]; row == NewRow(row.body, row.createdAt))
  {
    hide Commits;
    NextCommits(c, s, l);
    CommittedRows(c, s, l, Next(c, s, l).db, e);
  }

  lemma StepPublishers(c: Settings, s: State, l: Label)
    requires Enabled(c, s, l) && PublishersOk(s) && Grows(s, Next(c, s, l))
    ensures PublishersOk(Next(c, s, l))
  {
    var s' := Next(c, s, l);
    forall p | p in s'.publishers ensures PublisherOk(s'.db, s'.log, s'.publishers[p]) {
      if p in s.publishers && s'.publishers[p] == s.publishers[p] {
        PublisherFrame(c, s, l, p);
      } else {
        PublisherMoves(c, s, l, p);
      }
    }
    PublishersApart(c, s, l);
  }

  lemma PublisherFrame(c: Settings, s: State, l: Label, p: nat)
    requires Enabled(c, s, l) && PublishersOk(s) && s.log <= Next(c, s, l).log
    requires p in s.publishers && p in Next(c, s, l).publishers
    ensures PublisherOk(Next(c, s, l).db, Next(c, s, l).log, s.publishers[p])
  {
    var s' := Next(c, s, l);
    var pub := s.publishers[p];
    forall i | 0 <= i < |pub.batch| ensures pub.batch[i] in s'.db.outbox && s'.db.outbox[pub.batch[i]].status.Waiting? {
      if l.CommitBatch? {
        var other := s.publishers[l.p];
        assert pub.batch[i] in s.publishers[p].batch;
        assert PublisherOk(s.db, s.log, other);
        TriedAt(other.batch, other.outcomes, |other.batch|, pub.batch[i]);
        SettleEffect(c.maxRetries, s.db, other.batch, other.outcomes, |other.batch|, other.now, pub.batch[i]);
      } else {
        OtherRows(c, s, l, pub.batch[i]);
      }
    }
    forall i | 0 <= i < |pub.outcomes| && pub.outcomes[i] ensures InLog(s'.log, pub.batch[i]) {
      InLogGrows(s.log, s'.log, pub.batch[i]);
    }
  }

  lemma PublisherMoves(c: Settings, s: State, l: Label, p: nat)
    requires Enabled(c, s, l) && PublishersOk(s) && s.log <= Next(c, s, l).log
    requires p in Next(c, s, l).publishers && (p in s.publishers ==> Next(c, s, l).publishers[p] != s.publishers[p])
    ensures PublisherOk(Next(c, s, l).db, Next(c, s, l).log, Next(c, s, l).publishers[p])
  {
    var s' := Next(c, s, l);
    if l.Attempt? {
      PublisherFrame(c, s, l, p);
      var pub := s.publishers[p];
      var n := |pub.outcomes|;
      if l.ok {
        assert s'.log[|s.log|].event == pub.batch[n];
        assert InLog(s'.log, pub.batch[n]);
      }
    } else {
      assert l.Poll?;
    }
  }

  lemma PublishersApart(c: Settings, s: State, l: Label)
    requires Enabled(c, s, l) && PublishersOk(s)
    ensures var s' := Next(c, s, l);
            forall p, q, e | p in s'.publishers && q in s'.publishers && p != q
                             && e in s'.publishers[p].batch :: e !in s'.publishers[q].batch
  {
    var s' := Next(c, s, l);
    if l.Poll? {
      forall q, e | q in s.publishers && e in s.publishers[q].batch ensures e !in l.batch {
        assert e in Locked(s.publishers);
      }
    } else {
      assert forall p | p in s'.publishers :: p in s.publishers && s'.publishers[p].batch == s.publishers[p].batch;
    }
  }

  lemma StepSchedulers(c: Settings, s: State, l: Label)
    requires Enabled(c, s, l) && SchedulersOk(c, s) && Grows(s, Next(c, s, l))
    ensures SchedulersOk(c, Next(c, s, l))
  {
    var s' := Next(c, s, l);
    forall k, a | k in s'.schedulers && a in s'.schedulers[k].selected
      ensures Ripe(c, s'.db, a, s'.schedulers[k].tier, s'.schedulers[k].now)
    {
      assert Ripe(c, s.db, a, s'.schedulers[k].tier, s'.schedulers[k].now);
      assert AlertGrows(s.db.alerts[a], s'.db.alerts[a]);
    }
  }

  // ---------------------------------------------------------------- every reachable state

  lemma StepKeepsInv(c: Settings, s: State, l: Label)
    requires c.Valid() && Inv(c, s) && Enabled(c, s, l)
    ensures Inv(c, Next(c, s, l)) && Grows(s, Next(c, s, l))
  {
    StepGrows(c, s, l);
    StepLedger(c, s, l);
    StepEntries(c, s, l);
    StepGroups(c, s, l);
    StepWorkers(c, s, l);
    StepRows(c, s, l);
    StepPublishers(c, s, l);
    StepSchedulers(c, s, l);
  }

  lemma StartInv(c: Settings)
    ensures Inv(c, START)
  {
    assert Facts(EMPTY) == iset{};
    forall g: Group ensures g in START.groups && GroupOk(EMPTY, [], g, START.groups[g]) {
      match g
      case ProcessorGroup =>
      case CompensationGroup =>
    }
  }

  lemma {:induction false} RunInv(c: Settings, ls: seq<Label>)
    requires Run(c, ls)
    ensures Inv(c, End(c, ls))
  {
    if |ls| == 0 {
      StartInv(c);
    } else {
      RunInv(c, ls[..|ls| - 1]);
      StepKeepsInv(c, End(c, ls[..|ls| - 1]), ls[|ls| - 1]);
    }
  }
}
