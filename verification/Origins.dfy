/**
 Where the rows come from.  Every outbox row and every transaction was added by exactly one step of the run and says
 what that step was about; every instant that a row carries is the instant of the step that wrote it.
 */
module Origins {
  import opened Collections
  import opened Domain
  import opened Ledger
  import opened LedgerInvariants
  import opened Protocol
  import opened ProtocolInvariants
  import opened AlertHistory

  /** The instant at which a service takes a step that writes one. */
  function InstantOf(s: State, l: Label): Instant {
    match l
    case Insert(_, _, _, _, now) => now
    case Detect(_, _, _, _, now) => now
    case Resolve(_, _, _, _, now) => now
    case Escalate(k, _, _) => if k in s.schedulers then s.schedulers[k].now else 0
    case CommitBatch(p) => if p in s.publishers then s.publishers[p].now else 0
    case _ => 0
  }

  // ---------------------------------------------------------------- events

  /** The step announces what it has done by event e, in the stream for it. */
  ghost predicate Announces(s: State, l: Label, e: EventId, body: EventBody) {
    match l
    case Insert(_, t, e', user, now) =>
      e == e' && body == TransactionCreated(t, user, now) && StreamOf(body) == Transactions
    case Detect(w, d, a, e', _) =>
      && e == e' && d.shouldAlert && Reads(s, w) && MessageOf(s, w).body.TransactionCreated?
      && body == AlertCreated(a, MessageOf(s, w).body.txn, MessageOf(s, w).body.user) && StreamOf(body) == Alerts
    case Resolve(a, target, e', e2, _) =>
      && a in s.db.alerts
      && if e == e' then body == AlertResolved(a, s.db.alerts[a].user, target) && StreamOf(body) == Alerts
         else && e == e2 && target.FalsePositive?
              && body == RiskRecalculate(s.db.alerts[a].user, a) && StreamOf(body) == Stream.Compensation
    case Escalate(k, a, e') =>
      && e == e' && k in s.schedulers && a in s.db.alerts && StreamOf(body) == Escalations
      && body == EscalationRequested(a, s.db.alerts[a].user,
                                     if s.schedulers[k].tier.EmailTier? then EscalatedEmail else EscalatedSlack)
    case _ => false
  }

  lemma EventCommitted(c: Settings, s: State, l: Label, db': Db, e: EventId)
    requires Commits(c, s, l, db') && e in db'.outbox && e !in s.db.outbox
    ensures Announces(s, l, e, db'.outbox[e].body)
    ensures db'.outbox[e] == OutboxRow(db'.outbox[e].body, Waiting, 0, InstantOf(s, l), None)
  {
    if l.CommitBatch? {
      var pub := s.publishers[l.p];
      SettleSameBusiness(c.maxRetries, s.db, pub.batch, pub.outcomes, |pub.batch|, pub.now);
    }
  }

  lemma EventAdded(c: Settings, s: State, l: Label, e: EventId)
    requires Enabled(c, s, l) && e in Next(c, s, l).db.outbox && e !in s.db.outbox
    ensures var row := Next(c, s, l).db.outbox[e];
            Announces(s, l, e, row.body) && row == OutboxRow(row.body, Waiting, 0, InstantOf(s, l), None)
  {
    hide Commits;
    NextCommits(c, s, l);
    EventCommitted(c, s, l, Next(c, s, l).db, e);
  }

  /** Step i of the run adds event e. */
  ghost predicate AddsEvent(c: Settings, ls: seq<Label>, i: nat, e: EventId)
    requires Run(c, ls) && i < |ls|
  {
    && Run(c, ls[..i]) && Run(c, ls[..i + 1]) && Enabled(c, End(c, ls[..i]), ls[i])
    && e !in End(c, ls[..i]).db.outbox && e in End(c, ls[..i + 1]).db.outbox
  }

  /**
   Exactly one step of the run has added an event; the event announces that step, waits at first, and was created at
   the step's own instant, whatever the publishers have done with it since.
   */
  lemma EventOrigin(c: Settings, ls: seq<Label>, e: EventId) returns (i: nat)
    requires Run(c, ls) && e in End(c, ls).db.outbox
    ensures i < |ls| && AddsEvent(c, ls, i, e)
    ensures var s, row := End(c, ls[..i]), End(c, ls).db.outbox[e];
            && Announces(s, ls[i], e, row.body) && row.createdAt == InstantOf(s, ls[i])
            && End(c, ls[..i + 1]).db.outbox[e] == OutboxRow(row.body, Waiting, 0, InstantOf(s, ls[i]), None)
    ensures forall j | 0 <= j < |ls| && AddsEvent(c, ls, j, e) :: j == i
  {
    i := FirstWith(c, ls, e);
    RunStep(c, ls, i);
    EventAdded(c, End(c, ls[..i]), ls[i], e);
    RunGrows(c, ls, i + 1);
    forall j | 0 <= j < |ls| && AddsEvent(c, ls, j, e) ensures j == i {
      AddedOnce(c, ls, i, j, e);
      AddedOnce(c, ls, j, i, e);
    }
  }

  lemma AddedOnce(c: Settings, ls: seq<Label>, i: nat, j: nat, e: EventId)
    requires Run(c, ls) && i < |ls| && j < |ls| && AddsEvent(c, ls, i, e) && AddsEvent(c, ls, j, e)
    ensures i >= j
  {
    if i < j {
      assert ls[..j][..i + 1] == ls[..i + 1];
      RunGrows(c, ls[..j], i + 1);
    }
  }

  lemma {:induction false} FirstWith(c: Settings, ls: seq<Label>, e: EventId) returns (i: nat)
    requires Run(c, ls) && e in End(c, ls).db.outbox
    ensures i < |ls| && AddsEvent(c, ls, i, e)
  {
    var n := |ls| - 1;
    var before := ls[..n];
    RunStep(c, ls, n);
    assert ls[..n + 1] == ls;
    if e in End(c, before).db.outbox {
      i := FirstWith(c, before, e);
      assert before[..i] == ls[..i] && before[..i + 1] == ls[..i + 1] && before[i] == ls[i];
    } else {
      i := n;
    }
  }

  /** When an event was added, by the clock of the step that added it. */
  ghost function AddedAt(c: Settings, ls: seq<Label>, e: EventId): Instant
    requires Run(c, ls) && e in End(c, ls).db.outbox
  {
    var before := ls[..|ls| - 1];
    if e in End(c, before).db.outbox then AddedAt(c, before, e) else InstantOf(End(c, before), ls[|ls| - 1])
  }

  /** The relay's own measure of age, created_at, is that instant. */
  lemma {:induction false} AgeIsAddedAt(c: Settings, ls: seq<Label>, e: EventId)
    requires Run(c, ls) && e in End(c, ls).db.outbox
    ensures End(c, ls).db.outbox[e].createdAt == AddedAt(c, ls, e)
  {
    var before, l := ls[..|ls| - 1], ls[|ls| - 1];
    var s := End(c, before);
    assert Enabled(c, s, l) && End(c, ls) == Next(c, s, l);
    if e in s.db.outbox {
      AgeIsAddedAt(c, before, e);
      RunInv(c, before);
      StepGrows(c, s, l);
    } else {
      EventAdded(c, s, l, e);
    }
  }

  // ---------------------------------------------------------------- transactions

  lemma TransactionCommitted(c: Settings, s: State, l: Label, db': Db, t: TxnId)
    requires Commits(c, s, l, db') && t in db'.txns
    ensures t !in s.db.txns ==>
              && l.Insert? && l.t == t
              && db'.txns[t] == Txn(s.clients[l.client], l.user, l.now, Submitted, None)
    ensures t in s.db.txns ==>
              && db'.txns[t].key == s.db.txns[t].key && db'.txns[t].user == s.db.txns[t].user
              && db'.txns[t].createdAt == s.db.txns[t].createdAt
  {
    if l.CommitBatch? {
      var pub := s.publishers[l.p];
      SettleSameBusiness(c.maxRetries, s.db, pub.batch, pub.outcomes, |pub.batch|, pub.now);
    }
  }

  lemma ProcessedCommitted(c: Settings, s: State, l: Label, db': Db, t: TxnId)
    requires Commits(c, s, l, db') && t in db'.txns && t in s.db.txns
    ensures || db'.txns[t].processedAt == s.db.txns[t].processedAt
            || (l.Detect? && Reads(s, l.w) && MessageOf(s, l.w).body.TransactionCreated?
                && MessageOf(s, l.w).body.txn == t && db'.txns[t].processedAt == Some(l.now))
  {
    if l.CommitBatch? {
      var pub := s.publishers[l.p];
      SettleSameBusiness(c.maxRetries, s.db, pub.batch, pub.outcomes, |pub.batch|, pub.now);
    }
  }

  lemma TransactionStep(c: Settings, ls: seq<Label>, t: TxnId)
    requires Run(c, ls) && |ls| > 0 && t in End(c, ls).db.txns
    ensures var l, s, txn := ls[|ls| - 1], End(c, ls[..|ls| - 1]), End(c, ls).db.txns[t];
            if t !in s.db.txns
            then l.Insert? && l.t == t && l.client in s.clients
                 && txn == Txn(s.clients[l.client], l.user, l.now, Submitted, None)
            else && txn.key == s.db.txns[t].key && txn.user == s.db.txns[t].user
                 && txn.createdAt == s.db.txns[t].createdAt
                 && (txn.processedAt == s.db.txns[t].processedAt
                     || (l.Detect? && Reads(s, l.w) && MessageOf(s, l.w).body.TransactionCreated?
                         && MessageOf(s, l.w).body.txn == t && txn.processedAt == Some(l.now)))
  {
    hide Commits;
    var s, l := End(c, ls[..|ls| - 1]), ls[|ls| - 1];
    NextCommits(c, s, l);
    TransactionCommitted(c, s, l, Next(c, s, l).db, t);
    if t in s.db.txns {
      ProcessedCommitted(c, s, l, Next(c, s, l).db, t);
    }
  }

  /** A transaction is what its submission inserted: key, user and instant of one insert of the run. */
  lemma {:induction false} TransactionOrigin(c: Settings, ls: seq<Label>, t: TxnId) returns (i: nat)
    requires Run(c, ls) && t in End(c, ls).db.txns
    ensures i < |ls| && ls[i].Insert? && ls[i].t == t && Run(c, ls[..i]) && ls[i].client in End(c, ls[..i]).clients
    ensures var txn := End(c, ls).db.txns[t];
            txn.key == End(c, ls[..i]).clients[ls[i].client] && txn.user == ls[i].user && txn.createdAt == ls[i].now
  {
    var n := |ls| - 1;
    var before := ls[..n];
    TransactionStep(c, ls, t);
    if t in End(c, before).db.txns {
      i := TransactionOrigin(c, before, t);
      assert before[..i] == ls[..i];
    } else {
      i := n;
    }
  }

  /** A processed transaction carries the instant of the detection that processed it. */
  lemma {:induction false} ProcessedOrigin(c: Settings, ls: seq<Label>, t: TxnId) returns (i: nat)
    requires Run(c, ls) && t in End(c, ls).db.txns && End(c, ls).db.txns[t].processedAt.Some?
    ensures i < |ls| && ls[i].Detect? && Run(c, ls[..i]) && Reads(End(c, ls[..i]), ls[i].w)
    ensures var body := MessageOf(End(c, ls[..i]), ls[i].w).body; body.TransactionCreated? && body.txn == t
    ensures End(c, ls).db.txns[t].processedAt == Some(ls[i].now)
  {
    var n := |ls| - 1;
    var before := ls[..n];
    TransactionStep(c, ls, t);
    if t in End(c, before).db.txns && End(c, before).db.txns[t].processedAt == End(c, ls).db.txns[t].processedAt {
      i := ProcessedOrigin(c, before, t);
      assert before[..i] == ls[..i];
    } else {
      i := n;
    }
  }

  // ---------------------------------------------------------------- stamps of alerts and events

  /** What a step can do to the stamps of an alert. */
  lemma StampsCommitted(c: Settings, s: State, l: Label, db': Db, a: AlertId)
    requires Commits(c, s, l, db') && a in db'.alerts
    ensures var alert := db'.alerts[a];
            var old' := if a in s.db.alerts then s.db.alerts[a]
                        else alert.(emailAt := None, slackAt := None, resolvedAt := None);
            && (alert.emailAt == old'.emailAt
                || (l.Escalate? && l.a == a && l.k in s.schedulers && s.schedulers[l.k].tier.EmailTier?
                    && alert.emailAt == Some(s.schedulers[l.k].now)))
            && (alert.slackAt == old'.slackAt
                || (l.Escalate? && l.a == a && l.k in s.schedulers && s.schedulers[l.k].tier.SlackTier?
                    && alert.slackAt == Some(s.schedulers[l.k].now)))
            && (alert.resolvedAt == old'.resolvedAt
                || (l.Resolve? && l.a == a && alert.status == l.target && alert.resolvedAt == Some(l.now)))
  {
    if l.CommitBatch? {
      var pub := s.publishers[l.p];
      SettleSameBusiness(c.maxRetries, s.db, pub.batch, pub.outcomes, |pub.batch|, pub.now);
    }
  }

  /** The step at the end of the run wrote the stamp that is asked for. */
  ghost predicate WroteStamp(c: Settings, ls: seq<Label>, a: AlertId, tier: Option<Tier>)
    requires Run(c, ls) && |ls| > 0 && a in End(c, ls).db.alerts
  {
    var l, s, alert := ls[|ls| - 1], End(c, ls[..|ls| - 1]), End(c, ls).db.alerts[a];
    match tier
    case None => l.Resolve? && l.a == a && alert.resolvedAt == Some(l.now) && alert.status == l.target
    case Some(EmailTier) =>
      l.Escalate? && l.a == a && l.k in s.schedulers && s.schedulers[l.k].tier.EmailTier?
      && alert.emailAt == Some(s.schedulers[l.k].now)
    case Some(SlackTier) =>
      l.Escalate? && l.a == a && l.k in s.schedulers && s.schedulers[l.k].tier.SlackTier?
      && alert.slackAt == Some(s.schedulers[l.k].now)
  }

  function StampOf(alert: Alert, tier: Option<Tier>): Option<Instant> {
    match tier
    case None => alert.resolvedAt
    case Some(EmailTier) => alert.emailAt
    case Some(SlackTier) => alert.slackAt
  }

  lemma StampStep(c: Settings, ls: seq<Label>, a: AlertId, tier: Option<Tier>)
    requires Run(c, ls) && |ls| > 0 && a in End(c, ls).db.alerts && StampOf(End(c, ls).db.alerts[a], tier).Some?
    requires var s := End(c, ls[..|ls| - 1]);
             a in s.db.alerts ==> StampOf(s.db.alerts[a], tier) != StampOf(End(c, ls).db.alerts[a], tier)
    ensures WroteStamp(c, ls, a, tier)
  {
    hide Commits;
    var s, l := End(c, ls[..|ls| - 1]), ls[|ls| - 1];
    NextCommits(c, s, l);
    StampsCommitted(c, s, l, Next(c, s, l).db, a);
  }

  /**
   Every stamp of an alert is the instant of the step that set it: of a tick of the tier, or of the resolution that
   decided the status.
   */
  lemma {:induction false} StampOrigin(c: Settings, ls: seq<Label>, a: AlertId, tier: Option<Tier>) returns (i: nat)
    requires Run(c, ls) && a in End(c, ls).db.alerts && StampOf(End(c, ls).db.alerts[a], tier).Some?
    ensures i < |ls| && Run(c, ls[..i + 1]) && a in End(c, ls[..i + 1]).db.alerts
    ensures WroteStamp(c, ls[..i + 1], a, tier)
    ensures StampOf(End(c, ls).db.alerts[a], tier) == StampOf(End(c, ls[..i + 1]).db.alerts[a], tier)
  {
    var n := |ls| - 1;
    var before := ls[..n];
    assert ls[..n + 1] == ls;
    if a in End(c, before).db.alerts
       && StampOf(End(c, before).db.alerts[a], tier) == StampOf(End(c, ls).db.alerts[a], tier) {
      i := StampOrigin(c, before, a, tier);
      assert before[..i + 1] == ls[..i + 1];
    } else {
      i := n;
      StampStep(c, ls, a, tier);
    }
  }

  /** The step commits a batch in which the XADD of e was answered, and which is dated `at`. */
  ghost predicate Publishes(s: State, l: Label, e: EventId, at: Option<Instant>) {
    && l.CommitBatch? && l.p in s.publishers
    && var pub := s.publishers[l.p];
       && at == Some(pub.now)
       && exists k | 0 <= k < |pub.batch| && k < |pub.outcomes| :: pub.batch[k] == e && pub.outcomes[k]
  }

  /** A published event carries the instant of the batch that published it, which had its XADD answered. */
  lemma {:induction false} PublishedOrigin(c: Settings, ls: seq<Label>, e: EventId) returns (i: nat)
    requires Run(c, ls) && e in End(c, ls).db.outbox && End(c, ls).db.outbox[e].publishedAt.Some?
    ensures i < |ls| && Run(c, ls[..i])
    ensures Publishes(End(c, ls[..i]), ls[i], e, End(c, ls).db.outbox[e].publishedAt)
  {
    hide Publishes, Inv;
    var n := |ls| - 1;
    var before, l := ls[..n], ls[n];
    RunInv(c, before);
    assert Enabled(c, End(c, before), l) && End(c, ls) == Next(c, End(c, before), l);
    hide Enabled, Next;
    if e in End(c, before).db.outbox && End(c, before).db.outbox[e].publishedAt == End(c, ls).db.outbox[e].publishedAt {
      i := PublishedOrigin(c, before, e);
      assert before[..i] == ls[..i];
    } else {
      i := n;
      PublishedStep(c, End(c, before), l, e);
    }
  }

  lemma PublishedStep(c: Settings, s: State, l: Label, e: EventId)
    requires Inv(c, s) && Enabled(c, s, l)
    requires e in Next(c, s, l).db.outbox && Next(c, s, l).db.outbox[e].publishedAt.Some?
    requires e in s.db.outbox ==> s.db.outbox[e].publishedAt != Next(c, s, l).db.outbox[e].publishedAt
    ensures Publishes(s, l, e, Next(c, s, l).db.outbox[e].publishedAt)
  {
    hide LedgerInv, GroupsOk, WorkersOk, SchedulersOk, EntriesOk;
    if l.CommitBatch? {
      var pub := s.publishers[l.p];
      SettleSameBusiness(c.maxRetries, s.db, pub.batch, pub.outcomes, |pub.batch|, pub.now);
      TriedAt(pub.batch, pub.outcomes, |pub.batch|, e);
      SettleEffect(c.maxRetries, s.db, pub.batch, pub.outcomes, |pub.batch|, pub.now, e);
    } else {
      OtherRows(c, s, l, e);
    }
  }

  // ---------------------------------------------------------------- audit rows and dead letters

  /**
   What an audit row says about the move: a tier names the status before, a resolution says UNRESOLVED, and a
   dead-letter row of a consumer has its cause: too many deliveries, or a message that cannot be read; one of the
   publisher says that the attempts were used up.
   */
  ghost predicate RowsTruthful(c: Settings, s: State) {
    && (forall i | 0 <= i < |s.db.audits| ::
          match s.db.audits[i].after
          case EscalatedEmail => s.db.audits[i].before == From(Pending)
          case EscalatedSlack => s.db.audits[i].before == From(EscalatedEmail)
          case Pending => false
          case _ => s.db.audits[i].before == Unresolved)
    && (forall i | 0 <= i < |s.db.dead| ::
          match s.db.dead[i]
          case OfPublisher(_, retries) => retries == c.maxRetries
          case OfConsumer(g, m, n) =>
            && 1 <= n <= 2 && m < |s.log| && s.log[m].Stream() == StreamFor(g)
            && (n > c.maxDeliveries || s.log[m].Garbage?))
  }

  lemma {:induction false} SettledDead(max: nat, db: Db, batch: seq<EventId>, outcomes: seq<bool>, n: nat, now: Instant)
    requires n <= |batch| && n <= |outcomes| && 1 <= max
    requires forall e | e in db.outbox && db.outbox[e].status.Waiting? :: db.outbox[e].retries < max
    requires forall i | 0 <= i < |batch| :: batch[i] in db.outbox && db.outbox[batch[i]].status.Waiting?
    requires Distinct(batch)
    ensures var after := Settle(max, db, batch, outcomes, n, now).dead;
            && db.dead <= after
            && forall i | |db.dead| <= i < |after| :: after[i].OfPublisher? && after[i].retries == max
  {
    if n > 0 {
      SettledDead(max, db, batch, outcomes, n - 1, now);
      TriedAt(batch, outcomes, n - 1, batch[n - 1]);
      SettleEffect(max, db, batch, outcomes, n - 1, now, batch[n - 1]);
    }
  }

  lemma TruthfulCommit(c: Settings, s: State, l: Label, db': Db, log': seq<Entry>)
    requires c.Valid() && RowsTruthful(c, s) && RowsOk(c, s) && PublishersOk(s) && WorkersOk(c, s)
    requires Commits(c, s, l, db') && s.log <= log'
    requires l.Bury? ==> s.workers[l.w].deliveries > c.maxDeliveries || s.log[s.workers[l.w].message].Garbage?
    ensures RowsTruthful(c, s.(db := db', log := log'))
  {
    if l.CommitBatch? {
      var pub := s.publishers[l.p];
      assert PublisherOk(s.db, s.log, pub);
      forall e | e in s.db.outbox && s.db.outbox[e].status.Waiting? ensures s.db.outbox[e].retries < c.maxRetries {
        assert RowOk(c, s.db.dead, s.log, e, s.db.outbox[e]);
      }
      SettledDead(c.maxRetries, s.db, pub.batch, pub.outcomes, |pub.batch|, pub.now);
      SettleSameBusiness(c.maxRetries, s.db, pub.batch, pub.outcomes, |pub.batch|, pub.now);
    } else if l.Bury? {
      assert WorkOk(c, s.db, s.log, s.workers[l.w]);
    }
  }

  lemma TruthfulStep(c: Settings, s: State, l: Label)
    requires c.Valid() && RowsTruthful(c, s) && RowsOk(c, s) && PublishersOk(s) && WorkersOk(c, s) && Enabled(c, s, l)
    ensures RowsTruthful(c, Next(c, s, l))
  {
    hide Commits, RowsOk, PublishersOk, WorkersOk, Enabled, Next, RowsTruthful;
    NextCommits(c, s, l);
    LogGrows(c, s, l);
    TruthfulCommit(c, s, l, Next(c, s, l).db, Next(c, s, l).log);
    SameRows(c, s.(db := Next(c, s, l).db, log := Next(c, s, l).log), Next(c, s, l));
  }

  lemma LogGrows(c: Settings, s: State, l: Label)
    requires Enabled(c, s, l)
    ensures s.log <= Next(c, s, l).log
    ensures l.Bury? ==> l.w in s.workers && s.workers[l.w].Fetched? && s.workers[l.w].message < |s.log|
                        && (s.workers[l.w].deliveries > c.maxDeliveries || s.log[s.workers[l.w].message].Garbage?)
  {
    hide InsertTransaction, Settle, CommitDetection, CommitCompensation, EscalateRow, CommitResolution, IsPoll, Ripe;
  }

  lemma SameRows(c: Settings, s: State, t: State)
    requires s.db == t.db && s.log == t.log && RowsTruthful(c, s)
    ensures RowsTruthful(c, t)
  {
  }

  /** In every reachable state audit rows and dead-letter rows say what happened. */
  lemma {:induction false} RowsAreTruthful(c: Settings, ls: seq<Label>)
    requires Run(c, ls)
    ensures RowsTruthful(c, End(c, ls))
  {
    if |ls| > 0 {
      var before, l := ls[..|ls| - 1], ls[|ls| - 1];
      RowsAreTruthful(c, before);
      RunInv(c, before);
      assert Enabled(c, End(c, before), l) && End(c, ls) == Next(c, End(c, before), l);
      hide Enabled, Next, LedgerInv, GroupsOk, WorkersOk, SchedulersOk, EntriesOk, RowsOk, PublishersOk, RowsTruthful;
      TruthfulStep(c, End(c, before), l);
    }
  }
}
