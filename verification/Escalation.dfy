/** The escalation scheduler: one tick as the worker runs it, and how soon an overdue alert is escalated. */
module Escalation {
  import opened AlertHistory
  import opened Collections
  import opened Domain
  import opened Ledger
  import opened LedgerInvariants
  import opened Protocol
  import opened ProtocolInvariants
  import opened Storage

  /** The instant a tier measures its delay from. */
  function Since(alert: Alert, tier: Tier): Instant {
    if tier.EmailTier? then alert.createdAt else if alert.emailAt.Some? then alert.emailAt.value else 0
  }

  predicate Overdue(c: Settings, db: Db, tier: Tier, now: Instant, a: AlertId) {
    a in db.alerts && db.alerts[a].status == StatusBefore(tier) && Ripe(c, db, a, tier, now)
  }

  /** SELECT … WHERE status = expected AND overdue ORDER BY age LIMIT n FOR UPDATE SKIP LOCKED. */
  ghost predicate IsSelection(c: Settings, db: Db, tier: Tier, now: Instant, locked: set<AlertId>,
      batch: seq<AlertId>) {
    && |batch| <= c.escalationBatch && Distinct(batch)
    && (forall i | 0 <= i < |batch| :: Overdue(c, db, tier, now, batch[i]) && batch[i] !in locked)
    && (forall i, j | 0 <= i < j < |batch| :: Since(db.alerts[batch[i]], tier) <= Since(db.alerts[batch[j]], tier))
    && (forall a | Overdue(c, db, tier, now, a) && a !in locked && a !in batch ::
          |batch| == c.escalationBatch
          && forall i | 0 <= i < |batch| :: Since(db.alerts[batch[i]], tier) <= Since(db.alerts[a], tier))
  }

  /** The tables after the first n rows of a tier's loop. */
  function EscalateAll(db: Db, tier: Tier, batch: seq<AlertId>, es: seq<EventId>, n: nat, now: Instant): Db
    requires n <= |batch| && n <= |es|
  {
    if n == 0 then db
    else EscalateRow(EscalateAll(db, tier, batch, es, n - 1, now), batch[n - 1], tier, es[n - 1], now)
  }

  /** Identifiers for new events: each used once, none in use. */
  predicate Unused(db: Db, es: seq<EventId>) {
    Distinct(es) && forall i | 0 <= i < |es| :: es[i] !in db.outbox
  }

  /** The update of alert a finds the status that its tier expects. */
  predicate Movable(db: Db, tier: Tier, a: AlertId) {
    a in db.alerts && db.alerts[a].status == StatusBefore(tier)
  }

  /** How many of the first n rows of a batch that moves: the others have lost a race since they were selected. */
  function Moved(db: Db, tier: Tier, batch: seq<AlertId>, n: nat): nat
    requires n <= |batch|
  {
    if n == 0 then 0 else Moved(db, tier, batch, n - 1) + if Movable(db, tier, batch[n - 1]) then 1 else 0
  }

  /** The alert a after the first n rows of a loop over distinct alerts. */
  lemma {:induction false} AlertAfter(db: Db, tier: Tier, batch: seq<AlertId>, es: seq<EventId>, n: nat, now: Instant,
      a: AlertId)
    requires n <= |batch| && n <= |es| && Distinct(batch)
    ensures var db' := EscalateAll(db, tier, batch, es, n, now);
            && (a in db'.alerts <==> a in db.alerts)
            && (a in db.alerts ==>
                  db'.alerts[a] == if a in batch[..n] && Movable(db, tier, a) then Stamped(db.alerts[a], tier, now)
                    else db.alerts[a])
  {
    if n > 0 {
      AlertAfter(db, tier, batch, es, n - 1, now, a);
      AlertAfter(db, tier, batch, es, n - 1, now, batch[n - 1]);
      assert batch[..n] == batch[..n - 1] + [batch[n - 1]];
      assert batch[n - 1] !in batch[..n - 1];
    }
  }

  /** No row of the loop changes whether a later one moves. */
  lemma RowMoves(db: Db, tier: Tier, batch: seq<AlertId>, es: seq<EventId>, n: nat, now: Instant)
    requires n < |batch| && n <= |es| && Distinct(batch)
    ensures Movable(EscalateAll(db, tier, batch, es, n, now), tier, batch[n]) <==> Movable(db, tier, batch[n])
  {
    AlertAfter(db, tier, batch, es, n, now, batch[n]);
    assert batch[n] !in batch[..n];
  }

  /** The event identifiers in use after the first n rows. */
  lemma {:induction false} KeysAfter(db: Db, tier: Tier, batch: seq<AlertId>, es: seq<EventId>, n: nat, now: Instant)
    requires n <= |batch| && n <= |es|
    ensures EscalateAll(db, tier, batch, es, n, now).outbox.Keys <= db.outbox.Keys + Members(es[..n])
  {
    if n > 0 {
      KeysAfter(db, tier, batch, es, n - 1, now);
      assert Members(es[..n]) == Members(es[..n - 1]) + {es[n - 1]};
    }
  }

  lemma EventFree(db: Db, tier: Tier, batch: seq<AlertId>, es: seq<EventId>, n: nat, now: Instant)
    requires n < |batch| && n < |es| && Unused(db, es)
    ensures es[n] !in EscalateAll(db, tier, batch, es, n, now).outbox
  {
    KeysAfter(db, tier, batch, es, n, now);
    assert es[n] !in es[..n];
  }

  /** What a row adds: an audit row and an event if it moves, and nothing at all if it does not. */
  lemma RowAdds(db: Db, a: AlertId, tier: Tier, e: EventId, now: Instant)
    requires e !in db.outbox
    ensures var db' := EscalateRow(db, a, tier, e, now);
            if Movable(db, tier, a)
            then |db'.audits| == |db.audits| + 1 && |db'.outbox| == |db.outbox| + 1
            else db' == db
  {
  }

  /** One event and one audit row more for every row that moves. */
  lemma {:induction false} RowsAfter(db: Db, tier: Tier, batch: seq<AlertId>, es: seq<EventId>, n: nat, now: Instant)
    requires n <= |batch| && n <= |es| && Distinct(batch) && Unused(db, es)
    ensures |EscalateAll(db, tier, batch, es, n, now).audits| == |db.audits| + Moved(db, tier, batch, n)
    ensures |EscalateAll(db, tier, batch, es, n, now).outbox| == |db.outbox| + Moved(db, tier, batch, n)
    ensures Moved(db, tier, batch, n) == 0 ==> EscalateAll(db, tier, batch, es, n, now) == db
  {
    hide EscalateRow, Unused;
    if n > 0 {
      RowsAfter(db, tier, batch, es, n - 1, now);
      RowMoves(db, tier, batch, es, n - 1, now);
      EventFree(db, tier, batch, es, n - 1, now);
      RowAdds(EscalateAll(db, tier, batch, es, n - 1, now), batch[n - 1], tier, es[n - 1], now);
      hide Movable;
    }
  }

  /**
   UPDATE alerts SET status = next WHERE id = a AND status = expected RETURNING …, with audit row and event if
   a row came back.
   */
  method EscalateOne(tables: Db, a: AlertId, tier: Tier, e: EventId, now: Instant) returns (tables': Db, moved: bool)
    ensures tables' == EscalateRow(tables, a, tier, e, now)
    ensures moved <==> Movable(tables, tier, a)
  {
    tables', moved := tables, false;
    if a in tables.alerts && tables.alerts[a].status == StatusBefore(tier) {
      var alert := tables.alerts[a];
      tables' := tables'.(alerts := tables'.alerts[a := Stamped(alert, tier, now)]);
      tables' := tables'.(audits := tables'.audits + [Audit(a, From(StatusBefore(tier)), StatusAfter(tier))]);
      tables' := Enqueue(tables', e, EscalationRequested(a, alert.user, StatusAfter(tier)), now);
      moved := true;
    }
  }

  /**
   One tier of a tick: its loop of conditional updates, each with its audit row and event.  The batch is what a
   query returned; by now `tables` may have changed, and a row whose alert has moved on is passed over.
   */
  method EscalateTier(tables: Db, tier: Tier, batch: seq<AlertId>, es: seq<EventId>, now: Instant)
    returns (tables': Db, count: nat)
    requires Distinct(batch) && Unused(tables, es) && |es| == |batch|
    ensures tables' == EscalateAll(tables, tier, batch, es, |batch|, now)
    ensures count == Moved(tables, tier, batch, |batch|)
    ensures |tables'.audits| == |tables.audits| + count && |tables'.outbox| == |tables.outbox| + count
    ensures count == 0 ==> tables' == tables
  {
    tables', count := tables, 0;
    var i := 0;
    while i < |batch|
      invariant 0 <= i <= |batch| && count == Moved(tables, tier, batch, i)
      invariant tables' == EscalateAll(tables, tier, batch, es, i, now)
    {
      RowMoves(tables, tier, batch, es, i, now);
      var moved;
      tables', moved := EscalateOne(tables', batch[i], tier, es[i], now);
      if moved {
        count := count + 1;
      }
      i := i + 1;
    }
    RowsAfter(tables, tier, batch, es, |batch|, now);
  }

  /**
   One tick of both tiers in one transaction.  `email` and `slack` are what the two queries returned, on the
   tables `emailSeen` and `slackSeen` of their moment.  The tables may have changed since, but the second query
   sees the rows that this transaction has written itself, which are locked until it commits.
   */
  method RunEscalationTick(c: Settings, database: Database, email: seq<AlertId>, slack: seq<AlertId>,
      emailEvents: seq<EventId>, slackEvents: seq<EventId>, ghost emailSeen: Db, ghost slackSeen: Db,
      ghost locked: set<AlertId>, now: Instant)
    returns (emailCount: nat, slackCount: nat)
    requires IsSelection(c, emailSeen, EmailTier, now, locked, email) && |emailEvents| == |email|
    requires IsSelection(c, slackSeen, SlackTier, now, locked, slack) && |slackEvents| == |slack|
    requires Unused(database.tables, emailEvents + slackEvents)
    requires var own := EscalateAll(database.tables, EmailTier, email, emailEvents, |email|, now);
             forall a | a in email && Movable(database.tables, EmailTier, a) ::
               a in slackSeen.alerts && a in own.alerts && slackSeen.alerts[a] == own.alerts[a]
    modifies database
    ensures database.tables ==
            var middle := EscalateAll(old(database.tables), EmailTier, email, emailEvents, |email|, now);
            EscalateAll(middle, SlackTier, slack, slackEvents, |slack|, now)
    ensures emailCount == Moved(old(database.tables), EmailTier, email, |email|)
    ensures slackCount == Moved(EscalateAll(old(database.tables), EmailTier, email, emailEvents, |email|, now),
        SlackTier, slack, |slack|)
    ensures |database.tables.audits| == |old(database.tables).audits| + emailCount + slackCount
    ensures |database.tables.outbox| == |old(database.tables).outbox| + emailCount + slackCount
    ensures 0 < c.slackDelay ==> forall a | a in email && Movable(old(database.tables), EmailTier, a) :: a !in slack
  {
    ghost var before := database.tables;
    SplitUnused(before, emailEvents, slackEvents);
    var middle, after: Db;
    middle, emailCount := EscalateTier(database.tables, EmailTier, email, emailEvents, now);
    StillUnused(before, email, emailEvents, slackEvents, now);
    assert forall a | a in email && Movable(before, EmailTier, a) :: middle.alerts[a].emailAt == Some(now) by {
      forall a | a in email && Movable(before, EmailTier, a) ensures middle.alerts[a].emailAt == Some(now) {
        AlertAfter(before, EmailTier, email, emailEvents, |email|, now, a);
        assert email[..|email|] == email;
      }
    }
    after, slackCount := EscalateTier(middle, SlackTier, slack, slackEvents, now);
    if emailCount > 0 || slackCount > 0 {
      database.tables := after;
    }
  }

  lemma SplitUnused(db: Db, xs: seq<EventId>, ys: seq<EventId>)
    requires Unused(db, xs + ys)
    ensures Unused(db, xs) && Unused(db, ys)
    ensures forall i, j | 0 <= i < |xs| && 0 <= j < |ys| :: xs[i] != ys[j]
  {
    assert forall i | 0 <= i < |xs| :: (xs + ys)[i] == xs[i];
    assert forall j | 0 <= j < |ys| :: (xs + ys)[|xs| + j] == ys[j];
  }

  lemma StillUnused(db: Db, email: seq<AlertId>, xs: seq<EventId>, ys: seq<EventId>, now: Instant)
    requires Unused(db, xs + ys) && |xs| == |email|
    ensures Unused(EscalateAll(db, EmailTier, email, xs, |email|, now), ys)
  {
    SplitUnused(db, xs, ys);
    KeysAfter(db, EmailTier, email, xs, |email|, now);
  }

  /** Exactly without a slack delay is an alert ripe for the second tier in the tick that gave it the first. */
  lemma SameTickIffNoDelay(c: Settings, db: Db, a: AlertId, e: EventId, now: Instant)
    requires c.Valid() && Overdue(c, db, EmailTier, now, a)
    ensures Overdue(c, EscalateRow(db, a, EmailTier, e, now), SlackTier, now, a) <==> c.slackDelay == 0
  {
  }

  /**
   What a tier selects, in the columns of the alerts: pending ones created long enough ago, those created first before
   all others; or alerts escalated by mail long enough ago, those escalated first before all others.
   */
  lemma SelectionExact(c: Settings, db: Db, tier: Tier, now: Instant, locked: set<AlertId>, batch: seq<AlertId>,
      a: AlertId)
    requires AuditAgrees(c, db) && IsSelection(c, db, tier, now, locked, batch)
    ensures |batch| <= c.escalationBatch && forall i, j | 0 <= i < j < |batch| :: batch[i] != batch[j]
    ensures a in batch ==>
              && a in db.alerts && a !in locked
              && if tier.EmailTier?
                 then db.alerts[a].status == Pending && db.alerts[a].createdAt + c.emailDelay <= now
                 else && db.alerts[a].status == EscalatedEmail && db.alerts[a].emailAt.Some?
                      && db.alerts[a].emailAt.value + c.slackDelay <= now
    ensures tier.EmailTier? && a !in batch && a !in locked && a in db.alerts && db.alerts[a].status == Pending
            && db.alerts[a].createdAt + c.emailDelay <= now ==>
              && |batch| == c.escalationBatch
              && forall b | b in batch :: b in db.alerts && db.alerts[b].createdAt <= db.alerts[a].createdAt
    ensures tier.SlackTier? && a !in batch && a !in locked && a in db.alerts && db.alerts[a].status == EscalatedEmail
            && db.alerts[a].emailAt.Some? && db.alerts[a].emailAt.value + c.slackDelay <= now ==>
              && |batch| == c.escalationBatch
              && forall b | b in batch :: b in db.alerts && db.alerts[b].emailAt.Some?
                                          && db.alerts[b].emailAt.value <= db.alerts[a].emailAt.value
  {
    if a in db.alerts {
      assert Coherent(c, db.alerts[a]);
    }
    forall b | b in batch ensures Overdue(c, db, tier, now, b) && Coherent(c, db.alerts[b]) {
      var i :| 0 <= i < |batch| && batch[i] == b;
    }
  }

  /** The step, taken in state s by a scheduler whose tick began at `now`, updates alert a and finds its row. */
  ghost predicate Writes(c: Settings, s: State, l: Label, a: AlertId, now: Instant) {
    && l.Escalate? && l.a == a && Enabled(c, s, l) && s.schedulers[l.k].now == now && Next(c, s, l).db != s.db
  }

  /** The alert after such a step has been stamped with that instant. */
  ghost predicate StampedAt(c: Settings, x: Alert, y: Alert, now: Instant) {
    && Coherent(c, x) && Coherent(c, y)
    && exists tier :: x.status == StatusBefore(tier) && y == Stamped(x, tier, now)
  }

  lemma WritesStamp(c: Settings, ls: seq<Label>, i: nat, a: AlertId, now: Instant)
    requires Run(c, ls) && i < |ls| && Run(c, ls[..i]) && Writes(c, End(c, ls[..i]), ls[i], a, now)
    ensures Run(c, ls[..i + 1]) && a in End(c, ls[..i]).db.alerts && a in End(c, ls[..i + 1]).db.alerts
    ensures StampedAt(c, End(c, ls[..i]).db.alerts[a], End(c, ls[..i + 1]).db.alerts[a], now)
  {
    RunStep(c, ls, i);
    LostRaceWritesNothing(c, ls[..i], ls[i].k, a, ls[i].e);
    AllCoherent(c, ls[..i]);
    AllCoherent(c, ls[..i + 1]);
    var s := End(c, ls[..i]);
    assert s.db.alerts[a].status == StatusBefore(s.schedulers[ls[i].k].tier);
  }

  lemma AllCoherent(c: Settings, ls: seq<Label>)
    requires Run(c, ls)
    ensures forall a | a in End(c, ls).db.alerts :: Coherent(c, End(c, ls).db.alerts[a])
  {
    RunInv(c, ls);
  }

  lemma StampedTwice(c: Settings, x: Alert, y: Alert, x': Alert, y': Alert, now: Instant)
    requires c.Valid() && StampedAt(c, x, y, now) && AlertGrows(y, x') && StampedAt(c, x', y', now)
    ensures c.slackDelay == 0
  {
  }

  /**
   No tick moves an alert twice: two updates that both write the same alert at the same instant, be it by one
   scheduler or by several, take a slack delay of zero.
   */
  lemma NotTwiceAtOnce(c: Settings, ls: seq<Label>, i: nat, j: nat, a: AlertId, now: Instant)
    requires Run(c, ls) && i < j < |ls| && Run(c, ls[..i]) && Run(c, ls[..j])
    requires Writes(c, End(c, ls[..i]), ls[i], a, now) && Writes(c, End(c, ls[..j]), ls[j], a, now)
    ensures c.slackDelay == 0
  {
    WritesStamp(c, ls, i, a, now);
    WritesStamp(c, ls, j, a, now);
    assert ls[..j][..i + 1] == ls[..i + 1];
    RunGrows(c, ls[..j], i + 1);
    assert c.Valid();
    hide Run, End, Legal, Exec, Writes, StampedAt;
    StampedTwice(c, End(c, ls[..i]).db.alerts[a], End(c, ls[..i + 1]).db.alerts[a], End(c, ls[..j]).db.alerts[a],
                 End(c, ls[..j + 1]).db.alerts[a], now);
  }

  // ---------------------------------------------------------------- a tier is a run of the protocol

  function TierLabels(k: nat, batch: seq<AlertId>, es: seq<EventId>, n: nat): seq<Label>
    requires n <= |batch| && n <= |es|
  {
    if n == 0 then [] else TierLabels(k, batch, es, n - 1) + [Escalate(k, batch[n - 1], es[n - 1])]
  }

  /** The system after scheduler k has updated the first n rows of its batch. */
  function Halfway(s: State, k: nat, tier: Tier, batch: seq<AlertId>, es: seq<EventId>, n: nat, now: Instant): State
    requires n <= |batch| && n <= |es|
  {
    s.(db := EscalateAll(s.db, tier, batch, es, n, now),
       schedulers := s.schedulers[k := Scheduler(tier, now, Members(batch[n..]))])
  }

  ghost predicate IsRowStep(c: Settings, s: State, k: nat, tier: Tier, batch: seq<AlertId>, es: seq<EventId>, n: nat,
      now: Instant)
    requires n < |batch| && n < |es|
  {
    var t := Halfway(s, k, tier, batch, es, n, now);
    && Enabled(c, t, Escalate(k, batch[n], es[n]))
    && Next(c, t, Escalate(k, batch[n], es[n])) == Halfway(s, k, tier, batch, es, n + 1, now)
  }

  lemma FreeIsStep(c: Settings, s: State, k: nat, tier: Tier, batch: seq<AlertId>, es: seq<EventId>, n: nat,
      now: Instant)
    requires n < |batch| && n < |es| && es[n] !in EscalateAll(s.db, tier, batch, es, n, now).outbox
    requires batch[n] in Members(batch[n..]) && Members(batch[n..]) - {batch[n]} == Members(batch[n + 1..])
    ensures IsRowStep(c, s, k, tier, batch, es, n, now)
  {
  }

  lemma SelectedShrinks(batch: seq<AlertId>, n: nat)
    requires n < |batch| && Distinct(batch)
    ensures batch[n] in Members(batch[n..]) && Members(batch[n..]) - {batch[n]} == Members(batch[n + 1..])
  {
    assert batch[n..] == [batch[n]] + batch[n + 1..];
    assert batch[n] !in batch[n + 1..];
  }

  ghost predicate ReachesHalfway(c: Settings, s: State, k: nat, tier: Tier, batch: seq<AlertId>, es: seq<EventId>,
      n: nat, now: Instant)
    requires n <= |batch| && n <= |es|
  {
    && Legal(c, s, TierLabels(k, batch, es, n))
    && Exec(c, s, TierLabels(k, batch, es, n)) == Halfway(s, k, tier, batch, es, n, now)
  }

  lemma RowReaches(c: Settings, s: State, k: nat, tier: Tier, batch: seq<AlertId>, es: seq<EventId>, n: nat,
      now: Instant)
    requires n < |batch| && n < |es|
    requires ReachesHalfway(c, s, k, tier, batch, es, n, now) && IsRowStep(c, s, k, tier, batch, es, n, now)
    ensures ReachesHalfway(c, s, k, tier, batch, es, n + 1, now)
  {
    ExtendTo(c, s, TierLabels(k, batch, es, n), Halfway(s, k, tier, batch, es, n, now),
             Escalate(k, batch[n], es[n]), Halfway(s, k, tier, batch, es, n + 1, now));
  }

  lemma {:induction false} RowsAreSteps(c: Settings, s: State, k: nat, tier: Tier, batch: seq<AlertId>,
      es: seq<EventId>, n: nat, now: Instant)
    requires n <= |batch| == |es|
    requires forall i | 0 <= i < |batch| :: IsRowStep(c, s, k, tier, batch, es, i, now)
    requires ReachesHalfway(c, s, k, tier, batch, es, 0, now)
    ensures ReachesHalfway(c, s, k, tier, batch, es, n, now)
  {
    hide ReachesHalfway, IsRowStep;
    if n > 0 {
      RowsAreSteps(c, s, k, tier, batch, es, n - 1, now);
      RowReaches(c, s, k, tier, batch, es, n - 1, now);
    }
  }

  /**
   What one tier of a tick does to the tables, a scheduler does in the protocol's own steps, from whatever state
   its selection has come to meet: here s, in which it holds the batch it has selected earlier.
   */
  lemma TierIsRun(c: Settings, s: State, k: nat, tier: Tier, batch: seq<AlertId>, es: seq<EventId>, now: Instant)
    requires |batch| == |es| && Distinct(batch) && Unused(s.db, es)
    requires k in s.schedulers && s.schedulers[k] == Scheduler(tier, now, Members(batch))
    ensures var ls := TierLabels(k, batch, es, |batch|) + [Finish(k)];
            Legal(c, s, ls)
            && Exec(c, s, ls) == s.(db := EscalateAll(s.db, tier, batch, es, |batch|, now),
                schedulers := Without(s.schedulers, k))
  {
    assert ReachesHalfway(c, s, k, tier, batch, es, 0, now) by {
      assert batch[0..] == batch;
      assert s.schedulers[k := Scheduler(tier, now, Members(batch))] == s.schedulers;
    }
    forall n | 0 <= n < |batch| ensures IsRowStep(c, s, k, tier, batch, es, n, now) {
      EventFree(s.db, tier, batch, es, n, now);
      SelectedShrinks(batch, n);
      FreeIsStep(c, s, k, tier, batch, es, n, now);
    }
    hide IsRowStep;
    RowsAreSteps(c, s, k, tier, batch, es, |batch|, now);
    var t := Halfway(s, k, tier, batch, es, |batch|, now);
    assert Without(t.schedulers, k) == Without(s.schedulers, k);
    ExtendTo(c, s, TierLabels(k, batch, es, |batch|), t, Finish(k),
        s.(db := t.db, schedulers := Without(s.schedulers, k)));
  }

  // ---------------------------------------------------------------- bounded wait

  /** The other pending alerts at least as old as the instant. */
  ghost function Ahead(db: Db, a: AlertId, since: Instant): set<AlertId> {
    set b | b in db.alerts && b != a && db.alerts[b].status.Pending? && db.alerts[b].createdAt <= since
  }

  /** The batch of the email tier is what the query returns, and alert a, created at `since`, is overdue for it. */
  ghost predicate TrueSelection(c: Settings, db: Db, now: Instant, selected: set<AlertId>, since: Instant) {
    since + c.emailDelay <= now && exists batch: seq<AlertId> ::
      IsSelection(c, db, EmailTier, now, {}, batch) && selected == Members(batch)
  }

  /**
   One tick at a time, which selects as its query does and updates every row it has selected, and no alert raised
   is as old as `since`.
   */
  ghost predicate Orderly(c: Settings, s: State, l: Label, since: Instant)
    requires Enabled(c, s, l)
  {
    && (l.Select? ==> s.schedulers == map[] && (l.tier.EmailTier? ==> TrueSelection(c, s.db, l.now, l.selected, since)))
    && (l.Finish? ==> s.schedulers[l.k].selected == {})
    && forall b | b in Next(c, s, l).db.alerts && b !in s.db.alerts :: since < Next(c, s, l).db.alerts[b].createdAt
  }

  /** From step n of the run on there is one scheduler, which starts idle. */
  ghost predicate OneScheduler(c: Settings, ls: seq<Label>, n: nat, since: Instant)
    requires Run(c, ls) && n <= |ls|
  {
    if n == |ls| then End(c, ls).schedulers == map[]
    else OneScheduler(c, ls[..|ls| - 1], n, since) && Orderly(c, End(c, ls[..|ls| - 1]), ls[|ls| - 1], since)
  }

  predicate EndsEmailTier(s: State, l: Label) {
    l.Finish? && l.k in s.schedulers && s.schedulers[l.k].tier.EmailTier?
  }

  /** How many email tiers have been completed from step n of the run on. */
  ghost function Ticks(c: Settings, ls: seq<Label>, n: nat): nat
    requires Run(c, ls) && n <= |ls|
  {
    if n == |ls| then 0
    else Ticks(c, ls[..|ls| - 1], n) + if EndsEmailTier(End(c, ls[..|ls| - 1]), ls[|ls| - 1]) then 1 else 0
  }

  /** A tick in progress that has passed over a has a full batch of alerts ahead of it, some of them updated already. */
  ghost predicate PassesOver(c: Settings, s: State, k: nat, a: AlertId, since: Instant, left: int)
    requires k in s.schedulers
  {
    var selected := s.schedulers[k].selected;
    c.escalationBatch - |selected| + |Ahead(s.db, a, since) + selected| <= left
  }

  /** Alert a is pending, and no more alerts are ahead of it than the ticks so far have left. */
  ghost predicate StillWaits(c: Settings, s: State, a: AlertId, since: Instant, left: int) {
    && a in s.db.alerts && s.db.alerts[a].status.Pending? && s.db.alerts[a].createdAt == since
    && |Ahead(s.db, a, since)| <= left
    && (forall k, l | k in s.schedulers && l in s.schedulers :: k == l)
    && (forall k | k in s.schedulers && s.schedulers[k].tier.EmailTier? && a !in s.schedulers[k].selected ::
          PassesOver(c, s, k, a, since, left))
  }

  /** A step raises no alert as old, and never makes an alert pending again. */
  lemma AheadShrinks(c: Settings, s: State, l: Label, db': Db, a: AlertId, since: Instant)
    requires Commits(c, s, l, db') && forall b | b in db'.alerts && b !in s.db.alerts :: since < db'.alerts[b].createdAt
    ensures Ahead(db', a, since) <= Ahead(s.db, a, since)
    ensures l.Escalate? && l.k in s.schedulers && s.schedulers[l.k].tier.EmailTier? ==> l.a !in Ahead(db', a, since)
    ensures OpenBefore(s, l, db', a)
  {
    hide Commits;
    OpenStep(c, s, l, db', a);
    forall b | b in Ahead(db', a, since) ensures b in Ahead(s.db, a, since) {
      OpenStep(c, s, l, db', b);
    }
    if l.Escalate? && l.k in s.schedulers && s.schedulers[l.k].tier.EmailTier? {
      OpenStep(c, s, l, db', l.a);
    }
  }

  /** An alert that is pending after a step was so before, unless the step has raised it. */
  ghost predicate OpenBefore(s: State, l: Label, db': Db, a: AlertId) {
    && (a in db'.alerts && a in s.db.alerts && db'.alerts[a].status.Pending? ==>
          s.db.alerts[a].status.Pending? && db'.alerts[a].createdAt == s.db.alerts[a].createdAt)
    && (l.Escalate? && l.k in s.schedulers && s.schedulers[l.k].tier.EmailTier? && l.a == a && a in db'.alerts ==>
          !db'.alerts[a].status.Pending?)
  }

  lemma OpenStep(c: Settings, s: State, l: Label, db': Db, a: AlertId)
    requires Commits(c, s, l, db')
    ensures OpenBefore(s, l, db', a)
  {
    if l.CommitBatch? {
      var pub := s.publishers[l.p];
      SettleSameBusiness(c.maxRetries, s.db, pub.batch, pub.outcomes, |pub.batch|, pub.now);
    }
  }

  lemma SelectPasses(c: Settings, db: Db, now: Instant, batch: seq<AlertId>, a: AlertId, since: Instant)
    requires Overdue(c, db, EmailTier, now, a) && db.alerts[a].createdAt == since
    requires IsSelection(c, db, EmailTier, now, {}, batch) && a !in batch
    ensures |Members(batch)| == c.escalationBatch && Members(batch) <= Ahead(db, a, since)
  {
    MembersCard(batch);
    forall b | b in Members(batch) ensures b in Ahead(db, a, since) {
      var i :| 0 <= i < |batch| && batch[i] == b;
      assert Overdue(c, db, EmailTier, now, batch[i]);
    }
  }

  /** An updated row leaves the batch, and is ahead of nobody any more. */
  lemma RowPasses(ahead: set<AlertId>, ahead': set<AlertId>, selected: set<AlertId>, b: AlertId)
    requires ahead' <= ahead && b in selected && b !in ahead'
    ensures |selected - {b}| == |selected| - 1
    ensures |ahead' + (selected - {b})| <= |ahead + selected| - 1
  {
    CardGrows(ahead' + (selected - {b}), (ahead + selected) - {b});
  }

  /** The schedulers after a step. */
  lemma SchedulersStep(c: Settings, s: State, l: Label)
    requires Enabled(c, s, l)
    ensures Next(c, s, l).schedulers ==
            if l.Select? then s.schedulers[l.k := Scheduler(l.tier, l.now, l.selected)]
            else if l.Escalate? then
              s.schedulers[l.k := s.schedulers[l.k].(selected := s.schedulers[l.k].selected - {l.a})]
            else if l.Finish? then Without(s.schedulers, l.k)
            else s.schedulers
    ensures l.Escalate? ==> l.k in s.schedulers && l.a in s.schedulers[l.k].selected
    ensures l.Finish? ==> l.k in s.schedulers
  {
  }

  /** In t alert a is pending as it was, and nobody has joined those ahead of it. */
  ghost predicate Follows(s: State, t: State, a: AlertId, since: Instant) {
    && a in t.db.alerts && t.db.alerts[a].status.Pending? && t.db.alerts[a].createdAt == since
    && Ahead(t.db, a, since) <= Ahead(s.db, a, since)
  }

  lemma SelectWaits(c: Settings, s: State, t: State, k: nat, tier: Tier, now: Instant, selected: set<AlertId>,
      a: AlertId, since: Instant, left: int)
    requires StillWaits(c, s, a, since, left) && t.db == s.db && s.schedulers == map[]
    requires t.schedulers == map[k := Scheduler(tier, now, selected)]
    requires tier.EmailTier? ==> TrueSelection(c, s.db, now, selected, since)
    ensures StillWaits(c, t, a, since, left)
  {
    if tier.EmailTier? && a !in selected {
      var batch: seq<AlertId> :| IsSelection(c, s.db, EmailTier, now, {}, batch) && selected == Members(batch);
      SelectPasses(c, s.db, now, batch, a, since);
      assert Ahead(s.db, a, since) + selected == Ahead(s.db, a, since);
    }
  }

  lemma EscalateWaits(c: Settings, s: State, t: State, k: nat, b: AlertId, a: AlertId, since: Instant, left: int)
    requires StillWaits(c, s, a, since, left) && Follows(s, t, a, since)
    requires k in s.schedulers && b in s.schedulers[k].selected
    requires t.schedulers == s.schedulers[k := s.schedulers[k].(selected := s.schedulers[k].selected - {b})]
    requires s.schedulers[k].tier.EmailTier? ==> b != a && b !in Ahead(t.db, a, since)
    ensures StillWaits(c, t, a, since, left)
  {
    CardGrows(Ahead(t.db, a, since), Ahead(s.db, a, since));
    hide Ahead;
    if s.schedulers[k].tier.EmailTier? {
      RowPasses(Ahead(s.db, a, since), Ahead(t.db, a, since), s.schedulers[k].selected, b);
    }
  }

  lemma FinishWaits(c: Settings, s: State, t: State, k: nat, a: AlertId, since: Instant, left: int)
    requires StillWaits(c, s, a, since, left) && t.db == s.db && k in s.schedulers && s.schedulers[k].selected == {}
    requires t.schedulers == Without(s.schedulers, k)
    ensures StillWaits(c, t, a, since, left - if s.schedulers[k].tier.EmailTier? then c.escalationBatch else 0)
  {
    assert Ahead(s.db, a, since) + {} == Ahead(s.db, a, since);
    assert t.schedulers == map[];
  }

  lemma OtherWaits(c: Settings, s: State, t: State, a: AlertId, since: Instant, left: int)
    requires StillWaits(c, s, a, since, left) && Follows(s, t, a, since) && t.schedulers == s.schedulers
    ensures StillWaits(c, t, a, since, left)
  {
    CardGrows(Ahead(t.db, a, since), Ahead(s.db, a, since));
    hide Ahead;
    forall k | k in s.schedulers
      ensures |Ahead(t.db, a, since) + s.schedulers[k].selected| <= |Ahead(s.db, a, since) + s.schedulers[k].selected|
    {
      CardGrows(Ahead(t.db, a, since) + s.schedulers[k].selected, Ahead(s.db, a, since) + s.schedulers[k].selected);
    }
  }

  lemma StepWaits(c: Settings, s: State, l: Label, a: AlertId, since: Instant, left: int)
    requires Enabled(c, s, l) && Orderly(c, s, l, since) && StillWaits(c, s, a, since, left)
    requires a in Next(c, s, l).db.alerts && Next(c, s, l).db.alerts[a].status.Pending?
    ensures StillWaits(c, Next(c, s, l), a, since, left - if EndsEmailTier(s, l) then c.escalationBatch else 0)
  {
    var t := Next(c, s, l);
    NextCommits(c, s, l);
    SchedulersStep(c, s, l);
    AheadShrinks(c, s, l, t.db, a, since);
    assert Follows(s, t, a, since) && ((l.Select? || l.Finish?) ==> t.db == s.db);
    hide Enabled, Next, Commits, Ahead, StillWaits, TrueSelection;
    if l.Select? {
      SelectWaits(c, s, t, l.k, l.tier, l.now, l.selected, a, since, left);
    } else if l.Escalate? {
      EscalateWaits(c, s, t, l.k, l.a, a, since, left);
    } else if l.Finish? {
      FinishWaits(c, s, t, l.k, a, since, left);
    } else {
      OtherWaits(c, s, t, a, since, left);
    }
  }

  /** One more step of the run. */
  lemma WaitsOneMore(c: Settings, ls: seq<Label>, l: Label, a: AlertId, since: Instant, left: int)
    requires Run(c, ls + [l]) && Run(c, ls) && Enabled(c, End(c, ls), l) && Orderly(c, End(c, ls), l, since)
    requires StillWaits(c, End(c, ls), a, since, left)
    requires a in End(c, ls + [l]).db.alerts && End(c, ls + [l]).db.alerts[a].status.Pending?
    ensures StillWaits(c, End(c, ls + [l]), a, since,
                       left - if EndsEmailTier(End(c, ls), l) then c.escalationBatch else 0)
  {
    assert End(c, ls + [l]) == Next(c, End(c, ls), l) by {
      assert (ls + [l])[..|ls|] == ls;
    }
    hide Run, End, Legal, Exec, StillWaits, Enabled, Next, Orderly, EndsEmailTier;
    StepWaits(c, End(c, ls), l, a, since, left);
  }

  function Left(w: nat, ticks: nat, batch: nat): int {
    w - ticks * batch
  }

  lemma LeftLess(w: nat, ticks: nat, batch: nat)
    ensures Left(w, ticks + 1, batch) == Left(w, ticks, batch) - batch
  {
    OneMore(ticks, batch);
  }

  lemma WaitsAtFirst(c: Settings, ls: seq<Label>, a: AlertId, since: Instant)
    requires Run(c, ls) && OneScheduler(c, ls, |ls|, since)
    requires a in End(c, ls).db.alerts && End(c, ls).db.alerts[a].status.Pending? &&
      End(c, ls).db.alerts[a].createdAt == since
    ensures StillWaits(c, End(c, ls), a, since,
        Left(|Ahead(End(c, ls).db, a, since)|, Ticks(c, ls, |ls|), c.escalationBatch))
  {
  }

  lemma LastStep(c: Settings, ls: seq<Label>, n: nat, since: Instant)
    requires Run(c, ls) && n < |ls| && OneScheduler(c, ls, n, since)
    ensures var before, l := ls[..|ls| - 1], ls[|ls| - 1];
            && Run(c, before) && OneScheduler(c, before, n, since)
            && Enabled(c, End(c, before), l) && Orderly(c, End(c, before), l, since)
            && Ticks(c, ls, n) == Ticks(c, before, n) + if EndsEmailTier(End(c, before), l) then 1 else 0
  {
  }

  lemma {:induction false} WaitShrinks(c: Settings, ls: seq<Label>, n: nat, a: AlertId, since: Instant, w: nat)
    requires Run(c, ls) && n <= |ls| && Run(c, ls[..n]) && a in End(c, ls[..n]).db.alerts
    requires since == End(c, ls[..n]).db.alerts[a].createdAt && OneScheduler(c, ls, n, since)
    requires w == |Ahead(End(c, ls[..n]).db, a, since)|
    requires a in End(c, ls).db.alerts && End(c, ls).db.alerts[a].status.Pending?
    ensures StillWaits(c, End(c, ls), a, since, Left(w, Ticks(c, ls, n), c.escalationBatch))
  {
    hide StillWaits, Ahead, Enabled, Orderly, EndsEmailTier, Ticks, Left, Run, End, Legal, Exec, OneScheduler;
    if n == |ls| {
      assert ls[..n] == ls;
      WaitsAtFirst(c, ls, a, since);
    } else {
      var before, l := ls[..|ls| - 1], ls[|ls| - 1];
      assert before[..n] == ls[..n] && ls == before + [l];
      LastStep(c, ls, n, since);
      Earlier(c, ls, n, a);
      WaitShrinks(c, before, n, a, since, w);
      WaitsOneMore(c, before, l, a, since, Left(w, Ticks(c, before, n), c.escalationBatch));
      LeftLess(w, Ticks(c, before, n), c.escalationBatch);
    }
  }

  /** An alert that is pending now was pending one step ago, if it was there at step n. */
  lemma Earlier(c: Settings, ls: seq<Label>, n: nat, a: AlertId)
    requires Run(c, ls) && n < |ls| && Run(c, ls[..n]) && a in End(c, ls[..n]).db.alerts
    requires a in End(c, ls).db.alerts && End(c, ls).db.alerts[a].status.Pending?
    ensures a in End(c, ls[..|ls| - 1]).db.alerts && End(c, ls[..|ls| - 1]).db.alerts[a].status.Pending?
  {
    var before := ls[..|ls| - 1];
    assert before[..n] == ls[..n];
    RunGrows(c, before, n);
    NextCommits(c, End(c, before), ls[|ls| - 1]);
    OpenStep(c, End(c, before), ls[|ls| - 1], End(c, ls).db, a);
  }

  /**
   In a run that goes on from step n with one scheduler, whose ticks find the alert overdue, and with nothing older
   raised, an alert with w others at least as old ahead of it has left PENDING by the time w / BATCH + 1 ticks of
   the email tier have been completed.
   */
  lemma BoundedWait(c: Settings, ls: seq<Label>, n: nat, a: AlertId)
    requires Run(c, ls) && n <= |ls| && Run(c, ls[..n]) && a in End(c, ls[..n]).db.alerts
    requires OneScheduler(c, ls, n, End(c, ls[..n]).db.alerts[a].createdAt)
    requires var x := End(c, ls[..n]).db;
             |Ahead(x, a, x.alerts[a].createdAt)| / c.escalationBatch < Ticks(c, ls, n)
    ensures a in End(c, ls).db.alerts && !End(c, ls).db.alerts[a].status.Pending?
  {
    var x := End(c, ls[..n]).db;
    var w := |Ahead(x, a, x.alerts[a].createdAt)|;
    RunGrows(c, ls, n);
    if End(c, ls).db.alerts[a].status.Pending? {
      WaitShrinks(c, ls, n, a, x.alerts[a].createdAt, w);
      Overshoot(w, c.escalationBatch, Ticks(c, ls, n));
    }
  }
}
