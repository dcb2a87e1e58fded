/**
 The outbox publisher: one relay batch as the worker runs it, and how long an event can wait.
 */
module Publisher {
  import opened Collections
  import opened Domain
  import opened Ledger
  import opened LedgerInvariants
  import opened Protocol
  import opened ProtocolInvariants
  import opened Storage

  /** What XADD comes to: stored and answered, stored with the answer lost, or refused. */
  datatype Reply = Answered | AnswerLost | Refused

  function Outcomes(replies: seq<Reply>): (r: seq<bool>)
    ensures |r| == |replies|
  {
    seq(|replies|, i requires 0 <= i < |replies| => replies[i].Answered?)
  }

  /** The entries that the first n attempts of a batch left in the streams. */
  function Stored(outbox: map<EventId, OutboxRow>, ids: seq<EventId>, replies: seq<Reply>, n: nat): seq<Entry>
    requires n <= |ids| && n <= |replies|
    requires forall i | 0 <= i < |ids| :: ids[i] in outbox
  {
    if n == 0 then []
    else Stored(outbox, ids, replies, n - 1)
         + if replies[n - 1].Refused? then [] else [Message(ids[n - 1], outbox[ids[n - 1]].body)]
  }

  /** An outbox row loaded into a session. */
  class OutboxEvent {
    const id: EventId
    const body: EventBody
    const createdAt: Instant
    var status: OutboxStatus
    var retryCount: nat
    var publishedAt: Option<Instant>

    constructor (id: EventId, row: OutboxRow)
      ensures this.id == id && Row() == row
    {
      this.id, this.body, this.createdAt := id, row.body, row.createdAt;
      this.status, this.retryCount, this.publishedAt := row.status, row.retries, row.publishedAt;
    }

    function Row(): OutboxRow
      reads this
    {
      OutboxRow(body, status, retryCount, createdAt, publishedAt)
    }
  }

  function Ids(events: seq<OutboxEvent>): (r: seq<EventId>)
    ensures |r| == |events|
  {
    seq(|events|, i requires 0 <= i < |events| => events[i].id)
  }

  /** A failed attempt counts against the event; at the limit the event is dead-lettered. */
  method HandlePublishFailure(maxRetries: nat, event: OutboxEvent, added: seq<DeadLetter>)
    returns (added': seq<DeadLetter>)
    modifies event
    ensures event.status == if old(event.retryCount) + 1 >= maxRetries then DeadLettered else old(event.status)
    ensures event.retryCount == old(event.retryCount) + 1 && event.publishedAt == old(event.publishedAt)
    ensures added' ==
            if old(event.retryCount) + 1 >= maxRetries then added + [OfPublisher(event.id, event.retryCount)] else added
  {
    added' := added;
    event.retryCount := event.retryCount + 1;
    if event.retryCount >= maxRetries {
      event.status := DeadLettered;
      added' := added + [OfPublisher(event.id, event.retryCount)];
    }
  }

  /** The loaded rows written back over the table. */
  function Written(outbox: map<EventId, OutboxRow>, events: seq<OutboxEvent>): map<EventId, OutboxRow>
    reads events
  {
    map e | e in outbox :: RowIn(events, e, outbox[e])
  }

  /** The row of e among the loaded events, or the table's own. */
  function RowIn(events: seq<OutboxEvent>, e: EventId, row: OutboxRow): OutboxRow
    reads events
  {
    if |events| == 0 then row
    else if events[|events| - 1].id == e then events[|events| - 1].Row()
    else RowIn(events[..|events| - 1], e, row)
  }

  /** The loaded events are the polled rows, each loaded once. */
  ghost predicate Loaded(outbox: map<EventId, OutboxRow>, events: seq<OutboxEvent>)
    reads events
  {
    && Distinct(events) && Distinct(Ids(events))
    && forall i | 0 <= i < |events| :: events[i].id in outbox && events[i].Row() == outbox[events[i].id]
  }

  /** The attempt in hand still finds its row as it was polled. */
  lemma NextUntouched(max: nat, db: Db, ids: seq<EventId>, oks: seq<bool>, n: nat, now: Instant)
    requires n < |ids| == |oks| && Distinct(ids) && ids[n] in db.outbox
    ensures var tables := Settle(max, db, ids, oks, n, now);
            ids[n] in tables.outbox && tables.outbox[ids[n]] == db.outbox[ids[n]]
  {
    TriedAt(ids, oks, n, ids[n]);
    SettleEffect(max, db, ids, oks, n, now, ids[n]);
  }

  /** The rows in memory, once all have been attempted. */
  ghost predicate AllAttempted(max: nat, outbox: map<EventId, OutboxRow>, events: seq<OutboxEvent>, oks: seq<bool>,
      now: Instant)
    reads events
  {
    |oks| == |events|
    && forall k | 0 <= k < |events| ::
         events[k].id in outbox && events[k].Row() == Attempted(max, outbox[events[k].id], oks[k], now)
  }

  lemma {:induction false} RowInTried(max: nat, outbox: map<EventId, OutboxRow>, events: seq<OutboxEvent>,
      oks: seq<bool>, now: Instant, e: EventId)
    requires AllAttempted(max, outbox, events, oks, now) && e in outbox
    ensures RowIn(events, e, outbox[e]) ==
            match Tried(Ids(events), oks, |events|, e)
            case None => outbox[e]
            case Some(ok) => Attempted(max, outbox[e], ok, now)
  {
    if |events| > 0 {
      var n := |events| - 1;
      RowInTried(max, outbox, events[..n], oks[..n], now, e);
      TriedPrefix(Ids(events), oks, Ids(events[..n]), oks[..n], n, e);
    }
  }

  lemma {:induction false} TriedPrefix(xs: seq<EventId>, oks: seq<bool>, xs': seq<EventId>, oks': seq<bool>, n: nat,
      e: EventId)
    requires n <= |xs| && n <= |oks| && n <= |xs'| && n <= |oks'|
    requires forall i | 0 <= i < n :: xs[i] == xs'[i] && oks[i] == oks'[i]
    ensures Tried(xs, oks, n, e) == Tried(xs', oks', n, e)
  {
    if n > 0 {
      TriedPrefix(xs, oks, xs', oks', n - 1, e);
    }
  }

  lemma WrittenIsSettled(max: nat, db: Db, events: seq<OutboxEvent>, oks: seq<bool>, now: Instant)
    requires AllAttempted(max, db.outbox, events, oks, now) && Distinct(Ids(events))
    requires forall i | 0 <= i < |events| :: db.outbox[events[i].id].status.Waiting?
    ensures Written(db.outbox, events) == Settle(max, db, Ids(events), oks, |events|, now).outbox
  {
    var settled := Settle(max, db, Ids(events), oks, |events|, now).outbox;
    forall e | e in db.outbox ensures e in settled && RowIn(events, e, db.outbox[e]) == settled[e] {
      TriedAt(Ids(events), oks, |events|, e);
      RowInTried(max, db.outbox, events, oks, now, e);
      SettleEffect(max, db, Ids(events), oks, |events|, now, e);
    }
    SettleSameBusiness(max, db, Ids(events), oks, |events|, now);
  }

  function Copies(reply: Reply, id: EventId, body: EventBody): seq<Entry> {
    if reply.Refused? then [] else [Message(id, body)]
  }

  function GaveUp(row: OutboxRow, id: EventId): seq<DeadLetter> {
    if row.status.DeadLettered? then [OfPublisher(id, row.retries)] else []
  }

  /** The dead-letter rows that the first n attempts of a batch add. */
  function GivenUp(max: nat, outbox: map<EventId, OutboxRow>, ids: seq<EventId>, oks: seq<bool>, n: nat,
      now: Instant): seq<DeadLetter>
    requires n <= |ids| && n <= |oks|
    requires forall i | 0 <= i < |ids| :: ids[i] in outbox
  {
    if n == 0 then []
    else GivenUp(max, outbox, ids, oks, n - 1, now)
         + GaveUp(Attempted(max, outbox[ids[n - 1]], oks[n - 1], now), ids[n - 1])
  }

  lemma {:induction false} GivenUpIsSettled(max: nat, db: Db, ids: seq<EventId>, oks: seq<bool>, n: nat, now: Instant)
    requires n <= |ids| == |oks| && Distinct(ids)
    requires forall i | 0 <= i < |ids| :: ids[i] in db.outbox && db.outbox[ids[i]].status.Waiting?
    ensures Settle(max, db, ids, oks, n, now).dead == db.dead + GivenUp(max, db.outbox, ids, oks, n, now)
  {
    if n > 0 {
      GivenUpIsSettled(max, db, ids, oks, n - 1, now);
      NextUntouched(max, db, ids, oks, n - 1, now);
    }
  }

  /** One attempt: XADD, then the row is marked published, or the failure is counted. */
  method PublishOne(maxRetries: nat, redis: Redis, event: OutboxEvent, reply: Reply, added: seq<DeadLetter>,
      now: Instant)
    returns (added': seq<DeadLetter>)
    requires event.status.Waiting?
    modifies redis`log, event
    ensures redis.log == old(redis.log) + Copies(reply, event.id, event.body)
    ensures event.Row() == Attempted(maxRetries, old(event.Row()), reply.Answered?, now)
    ensures added' == added + GaveUp(event.Row(), event.id)
  {
    added' := added;
    if !reply.Refused? {
      redis.log := redis.log + [Message(event.id, event.body)];
    }
    if reply.Answered? {
      event.status := Published;
      event.publishedAt := Some(now);
    } else {
      added' := HandlePublishFailure(maxRetries, event, added);
    }
  }

  /** The first n loaded rows have been attempted, the others are as the poll found them. */
  ghost predicate AttemptedUpTo(max: nat, rows: map<EventId, OutboxRow>, events: seq<OutboxEvent>, oks: seq<bool>,
      n: nat, now: Instant)
    requires n <= |events| && n <= |oks|
    reads events
  {
    && (forall k | 0 <= k < |events| :: events[k].id in rows)
    && (forall k | 0 <= k < n :: events[k].Row() == Attempted(max, rows[events[k].id], oks[k], now))
    && (forall k | n <= k < |events| :: events[k].Row() == rows[events[k].id] && events[k].status.Waiting?)
  }

  /** The first n attempts have been made: in memory, in the streams since `log`, and in the rows to be added. */
  ghost predicate Progressed(max: nat, rows: map<EventId, OutboxRow>, events: seq<OutboxEvent>, replies: seq<Reply>,
      n: nat, now: Instant, log: seq<Entry>, log': seq<Entry>, added: seq<DeadLetter>)
    requires n <= |replies| <= |events|
    reads events
  {
    && AttemptedUpTo(max, rows, events, Outcomes(replies), n, now)
    && (forall k | 0 <= k < |events| :: Ids(events)[k] in rows)
    && log' == log + Stored(rows, Ids(events), replies, n)
    && added == GivenUp(max, rows, Ids(events), Outcomes(replies), n, now)
  }

  /** The turn of event n: its row moves on, and no other. */
  method PublishNth(max: nat, redis: Redis, ghost rows: map<EventId, OutboxRow>, events: seq<OutboxEvent>,
      replies: seq<Reply>, n: nat, added: seq<DeadLetter>, now: Instant, ghost log: seq<Entry>)
    returns (added': seq<DeadLetter>)
    requires n < |replies| <= |events| && Distinct(events)
    requires Progressed(max, rows, events, replies, n, now, log, redis.log, added)
    modifies redis`log, events[n]
    ensures Progressed(max, rows, events, replies, n + 1, now, log, redis.log, added')
  {
    OneMoreAttempt(max, rows, Ids(events), replies, n, now);
    hide Stored, GivenUp, Attempted, GaveUp;
    ghost var ids := Ids(events);
    added' := PublishOne(max, redis, events[n], replies[n], added, now);
    forall k | 0 <= k < |events| && k != n ensures events[k] != events[n] {
    }
    assert Ids(events) == ids;
    assert log + Stored(rows, ids, replies, n) + Copies(replies[n], ids[n], rows[ids[n]].body)
           == log + (Stored(rows, ids, replies, n) + Copies(replies[n], ids[n], rows[ids[n]].body));
  }

  /** The loop over a batch: each event attempted in turn, in memory and in the streams, until the worker is stopped. */
  method PublishEach(max: nat, redis: Redis, ghost rows: map<EventId, OutboxRow>, events: seq<OutboxEvent>,
      replies: seq<Reply>, now: Instant)
    returns (added: seq<DeadLetter>)
    requires Loaded(rows, events) && |replies| <= |events|
    requires forall i | 0 <= i < |events| :: events[i].status.Waiting?
    modifies redis`log, events
    ensures Progressed(max, rows, events, replies, |replies|, now, old(redis.log), redis.log, added)
  {
    added := [];
    NoneYet(max, rows, events, replies, now, redis.log);
    hide Progressed, Loaded;
    ghost var log := redis.log;
    for i := 0 to |replies|
      invariant Progressed(max, rows, events, replies, i, now, log, redis.log, added)
    {
      added := PublishNth(max, redis, rows, events, replies, i, added, now, log);
    }
  }

  lemma NoneYet(max: nat, rows: map<EventId, OutboxRow>, events: seq<OutboxEvent>, replies: seq<Reply>, now: Instant,
      log: seq<Entry>)
    requires Loaded(rows, events) && |replies| <= |events|
    requires forall i | 0 <= i < |events| :: events[i].status.Waiting?
    ensures Distinct(events) && Progressed(max, rows, events, replies, 0, now, log, log, [])
  {
  }

  lemma OneMoreAttempt(max: nat, rows: map<EventId, OutboxRow>, ids: seq<EventId>, replies: seq<Reply>, n: nat,
      now: Instant)
    requires n < |replies| <= |ids| && forall k | 0 <= k < |ids| :: ids[k] in rows
    ensures Stored(rows, ids, replies, n + 1)
      == Stored(rows, ids, replies, n) + Copies(replies[n], ids[n], rows[ids[n]].body)
    ensures GivenUp(max, rows, ids, Outcomes(replies), n + 1, now)
            == GivenUp(max, rows, ids, Outcomes(replies), n, now)
              + GaveUp(Attempted(max, rows[ids[n]], Outcomes(replies)[n], now), ids[n])
  {
  }

  /**
   One poll-publish-mark cycle over the events that the poll returned.  `replies` are what the XADDs come to; the
   worker is stopped before its next attempt when they end early.  The streams receive every stored attempt at
   once and keep it; the tables change in the one commit at the end, or not at all when it fails or is never
   reached.  Since the poll other rows may have changed, but those of the batch are locked.
   */
  method PublishBatch(c: Settings, database: Database, redis: Redis, ghost polled: Db, events: seq<OutboxEvent>,
      replies: seq<Reply>, commits: bool, now: Instant)
    returns (count: nat)
    requires Loaded(polled.outbox, events) && |replies| <= |events|
    requires forall i | 0 <= i < |events| :: events[i].status.Waiting?
    requires forall i | 0 <= i < |events| ::
               events[i].id in database.tables.outbox
               && database.tables.outbox[events[i].id] == polled.outbox[events[i].id]
    modifies database`tables, redis`log, events
    ensures var committed := commits && |replies| == |events|;
            && count == (if committed then |events| else 0)
            && redis.log == old(redis.log) + Stored(polled.outbox, Ids(events), replies, |replies|)
            && database.tables ==
               if committed
               then Settle(c.maxRetries, old(database.tables), Ids(events), Outcomes(replies), |events|, now)
               else old(database.tables)
  {
    var added := PublishEach(c.maxRetries, redis, polled.outbox, events, replies, now);
    count := 0;
    if commits && |replies| == |events| {
      AttemptedHere(c.maxRetries, polled.outbox, database.tables.outbox, events, replies, now);
      CommitIsSettle(c.maxRetries, database.tables, events, Outcomes(replies), added, now);
      database.tables := database.tables.(outbox := Written(database.tables.outbox, events),
                                          dead := database.tables.dead + added);
      count := |events|;
    }
  }

  /** It makes no difference whether the locked rows are taken from the tables as polled or as they are by now. */
  lemma AttemptedHere(max: nat, rows: map<EventId, OutboxRow>, rows': map<EventId, OutboxRow>, events: seq<OutboxEvent>,
      replies: seq<Reply>, now: Instant)
    requires |replies| == |events| && AttemptedUpTo(max, rows, events, Outcomes(replies), |events|, now)
    requires forall i | 0 <= i < |events| ::
               events[i].id in rows && events[i].id in rows' && rows'[events[i].id] == rows[events[i].id]
    ensures AllAttempted(max, rows', events, Outcomes(replies), now)
    ensures GivenUp(max, rows, Ids(events), Outcomes(replies), |events|, now)
            == GivenUp(max, rows', Ids(events), Outcomes(replies), |events|, now)
  {
    SameGivenUp(max, rows, rows', Ids(events), Outcomes(replies), |events|, now);
  }

  lemma {:induction false} SameGivenUp(max: nat, rows: map<EventId, OutboxRow>, rows': map<EventId, OutboxRow>,
      ids: seq<EventId>, oks: seq<bool>, n: nat, now: Instant)
    requires n <= |ids| && n <= |oks|
    requires forall i | 0 <= i < |ids| :: ids[i] in rows && ids[i] in rows' && rows'[ids[i]] == rows[ids[i]]
    ensures GivenUp(max, rows, ids, oks, n, now) == GivenUp(max, rows', ids, oks, n, now)
  {
    if n > 0 {
      SameGivenUp(max, rows, rows', ids, oks, n - 1, now);
    }
  }

  lemma CommitIsSettle(max: nat, db: Db, events: seq<OutboxEvent>, oks: seq<bool>, added: seq<DeadLetter>, now: Instant)
    requires AllAttempted(max, db.outbox, events, oks, now) && Distinct(Ids(events))
    requires forall i | 0 <= i < |events| :: db.outbox[events[i].id].status.Waiting?
    requires added == GivenUp(max, db.outbox, Ids(events), oks, |events|, now)
    ensures db.(outbox := Written(db.outbox, events), dead := db.dead + added)
      == Settle(max, db, Ids(events), oks, |events|, now)
  {
    SettleSameBusiness(max, db, Ids(events), oks, |events|, now);
    GivenUpIsSettled(max, db, Ids(events), oks, |events|, now);
    WrittenIsSettled(max, db, events, oks, now);
  }

  // ---------------------------------------------------------------- a batch is a run of the protocol

  function AttemptLabel(p: nat, reply: Reply): Label {
    Attempt(p, !reply.Refused?, reply.Answered?)
  }

  /** The last step of replica p: the commit, or the rollback when it fails or the worker is stopped. */
  function LastLabel(p: nat, commits: bool): Label {
    if commits then CommitBatch(p) else RollBack(p)
  }

  /** Poll and first n attempts of replica p, each followed by what the rest of the system does meanwhile. */
  function BatchLabels(p: nat, ids: seq<EventId>, replies: seq<Reply>, others: seq<seq<Label>>, n: nat, now: Instant)
    : seq<Label>
    requires n <= |replies| < |others|
  {
    if n == 0 then [Poll(p, ids, now)] + others[0]
    else BatchLabels(p, ids, replies, others, n - 1, now) + [AttemptLabel(p, replies[n - 1])] + others[n]
  }

  /** None of the steps is one of replica p. */
  predicate Leaves(ls: seq<Label>, p: nat) {
    forall i | 0 <= i < |ls| && (ls[i].Poll? || ls[i].Attempt? || ls[i].CommitBatch? || ls[i].RollBack?) :: ls[i].p != p
  }

  /** The rows of the batch of replica p are as in the given table. */
  predicate RowsKept(s: State, p: nat, outbox: map<EventId, OutboxRow>) {
    p in s.publishers
    && forall e | e in s.publishers[p].batch :: e in outbox && e in s.db.outbox && s.db.outbox[e] == outbox[e]
  }

  /** The row locks hold: steps of others leave the batch of a replica, and the rows in it, as they are. */
  lemma {:induction false} LocksHold(c: Settings, s: State, ls: seq<Label>, p: nat)
    requires Inv(c, s) && c.Valid() && Legal(c, s, ls) && Leaves(ls, p) && p in s.publishers
    ensures var t := Exec(c, s, ls);
            && Inv(c, t) && p in t.publishers && t.publishers[p] == s.publishers[p] && RowsKept(t, p, s.db.outbox)
  {
    if |ls| == 0 {
      assert PublisherOk(s.db, s.log, s.publishers[p]);
    } else {
      var before, l := ls[..|ls| - 1], ls[|ls| - 1];
      LocksHold(c, s, before, p);
      StepKeepsInv(c, Exec(c, s, before), l);
      LockHolds(c, Exec(c, s, before), l, p);
      hide Inv, Enabled, Next;
    }
  }

  lemma LockHolds(c: Settings, s: State, l: Label, p: nat)
    requires PublishersOk(s) && Enabled(c, s, l) && Leaves([l], p) && p in s.publishers
    ensures var t := Next(c, s, l);
            && p in t.publishers && t.publishers[p] == s.publishers[p] && RowsKept(t, p, s.db.outbox)
  {
    assert [l][0] == l;
    assert PublisherOk(s.db, s.log, s.publishers[p]);
    if l.CommitBatch? {
      var pub := s.publishers[l.p];
      assert PublisherOk(s.db, s.log, pub);
      forall e | e in s.publishers[p].batch
        ensures e in Next(c, s, l).db.outbox && Next(c, s, l).db.outbox[e] == s.db.outbox[e]
      {
        TriedAt(pub.batch, pub.outcomes, |pub.batch|, e);
        SettleEffect(c.maxRetries, s.db, pub.batch, pub.outcomes, |pub.batch|, pub.now, e);
      }
    } else {
      forall e | e in s.publishers[p].batch
        ensures e in Next(c, s, l).db.outbox && Next(c, s, l).db.outbox[e] == s.db.outbox[e]
      {
        OtherRows(c, s, l, e);
      }
    }
  }

  /** The system after replica p has polled. */
  function AfterPoll(s: State, p: nat, ids: seq<EventId>, now: Instant): State {
    s.(publishers := s.publishers[p := Publisher(ids, [], now)])
  }

  /** The system after attempt n of replica p, made in state t. */
  function AfterAttempt(t: State, p: nat, outbox: map<EventId, OutboxRow>, ids: seq<EventId>, replies: seq<Reply>,
      n: nat, now: Instant): State
    requires n < |replies| <= |ids| && ids[n] in outbox
  {
    t.(log := t.log + Copies(replies[n], ids[n], outbox[ids[n]].body),
       publishers := t.publishers[p := Publisher(ids, Outcomes(replies)[..n + 1], now)])
  }

  /** From state t on, the system when replica p is done: the batch is settled in the tables of t, or nothing is. */
  function AfterLast(max: nat, t: State, p: nat, ids: seq<EventId>, replies: seq<Reply>, commits: bool, now: Instant)
    : State
    requires commits ==> |replies| == |ids|
  {
    t.(db := if commits then Settle(max, t.db, ids, Outcomes(replies), |ids|, now) else t.db,
       publishers := Without(t.publishers, p))
  }

  /**
   Replica p polls in state s, and others take their steps between its own: `states` are those in which it makes
   its next attempt, or ends.
   */
  ghost predicate Interleaved(c: Settings, s: State, p: nat, ids: seq<EventId>, replies: seq<Reply>,
      others: seq<seq<Label>>, states: seq<State>, now: Instant) {
    && Inv(c, s) && c.Valid() && Enabled(c, s, Poll(p, ids, now))
    && |replies| <= |ids| && |others| == |states| == |replies| + 1
    && (forall i | 0 <= i < |ids| :: ids[i] in s.db.outbox)
    && (forall k | 0 <= k < |others| :: Leaves(others[k], p))
    && Reaches(c, AfterPoll(s, p, ids, now), others[0], states[0])
    && forall k | 0 <= k < |replies| ::
         Reaches(c, AfterAttempt(states[k], p, s.db.outbox, ids, replies, k, now), others[k + 1], states[k + 1])
  }

  /** What replica p has in hand before attempt n, and that nobody has changed its rows. */
  ghost predicate InHand(c: Settings, s: State, p: nat, ids: seq<EventId>, replies: seq<Reply>, n: nat, now: Instant,
      t: State)
    requires n <= |replies|
  {
    && Inv(c, t) && p in t.publishers && t.publishers[p] == Publisher(ids, Outcomes(replies)[..n], now)
    && RowsKept(t, p, s.db.outbox)
  }

  /** A step of the replica and what others do after it. */
  lemma StepAndOthers(c: Settings, s: State, ls: seq<Label>, t: State, l: Label, u: State, more: seq<Label>, v: State)
    requires Reaches(c, s, ls, t) && Moves(c, t, l, u) && Reaches(c, u, more, v)
    ensures Reaches(c, s, ls + [l] + more, v)
  {
    Reach(c, s, ls, t, l, u);
    Concat(c, s, ls + [l], more);
  }

  lemma AttemptMoves(c: Settings, s: State, p: nat, ids: seq<EventId>, replies: seq<Reply>, n: nat, now: Instant,
      t: State)
    requires n < |replies| <= |ids| && ids[n] in s.db.outbox && InHand(c, s, p, ids, replies, n, now, t)
    ensures var u := AfterAttempt(t, p, s.db.outbox, ids, replies, n, now);
            && Moves(c, t, AttemptLabel(p, replies[n]), u)
            && p in u.publishers && u.publishers[p] == Publisher(ids, Outcomes(replies)[..n + 1], now)
            && RowsKept(u, p, s.db.outbox)
  {
    hide Inv;
    var oks := Outcomes(replies);
    assert oks[..n + 1] == oks[..n] + [oks[n]];
    assert ids[n] in t.publishers[p].batch;
    hide Outcomes, InHand;
  }

  /** Poll and first n attempts, with the steps of others between them, are a run. */
  lemma {:induction false} AttemptsAreRun(c: Settings, s: State, p: nat, ids: seq<EventId>, replies: seq<Reply>,
      others: seq<seq<Label>>, states: seq<State>, n: nat, now: Instant)
    requires Interleaved(c, s, p, ids, replies, others, states, now) && n <= |replies|
    ensures Reaches(c, s, BatchLabels(p, ids, replies, others, n, now), states[n])
    ensures InHand(c, s, p, ids, replies, n, now, states[n])
  {
    hide Enabled, Next, Inv, Legal, Exec, AfterAttempt, RowsKept;
    if n == 0 {
      PollMoves(c, s, p, ids, replies, now);
      Stay(c, s);
      var u := AfterPoll(s, p, ids, now);
      StepAndOthers(c, s, [], s, Poll(p, ids, now), u, others[0], states[0]);
      assert [] + [Poll(p, ids, now)] + others[0] == BatchLabels(p, ids, replies, others, 0, now);
      OthersKeep(c, s, p, ids, replies, 0, now, u, others[0], states[0]);
    } else {
      AttemptsAreRun(c, s, p, ids, replies, others, states, n - 1, now);
      var t := states[n - 1];
      var u := AfterAttempt(t, p, s.db.outbox, ids, replies, n - 1, now);
      AttemptMoves(c, s, p, ids, replies, n - 1, now, t);
      StepAndOthers(c, s, BatchLabels(p, ids, replies, others, n - 1, now), t, AttemptLabel(p, replies[n - 1]), u,
                    others[n], states[n]);
      MovesKeep(c, t, AttemptLabel(p, replies[n - 1]), u);
      OthersKeep(c, s, p, ids, replies, n, now, u, others[n], states[n]);
    }
  }

  lemma PollMoves(c: Settings, s: State, p: nat, ids: seq<EventId>, replies: seq<Reply>, now: Instant)
    requires Inv(c, s) && c.Valid() && Enabled(c, s, Poll(p, ids, now))
    requires forall i | 0 <= i < |ids| :: ids[i] in s.db.outbox
    ensures Moves(c, s, Poll(p, ids, now), AfterPoll(s, p, ids, now))
    ensures InHand(c, s, p, ids, replies, 0, now, AfterPoll(s, p, ids, now))
  {
    StepKeepsInv(c, s, Poll(p, ids, now));
  }

  lemma MovesKeep(c: Settings, s: State, l: Label, t: State)
    requires Inv(c, s) && c.Valid() && Moves(c, s, l, t)
    ensures Inv(c, t)
  {
    StepKeepsInv(c, s, l);
  }

  lemma OthersKeep(c: Settings, s: State, p: nat, ids: seq<EventId>, replies: seq<Reply>, n: nat, now: Instant,
      u: State, ls: seq<Label>, t: State)
    requires n <= |replies| && c.Valid() && InHand(c, s, p, ids, replies, n, now, u)
    requires Reaches(c, u, ls, t) && Leaves(ls, p)
    ensures InHand(c, s, p, ids, replies, n, now, t)
  {
    hide Inv;
    LocksHold(c, u, ls, p);
  }

  /**
   What the worker's method does to tables and streams, the replica does in the protocol's own steps, whatever the
   rest of the system does between them, and whether the batch commits, is rolled back or breaks off.  Nobody has
   touched the rows of the batch by the time it commits.
   */
  lemma BatchIsRun(c: Settings, s: State, p: nat, ids: seq<EventId>, replies: seq<Reply>, others: seq<seq<Label>>,
      states: seq<State>, commits: bool, now: Instant)
    requires Interleaved(c, s, p, ids, replies, others, states, now) && (commits ==> |replies| == |ids|)
    ensures var t := states[|replies|];
            && Reaches(c, s, BatchLabels(p, ids, replies, others, |replies|, now) + [LastLabel(p, commits)],
                       AfterLast(c.maxRetries, t, p, ids, replies, commits, now))
            && forall i | 0 <= i < |ids| :: ids[i] in t.db.outbox && t.db.outbox[ids[i]] == s.db.outbox[ids[i]]
  {
    var n := |replies|;
    AttemptsAreRun(c, s, p, ids, replies, others, states, n, now);
    var t := states[n];
    var u := AfterLast(c.maxRetries, t, p, ids, replies, commits, now);
    LastMoves(c, s, p, ids, replies, commits, now, t);
    hide Interleaved, InHand, Reaches, Moves, AfterLast, BatchLabels;
    Reach(c, s, BatchLabels(p, ids, replies, others, n, now), t, LastLabel(p, commits), u);
  }

  lemma LastMoves(c: Settings, s: State, p: nat, ids: seq<EventId>, replies: seq<Reply>, commits: bool, now: Instant,
      t: State)
    requires InHand(c, s, p, ids, replies, |replies|, now, t) && (commits ==> |replies| == |ids|)
    ensures Moves(c, t, LastLabel(p, commits), AfterLast(c.maxRetries, t, p, ids, replies, commits, now))
    ensures forall i | 0 <= i < |ids| ::
              ids[i] in s.db.outbox && ids[i] in t.db.outbox && t.db.outbox[ids[i]] == s.db.outbox[ids[i]]
  {
    hide Inv;
    assert Outcomes(replies)[..|replies|] == Outcomes(replies);
    assert forall i | 0 <= i < |ids| :: ids[i] in t.publishers[p].batch;
  }

  // ---------------------------------------------------------------- a batch alone

  /** The system after replica p has polled in state s and made the first n attempts, nobody else doing anything. */
  function Midway(s: State, p: nat, ids: seq<EventId>, replies: seq<Reply>, n: nat, now: Instant): State
    requires n <= |replies| <= |ids|
    requires forall i | 0 <= i < |ids| :: ids[i] in s.db.outbox
  {
    s.(log := s.log + Stored(s.db.outbox, ids, replies, n),
       publishers := s.publishers[p := Publisher(ids, Outcomes(replies)[..n], now)])
  }

  lemma MidwayNext(s: State, p: nat, ids: seq<EventId>, replies: seq<Reply>, n: nat, now: Instant)
    requires n < |replies| <= |ids| && forall i | 0 <= i < |ids| :: ids[i] in s.db.outbox
    ensures AfterAttempt(Midway(s, p, ids, replies, n, now), p, s.db.outbox, ids, replies, n, now)
            == Midway(s, p, ids, replies, n + 1, now)
  {
    assert s.log + Stored(s.db.outbox, ids, replies, n) + Copies(replies[n], ids[n], s.db.outbox[ids[n]].body)
           == s.log + Stored(s.db.outbox, ids, replies, n + 1);
  }

  /** The labels of a batch with nothing in between. */
  function AloneLabels(p: nat, ids: seq<EventId>, replies: seq<Reply>, now: Instant): seq<Label> {
    BatchLabels(p, ids, replies, Nothing(|replies| + 1), |replies|, now) + [LastLabel(p, true)]
  }

  function Nothing(n: nat): (r: seq<seq<Label>>)
    ensures |r| == n && forall i | 0 <= i < n :: r[i] == []
  {
    seq(n, i => [])
  }

  lemma AloneIsRun(c: Settings, s: State, p: nat, ids: seq<EventId>, replies: seq<Reply>, now: Instant)
    requires Inv(c, s) && c.Valid() && Enabled(c, s, Poll(p, ids, now)) && |ids| == |replies|
    ensures forall i | 0 <= i < |ids| :: ids[i] in s.db.outbox
    ensures Reaches(c, s, AloneLabels(p, ids, replies, now),
                    s.(db := Settle(c.maxRetries, s.db, ids, Outcomes(replies), |ids|, now),
                       log := s.log + Stored(s.db.outbox, ids, replies, |ids|)))
  {
    var n := |replies|;
    PolledRows(c, s, p, ids, now);
    Midways(c, s, p, ids, replies, now);
    BatchIsRun(c, s, p, ids, replies, Nothing(n + 1), MidwayStates(s, p, ids, replies, now), true, now);
    hide Interleaved, Inv, Reaches, Stored, Settle, BatchLabels, Enabled, Next, AfterLast, Midway;
    MidwayLast(c, s, p, ids, replies, now);
  }

  lemma MidwayLast(c: Settings, s: State, p: nat, ids: seq<EventId>, replies: seq<Reply>, now: Instant)
    requires p !in s.publishers && |replies| == |ids| && forall i | 0 <= i < |ids| :: ids[i] in s.db.outbox
    ensures AfterLast(c.maxRetries, Midway(s, p, ids, replies, |ids|, now), p, ids, replies, true, now)
            == s.(db := Settle(c.maxRetries, s.db, ids, Outcomes(replies), |ids|, now),
                  log := s.log + Stored(s.db.outbox, ids, replies, |ids|))
  {
    hide Settle, Stored;
    assert Without(s.publishers[p := Publisher(ids, Outcomes(replies)[..|ids|], now)], p) == s.publishers;
  }

  lemma PolledRows(c: Settings, s: State, p: nat, ids: seq<EventId>, now: Instant)
    requires Enabled(c, s, Poll(p, ids, now))
    ensures p !in s.publishers && forall i | 0 <= i < |ids| :: ids[i] in s.db.outbox
  {
    assert forall i | 0 <= i < |ids| :: Polled(s.db.outbox, Locked(s.publishers), ids[i]);
  }

  function MidwayStates(s: State, p: nat, ids: seq<EventId>, replies: seq<Reply>, now: Instant): (r: seq<State>)
    requires |replies| <= |ids| && forall i | 0 <= i < |ids| :: ids[i] in s.db.outbox
    ensures |r| == |replies| + 1 && forall k | 0 <= k <= |replies| :: r[k] == Midway(s, p, ids, replies, k, now)
  {
    seq(|replies| + 1, k requires 0 <= k <= |replies| => Midway(s, p, ids, replies, k, now))
  }

  lemma Midways(c: Settings, s: State, p: nat, ids: seq<EventId>, replies: seq<Reply>, now: Instant)
    requires Inv(c, s) && c.Valid() && Enabled(c, s, Poll(p, ids, now)) && |ids| == |replies|
    requires forall i | 0 <= i < |ids| :: ids[i] in s.db.outbox
    ensures Interleaved(c, s, p, ids, replies, Nothing(|replies| + 1), MidwayStates(s, p, ids, replies, now), now)
  {
    hide Enabled, Next, Inv, Legal, Exec, Reaches, AfterAttempt;
    var n := |replies|;
    var states := MidwayStates(s, p, ids, replies, now);
    assert states[0] == AfterPoll(s, p, ids, now) by {
      assert s.log + Stored(s.db.outbox, ids, replies, 0) == s.log;
    }
    forall k | 0 <= k < n
      ensures Reaches(c, AfterAttempt(states[k], p, s.db.outbox, ids, replies, k, now), Nothing(n + 1)[k + 1],
                      states[k + 1])
    {
      MidwayNext(s, p, ids, replies, k, now);
      Stay(c, states[k + 1]);
    }
    Stay(c, states[0]);
  }
}
