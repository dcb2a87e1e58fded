/**
 The promises of the outbox, the streams and the inbox over whole runs: no event takes effect
 twice, none is lost, and once everything has come to rest each has taken effect exactly once.
 */
module Delivery {
  import opened Collections
  import opened Domain
  import opened Ledger
  import opened LedgerInvariants
  import opened Protocol
  import opened ProtocolInvariants

  /** The step commits the business effect of event e on behalf of group g. */
  ghost predicate TakesEffect(s: State, l: Label, e: EventId, g: Group) {
    (l.Detect? || l.Compensate?) && Reads(s, l.w) && s.workers[l.w].group == g && MessageOf(s, l.w).event == e
  }

  /** How many steps of the run committed the effect of e for g. */
  ghost function EffectCount(c: Settings, ls: seq<Label>, e: EventId, g: Group): nat
    requires Run(c, ls)
  {
    if |ls| == 0 then 0
    else
      var before := ls[..|ls| - 1];
      EffectCount(c, before, e, g) + if TakesEffect(End(c, before), ls[|ls| - 1], e, g) then 1 else 0
  }

  /**
   Whatever the publishers duplicate, however many workers are past the inbox check for the same
   event, and however often messages are redelivered, an effect is committed once at the most:
   exactly when its inbox row is there.
   */
  lemma {:induction false} ExactlyOnce(c: Settings, ls: seq<Label>, e: EventId, g: Group)
    requires Run(c, ls)
    ensures EffectCount(c, ls, e, g) == if (e, g) in End(c, ls).db.inbox then 1 else 0
  {
    if |ls| > 0 {
      var before := ls[..|ls| - 1];
      ExactlyOnce(c, before, e, g);
      InboxStep(c, End(c, before), ls[|ls| - 1], e, g);
    }
  }

  /** An inbox row appears with the effect that it stands for, and in no other way. */
  lemma InboxCommit(c: Settings, s: State, l: Label, db': Db, e: EventId, g: Group)
    requires Commits(c, s, l, db')
    ensures (e, g) in db'.inbox <==> (e, g) in s.db.inbox || TakesEffect(s, l, e, g)
    ensures TakesEffect(s, l, e, g) ==> (e, g) !in s.db.inbox
  {
    if l.CommitBatch? {
      var pub := s.publishers[l.p];
      SettleSameBusiness(c.maxRetries, s.db, pub.batch, pub.outcomes, |pub.batch|, pub.now);
    }
  }

  lemma InboxStep(c: Settings, s: State, l: Label, e: EventId, g: Group)
    requires Enabled(c, s, l)
    ensures (e, g) in Next(c, s, l).db.inbox <==> (e, g) in s.db.inbox || TakesEffect(s, l, e, g)
    ensures TakesEffect(s, l, e, g) ==> (e, g) !in s.db.inbox
  {
    hide Commits;
    NextCommits(c, s, l);
    InboxCommit(c, s, l, Next(c, s, l).db, e, g);
  }

  // ---------------------------------------------------------------- no loss

  /** Where an outbox event can be: waiting, in its stream, or given up on with one dead-letter row. */
  ghost predicate RowAccounted(c: Settings, s: State, e: EventId)
    requires e in s.db.outbox
  {
    match s.db.outbox[e].status
    case Waiting => s.db.outbox[e].retries < c.maxRetries
    case Published => InLog(s.log, e)
    case DeadLettered => s.db.outbox[e].retries == c.maxRetries && Abandoned(s.db.dead, e) == 1
  }

  /** Where a stream entry can be for its group: not delivered yet, pending, or handled. */
  ghost predicate EntryAccounted(s: State, g: Group, m: nat) {
    g in s.groups && (s.groups[g].cursor <= m || m in s.groups[g].pending || Handled(s.db, s.log, g, m))
  }

  lemma NoLoss(c: Settings, ls: seq<Label>)
    requires Run(c, ls)
    ensures var s := End(c, ls);
            && (forall e | e in s.db.outbox :: RowAccounted(c, s, e))
            && (forall g, m: nat | m < |s.log| && s.log[m].Stream() == StreamFor(g) :: EntryAccounted(s, g, m))
  {
    RunInv(c, ls);
    var s := End(c, ls);
    forall e | e in s.db.outbox ensures RowAccounted(c, s, e) {
      assert RowOk(c, s.db.dead, s.log, e, s.db.outbox[e]);
    }
    forall g, m: nat | m < |s.log| && s.log[m].Stream() == StreamFor(g) ensures EntryAccounted(s, g, m) {
      assert GroupOk(s.db, s.log, g, s.groups[g]);
    }
  }

  /** Nothing waits to be relayed, delivered or acknowledged. */
  ghost predicate AtRest(s: State) {
    && (forall e | e in s.db.outbox :: !s.db.outbox[e].status.Waiting?)
    && (forall g, m: nat | m < |s.log| && s.log[m].Stream() == StreamFor(g) ::
          g in s.groups && m < s.groups[g].cursor && m !in s.groups[g].pending)
  }

  lemma EntryStream(s: State, m: nat)
    requires EntriesOk(s.db.outbox, s.log) && m < |s.log| && s.log[m].Message?
    ensures s.log[m].event in s.db.outbox && s.log[m].Stream() == StreamOf(s.db.outbox[s.log[m].event].body)
  {
  }

  /** At rest, an event that the publisher has not given up on has a copy in its stream that is handled. */
  lemma AtRestHandled(c: Settings, s: State, e: EventId, g: Group) returns (m: nat)
    requires Inv(c, s) && AtRest(s)
    requires e in s.db.outbox && !s.db.outbox[e].status.DeadLettered? && StreamOf(s.db.outbox[e].body) == StreamFor(g)
    ensures m < |s.log| && s.log[m].Message? && s.log[m].event == e && Handled(s.db, s.log, g, m)
  {
    hide LedgerInv, WorkersOk, PublishersOk, SchedulersOk, Handled;
    assert RowOk(c, s.db.dead, s.log, e, s.db.outbox[e]);
    m :| 0 <= m < |s.log| && s.log[m].Message? && s.log[m].event == e;
    EntryStream(s, m);
    assert GroupOk(s.db, s.log, g, s.groups[g]);
  }

  /** At rest and without dead letters, every event has taken effect exactly once in every group that reads it. */
  lemma AtRestAllDone(c: Settings, ls: seq<Label>, e: EventId, g: Group)
    requires Run(c, ls) && AtRest(End(c, ls)) && End(c, ls).db.dead == []
    requires e in End(c, ls).db.outbox && StreamOf(End(c, ls).db.outbox[e].body) == StreamFor(g)
    ensures (e, g) in End(c, ls).db.inbox && EffectCount(c, ls, e, g) == 1
  {
    RunInv(c, ls);
    hide Run, End, Legal, Exec, EffectCount, AtRest, LedgerInv, GroupsOk, WorkersOk, PublishersOk, SchedulersOk;
    assert RowOk(c, End(c, ls).db.dead, End(c, ls).log, e, End(c, ls).db.outbox[e]);
    var m := AtRestHandled(c, End(c, ls), e, g);
    ExactlyOnce(c, ls, e, g);
  }

  /**
   At rest, from a limit of two deliveries on, so has every event the publisher has not given up on, whatever
   garbage was buried.
   */
  lemma AtRestReadableDone(c: Settings, ls: seq<Label>, e: EventId, g: Group)
    requires Run(c, ls) && AtRest(End(c, ls)) && 2 <= c.maxDeliveries
    requires e in End(c, ls).db.outbox && !End(c, ls).db.outbox[e].status.DeadLettered?
    requires StreamOf(End(c, ls).db.outbox[e].body) == StreamFor(g)
    ensures (e, g) in End(c, ls).db.inbox && EffectCount(c, ls, e, g) == 1
  {
    RunInv(c, ls);
    hide Run, End, Legal, Exec, EffectCount, AtRest, Inv;
    var m := AtRestHandled(c, End(c, ls), e, g);
    ReadableNeverBuried(c, ls);
    ExactlyOnce(c, ls, e, g);
  }

  /** At rest and without dead letters, every submitted transaction has been processed. */
  lemma AtRestAllProcessed(c: Settings, ls: seq<Label>, t: TxnId)
    requires Run(c, ls) && AtRest(End(c, ls)) && End(c, ls).db.dead == []
    requires t in End(c, ls).db.txns
    ensures End(c, ls).db.txns[t].status.Processed?
  {
    var db := End(c, ls).db;
    RunInv(c, ls);
    var e := CreatedEvent(c, db, t);
    AtRestAllDone(c, ls, e, ProcessorGroup);
  }

  /** The one event that announces a transaction. */
  lemma CreatedEvent(c: Settings, db: Db, t: TxnId) returns (e: EventId)
    requires LedgerInv(c, db) && t in db.txns
    ensures e in db.outbox && db.outbox[e].body == TransactionCreated(t, db.txns[t].user, db.txns[t].createdAt)
    ensures forall f | f in db.outbox && db.outbox[f].body.TransactionCreated? && db.outbox[f].body.txn == t :: f == e
  {
    var body := TransactionCreated(t, db.txns[t].user, db.txns[t].createdAt);
    assert Due(db, body);
    assert body in Facts(db);
    e :| e in db.outbox && db.outbox[e].body == body;
    forall f | f in db.outbox && db.outbox[f].body.TransactionCreated? && db.outbox[f].body.txn == t ensures f == e {
      assert db.outbox[f].body in Facts(db);
      assert db.outbox[f].body == body;
    }
  }

  // ---------------------------------------------------------------- what consumers bury

  /** The consumers bury nothing but garbage. */
  ghost predicate OnlyGarbageBuried(s: State) {
    forall i | 0 <= i < |s.db.dead| && s.db.dead[i].OfConsumer? ::
      s.db.dead[i].message < |s.log| && s.log[s.db.dead[i].message].Garbage?
  }

  /** Deliveries are counted as one or two, so from a limit of two on no readable message is buried. */
  lemma {:induction false} ReadableNeverBuried(c: Settings, ls: seq<Label>)
    requires Run(c, ls) && 2 <= c.maxDeliveries
    ensures OnlyGarbageBuried(End(c, ls))
  {
    if |ls| > 0 {
      var before := ls[..|ls| - 1];
      ReadableNeverBuried(c, before);
      RunInv(c, before);
      BuriedStep(c, End(c, before), ls[|ls| - 1]);
    }
  }

  lemma BuriedCommit(c: Settings, s: State, l: Label, db': Db)
    requires Commits(c, s, l, db') && WorkersOk(c, s) && OnlyGarbageBuried(s)
    requires l.Bury? ==> s.log[s.workers[l.w].message].Garbage?
    ensures forall i | 0 <= i < |db'.dead| && db'.dead[i].OfConsumer? ::
              db'.dead[i].message < |s.log| && s.log[db'.dead[i].message].Garbage?
  {
    if l.CommitBatch? {
      var pub := s.publishers[l.p];
      SettleBuriesNothing(c.maxRetries, s.db, pub.batch, pub.outcomes, |pub.batch|, pub.now);
    } else if l.Bury? {
      assert WorkOk(c, s.db, s.log, s.workers[l.w]);
    } else {
      assert db'.dead == s.db.dead;
    }
  }

  lemma BuriedStep(c: Settings, s: State, l: Label)
    requires WorkersOk(c, s) && Enabled(c, s, l) && 2 <= c.maxDeliveries && OnlyGarbageBuried(s)
    ensures OnlyGarbageBuried(Next(c, s, l))
  {
    hide Commits, WorkersOk;
    if l.Bury? {
      BuriedIsGarbage(c, s, l.w);
    }
    NextCommits(c, s, l);
    BuriedCommit(c, s, l, Next(c, s, l).db);
    assert s.log <= Next(c, s, l).log;
  }

  lemma BuriedIsGarbage(c: Settings, s: State, w: nat)
    requires WorkersOk(c, s) && Enabled(c, s, Bury(w)) && 2 <= c.maxDeliveries
    ensures s.log[s.workers[w].message].Garbage?
  {
  }

  lemma {:induction false} SettleBuriesNothing(max: nat, db: Db, batch: seq<EventId>, outcomes: seq<bool>, n: nat,
      now: Instant)
    requires n <= |batch| && n <= |outcomes|
    ensures var after := Settle(max, db, batch, outcomes, n, now);
            db.dead <= after.dead && forall i | |db.dead| <= i < |after.dead| :: after.dead[i].OfPublisher?
  {
    if n > 0 {
      SettleBuriesNothing(max, db, batch, outcomes, n - 1, now);
    }
  }

  /** One transaction, submitted. */
  lemma FirstSubmission(c: Settings) returns (ls: seq<Label>)
    requires c.Valid()
    ensures Run(c, ls)
    ensures End(c, ls) == START.(db := InsertTransaction(EMPTY, 0, 0, "key", 0, 0))
  {
    Extend(c, [], CheckKey(0, "key"));
    ls := [] + [CheckKey(0, "key")];
    assert Without(End(c, ls).clients, 0) == map[];
    Extend(c, ls, Insert(0, 0, 0, 0, 0));
    ls := ls + [Insert(0, 0, 0, 0, 0)];
  }

  /** The same transaction relayed, its message in the stream. */
  lemma FirstMessage(c: Settings) returns (ls: seq<Label>)
    requires c.Valid()
    ensures Run(c, ls)
    ensures var s := End(c, ls);
            && s.log == [Message(0, TransactionCreated(0, 0, 0))] && s.workers == map[] && s.db.dead == []
            && ProcessorGroup in s.groups && s.groups[ProcessorGroup] == GroupState(0, {})
            && s.db.inbox == {} && s.db.outbox == map[0 := NewRow(TransactionCreated(0, 0, 0), 0)]
            && s.publishers.Keys == {0} && s.publishers[0] == Publisher([0], [true], 0)
  {
    ls := FirstSubmission(c);
    hide Run, End, Legal, Exec;
    assert Locked(End(c, ls).publishers) == {};
    Extend(c, ls, Poll(0, [0], 0));
    ls := ls + [Poll(0, [0], 0)];
    Extend(c, ls, Attempt(0, true, true));
    ls := ls + [Attempt(0, true, true)];
  }

  lemma OnlyOne(max: nat, db: Db, e: EventId, now: Instant)
    requires e in db.outbox
    ensures Settle(max, db, [e], [true], 1, now)
            == db.(outbox := db.outbox[e := Attempted(max, db.outbox[e], true, now)])
  {
    assert Settle(max, db, [e], [true], 0, now) == db;
  }

  /** And the batch committed. */
  lemma FirstPublished(c: Settings) returns (ls: seq<Label>)
    requires c.Valid()
    ensures Run(c, ls)
    ensures var s := End(c, ls);
            && s.log == [Message(0, TransactionCreated(0, 0, 0))] && s.workers == map[] && s.db.dead == []
            && s.db.inbox == {} && 0 in s.db.outbox && s.db.outbox[0].status.Published?
            && ProcessorGroup in s.groups && s.groups[ProcessorGroup] == GroupState(0, {})
  {
    ls := FirstMessage(c);
    hide Run, End, Legal, Exec;
    OnlyOne(c.maxRetries, End(c, ls).db, 0, 0);
    Extend(c, ls, CommitBatch(0));
    ls := ls + [CommitBatch(0)];
  }

  /** And its message delivered to a consumer that crashes. */
  lemma CrashedConsumer(c: Settings) returns (ls: seq<Label>)
    requires c.Valid()
    ensures Run(c, ls)
    ensures var s := End(c, ls);
            && s.log == [Message(0, TransactionCreated(0, 0, 0))] && s.workers == map[] && s.db.dead == []
            && s.db.inbox == {} && 0 in s.db.outbox && s.db.outbox[0].status.Published?
            && ProcessorGroup in s.groups && s.groups[ProcessorGroup] == GroupState(1, {0})
  {
    ls := FirstPublished(c);
    hide Run, End, Legal, Exec;
    Extend(c, ls, Deliver(0, ProcessorGroup, 0));
    ls := ls + [Deliver(0, ProcessorGroup, 0)];
    Extend(c, ls, Crash(0));
    ls := ls + [Crash(0)];
    assert End(c, ls).workers == map[];
  }

  /** With a limit of one, the first reclaim of a perfectly readable message buries it. */
  lemma OneDeliveryBuriesReadable(c: Settings) returns (ls: seq<Label>)
    requires c.Valid() && c.maxDeliveries == 1
    ensures Run(c, ls) && !OnlyGarbageBuried(End(c, ls))
  {
    ls := CrashedConsumer(c);
    hide Run, End, Legal, Exec;
    Extend(c, ls, Reclaim(1, ProcessorGroup, 0));
    ls := ls + [Reclaim(1, ProcessorGroup, 0)];
    Extend(c, ls, Bury(1));
    ls := ls + [Bury(1)];
    assert End(c, ls).db.dead[0].OfConsumer?;
  }
}
