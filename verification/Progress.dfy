/**
 Nothing gets stuck: from every reachable state, however many consumers and replicas have crashed on the way, a
 run leads on to where a given entry is handled, and to where a given event has taken effect exactly if it still
 has a chance.  Every detection on the way decides on the evidence for its message, whatever that is.
 */
module Progress {
  import opened Collections
  import opened Domain
  import opened Ledger
  import opened LedgerInvariants
  import opened Protocol
  import opened ProtocolInvariants
  import opened Delivery
  import opened Consumers
  import Publisher
  import RelayFairness

  /** The steps lead from s to t, and every detection among them decides on the evidence. */
  ghost predicate Leads(c: Settings, x: Entry -> Evidence, s: State, ls: seq<Label>, t: State) {
    Reaches(c, s, ls, t) && Decided(c, x, s, ls)
  }

  lemma Then(c: Settings, x: Entry -> Evidence, s: State, ls: seq<Label>, t: State, more: seq<Label>, u: State)
    requires Leads(c, x, s, ls, t) && Leads(c, x, t, more, u)
    ensures Leads(c, x, s, ls + more, u)
  {
    hide Enabled, Next, DecidesOn;
    Concat(c, s, ls, more);
    DecidedConcat(c, x, s, ls, more);
  }

  lemma OneStep(c: Settings, x: Entry -> Evidence, s: State, l: Label, t: State)
    requires Moves(c, s, l, t) && DecidesOn(x, s, l)
    ensures Leads(c, x, s, [l], t)
  {
    hide Enabled, Next, DecidesOn;
    assert [l][..0] == [] && Legal(c, s, []) && Exec(c, s, []) == s && Decided(c, x, s, []);
  }

  lemma NoStep(c: Settings, x: Entry -> Evidence, s: State)
    ensures Leads(c, x, s, [], s)
  {
  }

  lemma {:induction false} LegalKeepsInv(c: Settings, s: State, ls: seq<Label>)
    requires c.Valid() && Inv(c, s) && Legal(c, s, ls)
    ensures Inv(c, Exec(c, s, ls))
  {
    hide Inv, Enabled, Next;
    if |ls| > 0 {
      LegalKeepsInv(c, s, ls[..|ls| - 1]);
      StepKeepsInv(c, Exec(c, s, ls[..|ls| - 1]), ls[|ls| - 1]);
    }
  }

  lemma LeadsKeepInv(c: Settings, x: Entry -> Evidence, s: State, ls: seq<Label>, t: State)
    requires c.Valid() && Inv(c, s) && Leads(c, x, s, ls, t)
    ensures Inv(c, t)
  {
    LegalKeepsInv(c, s, ls);
  }

  /** A run goes on, and every detection from here on decides on the evidence. */
  ghost predicate Continues(c: Settings, x: Entry -> Evidence, ls: seq<Label>, more: seq<Label>)
    requires Run(c, ls)
  {
    Run(c, ls + more) && Leads(c, x, End(c, ls), more, End(c, ls + more))
  }

  lemma Continue(c: Settings, x: Entry -> Evidence, ls: seq<Label>, more: seq<Label>, t: State)
    requires Run(c, ls) && Leads(c, x, End(c, ls), more, t)
    ensures Continues(c, x, ls, more) && End(c, ls + more) == t
  {
    hide Enabled, Next;
    Concat(c, START, ls, more);
  }

  // ---------------------------------------------------------------- one call

  const NO_FAULTS := Faults(false, false, false)

  /** What a call without faults does to a message in hand, when it counts d deliveries. */
  ghost predicate Called(c: Settings, s: State, t: State, w: nat, g: Group, m: nat, d: nat)
    requires g in s.groups && m < |s.log|
  {
    && t == s.(db := t.db, groups := Released(s.groups, g, m), workers := Without(s.workers, w))
    && s.db.inbox <= t.db.inbox && Handled(t.db, t.log, g, m)
    && (s.log[m].Message? && d <= c.maxDeliveries ==> (s.log[m].event, g) in t.db.inbox)
    && (forall e | e in t.db.outbox && (e !in s.db.outbox || t.db.outbox[e] != s.db.outbox[e]) ::
          t.db.outbox[e].body.AlertCreated?)
    && s.db.outbox.Keys <= t.db.outbox.Keys
    && (t.db.outbox != s.db.outbox ==>
          && g.ProcessorGroup? && s.log[m].Message?
          && (s.log[m].event, g) !in s.db.inbox && (s.log[m].event, g) in t.db.inbox)
  }

  /** What the commit of the call makes of the tables. */
  ghost predicate Advances(db: Db, effect: Db, entry: Entry, g: Group) {
    && db.inbox <= effect.inbox && db.outbox.Keys <= effect.outbox.Keys
    && (entry.Message? ==> (entry.event, g) in effect.inbox)
    && (forall e | e in effect.outbox && (e !in db.outbox || effect.outbox[e] != db.outbox[e]) ::
          effect.outbox[e].body.AlertCreated?)
    && (g.CompensationGroup? ==> effect.outbox == db.outbox)
  }

  lemma CallFinishes(c: Settings, s: State, u: State, w: nat, g: Group, m: nat, d: nat, refused: bool, effect: Db)
    requires c.Valid() && Takes(s, w, g, m, d) && Advances(s.db, effect, s.log[m], g)
    requires u == s.(workers := u.workers) && Without(u.workers, w) == Without(s.workers, w)
    requires s.log[m].Message? && refused ==> (s.log[m].event, g) in s.db.inbox
    ensures Called(c, s, Acted(u, w, g, m, d, FateOf(c, s.db, s.log, g, m, d, NO_FAULTS, refused), effect, NO_FAULTS),
                   w, g, m, d)
  {
    var fate := FateOf(c, s.db, s.log, g, m, d, NO_FAULTS, refused);
    if fate.Buried? {
      assert OfConsumer(g, m, d) in (s.db.dead + [OfConsumer(g, m, d)]);
    }
  }

  lemma DetectionAdvances(s: State, entry: Entry, x: Evidence, a: AlertId, e: EventId, now: Instant)
    requires entry.Stream() == Transactions && e !in s.db.outbox
    ensures entry.Message? && DetectionRefused(s.db, s.db, s.db, entry, x) ==>
              (entry.event, ProcessorGroup) in s.db.inbox
    ensures Advances(s.db, DetectionEffect(s.db, s.db, s.db, entry, x, a, e, now), entry, ProcessorGroup)
  {
  }

  lemma CompensationAdvances(s: State, entry: Entry)
    requires entry.Stream() == Stream.Compensation
    ensures entry.Message? && CompensationRefused(s.db, s.db, entry) ==> (entry.event, CompensationGroup) in s.db.inbox
    ensures Advances(s.db, CompensationEffect(s.db, s.db, entry), entry, CompensationGroup)
  {
  }

  /** A message in hand can be dealt with, by a call that nothing interrupts. */
  lemma OneCall(c: Settings, x: Entry -> Evidence, s: State, w: nat, g: Group, m: nat, d: nat, now: Instant)
    returns (ls: seq<Label>, t: State)
    requires c.Valid() && Takes(s, w, g, m, d)
    ensures Leads(c, x, s, ls, t) && Called(c, s, t, w, g, m, d)
  {
    match g
    case ProcessorGroup => ls, t := OneDetection(c, x, s, w, m, d, now);
    case CompensationGroup => ls, t := OneCompensation(c, x, s, w, m, d);
  }

  lemma OneDetection(c: Settings, x: Entry -> Evidence, s: State, w: nat, m: nat, d: nat, now: Instant)
    returns (ls: seq<Label>, t: State)
    requires c.Valid() && Takes(s, w, ProcessorGroup, m, d)
    ensures Leads(c, x, s, ls, t) && Called(c, s, t, w, ProcessorGroup, m, d)
  {
    var a := FreshKey(s.db.alerts);
    var e := FreshKey(s.db.outbox);
    var looked := Looked(c, s, w, ProcessorGroup, m, d, NO_FAULTS);
    var u := Reread(looked, w);
    assert Without(u.workers, w) == Without(s.workers, w);
    var refused := DetectionRefused(s.db, s.db, s.db, s.log[m], x(s.log[m]));
    var effect := DetectionEffect(s.db, s.db, s.db, s.log[m], x(s.log[m]), a, e, now);
    DetectionAdvances(s, s.log[m], x(s.log[m]), a, e, now);
    CallFinishes(c, s, u, w, ProcessorGroup, m, d, refused, effect);
    t := Acted(u, w, ProcessorGroup, m, d, FateOf(c, s.db, s.log, ProcessorGroup, m, d, NO_FAULTS, refused), effect,
               NO_FAULTS);
    NoStep(c, x, looked);
    NoStep(c, x, u);
    hide Next, Enabled, Called, Acted, Advances, DetectionRefused, DetectionEffect, FateOf, DecidesOn;
    ls := TransactionMessageIsRun(c, s, w, m, d, x, a, e, now, NO_FAULTS, [], looked, [], u);
  }

  lemma OneCompensation(c: Settings, x: Entry -> Evidence, s: State, w: nat, m: nat, d: nat)
    returns (ls: seq<Label>, t: State)
    requires c.Valid() && Takes(s, w, CompensationGroup, m, d)
    ensures Leads(c, x, s, ls, t) && Called(c, s, t, w, CompensationGroup, m, d)
  {
    var looked := Looked(c, s, w, CompensationGroup, m, d, NO_FAULTS);
    assert Without(looked.workers, w) == Without(s.workers, w);
    var refused := CompensationRefused(s.db, s.db, s.log[m]);
    var effect := CompensationEffect(s.db, s.db, s.log[m]);
    CompensationAdvances(s, s.log[m]);
    CallFinishes(c, s, looked, w, CompensationGroup, m, d, refused, effect);
    t := Acted(looked, w, CompensationGroup, m, d, FateOf(c, s.db, s.log, CompensationGroup, m, d, NO_FAULTS, refused),
               effect, NO_FAULTS);
    NoStep(c, x, looked);
    hide Next, Enabled, Called, Acted, Advances, CompensationRefused, CompensationEffect, FateOf, DecidesOn;
    ls := CompensationMessageIsRun(c, s, w, m, d, NO_FAULTS, [], looked, x);
  }

  // ---------------------------------------------------------------- a pending message, an undelivered entry

  /** A pending message is reclaimed and dealt with, which counts two deliveries. */
  lemma FinishPending(c: Settings, x: Entry -> Evidence, s: State, g: Group, m: nat, now: Instant)
    returns (ls: seq<Label>, t: State, w: nat)
    requires c.Valid() && Inv(c, s) && g in s.groups && m in s.groups[g].pending
    ensures m < |s.log| && w !in s.workers && Leads(c, x, s, ls, t) && Called(c, s, t, w, g, m, 2)
  {
    assert GroupOk(s.db, s.log, g, s.groups[g]);
    hide Inv, Leads, Enabled, Next, GroupOk, Called;
    w := FreshKey(s.workers);
    var u := s.(workers := s.workers[w := Fetched(g, m, 2)]);
    ReclaimStep(c, x, s, w, g, m);
    var more;
    more, t := OneCall(c, x, u, w, g, m, 2, now);
    Then(c, x, s, [Reclaim(w, g, m)], u, more, t);
    ls := [Reclaim(w, g, m)] + more;
    ReclaimedCall(c, s, u, t, w, g, m);
  }

  lemma ReclaimStep(c: Settings, x: Entry -> Evidence, s: State, w: nat, g: Group, m: nat)
    requires w !in s.workers && g in s.groups && m in s.groups[g].pending
    ensures Leads(c, x, s, [Reclaim(w, g, m)], s.(workers := s.workers[w := Fetched(g, m, 2)]))
  {
    OneStep(c, x, s, Reclaim(w, g, m), s.(workers := s.workers[w := Fetched(g, m, 2)]));
  }

  lemma ReclaimedCall(c: Settings, s: State, u: State, t: State, w: nat, g: Group, m: nat)
    requires w !in s.workers && g in s.groups && m < |s.log| && u == s.(workers := s.workers[w := Fetched(g, m, 2)])
    requires Called(c, u, t, w, g, m, 2)
    ensures Called(c, s, t, w, g, m, 2)
  {
    assert Without(u.workers, w) == s.workers == Without(s.workers, w);
  }

  /** The next entry for the group, from its cursor on. */
  lemma {:induction false} NextFor(log: seq<Entry>, g: Group, cursor: nat, m: nat) returns (i: nat)
    requires cursor <= m < |log| && log[m].Stream() == StreamFor(g)
    ensures cursor <= i <= m && log[i].Stream() == StreamFor(g)
    ensures forall j | cursor <= j < i :: log[j].Stream() != StreamFor(g)
    decreases m - cursor
  {
    if log[cursor].Stream() == StreamFor(g) {
      i := cursor;
    } else {
      i := NextFor(log, g, cursor + 1, m);
    }
  }

  lemma DeliverStep(c: Settings, x: Entry -> Evidence, s: State, w: nat, g: Group, i: nat)
    requires w !in s.workers && g in s.groups && s.groups[g].cursor <= i < |s.log| && s.log[i].Stream() == StreamFor(g)
    requires forall j | s.groups[g].cursor <= j < i :: s.log[j].Stream() != StreamFor(g)
    ensures Leads(c, x, s, [Deliver(w, g, i)],
                  s.(groups := s.groups[g := GroupState(i + 1, s.groups[g].pending + {i})],
                     workers := s.workers[w := Fetched(g, i, 1)]))
  {
    OneStep(c, x, s, Deliver(w, g, i), s.(groups := s.groups[g := GroupState(i + 1, s.groups[g].pending + {i})],
                                          workers := s.workers[w := Fetched(g, i, 1)]));
  }

  /** Delivering entry after entry brings every one of them to a consumer, for the first time. */
  lemma {:induction false} DeliverUpTo(c: Settings, x: Entry -> Evidence, s: State, g: Group, m: nat, w: nat)
    returns (ls: seq<Label>, t: State)
    requires m < |s.log| && s.log[m].Stream() == StreamFor(g) && g in s.groups && s.groups[g].cursor <= m
    requires forall v | v in s.workers :: v < w
    ensures Leads(c, x, s, ls, t) && t == s.(groups := t.groups, workers := t.workers)
    ensures g in t.groups && m in t.groups[g].pending
    ensures exists v :: w <= v && v !in s.workers && Takes(t, v, g, m, 1)
    ensures forall v | v in s.workers :: v in t.workers && t.workers[v] == s.workers[v]
    decreases m - s.groups[g].cursor
  {
    var i := NextFor(s.log, g, s.groups[g].cursor, m);
    DeliverStep(c, x, s, w, g, i);
    ls := [Deliver(w, g, i)];
    t := s.(groups := s.groups[g := GroupState(i + 1, s.groups[g].pending + {i})],
            workers := s.workers[w := Fetched(g, i, 1)]);
    hide Leads;
    if i < m {
      var u, more := t, [];
      more, t := DeliverUpTo(c, x, u, g, m, w + 1);
      Then(c, x, s, ls, u, more, t);
      ls := ls + more;
    } else {
      assert Takes(t, w, g, m, 1);
    }
  }

  // ---------------------------------------------------------------- an event not published yet

  ghost function WaitingRows(outbox: map<EventId, OutboxRow>): set<EventId> {
    set e | e in outbox && outbox[e].status.Waiting?
  }

  function AllAnswered(n: nat): (r: seq<Publisher.Reply>)
    ensures |r| == n && forall i | 0 <= i < n :: r[i].Answered?
  {
    seq(n, i => Publisher.Answered)
  }

  /** A row after a batch whose every attempt succeeded. */
  lemma AfterBatch(max: nat, db: Db, batch: seq<EventId>, outcomes: seq<bool>, e: EventId, now: Instant)
    requires |batch| == |outcomes| && Distinct(batch) && e in db.outbox
    requires forall i | 0 <= i < |batch| :: batch[i] in db.outbox && db.outbox[batch[i]].status.Waiting? && outcomes[i]
    ensures var after := Settle(max, db, batch, outcomes, |batch|, now);
            && e in after.outbox
            && (if e in batch then after.outbox[e].status.Published? else after.outbox[e] == db.outbox[e])
  {
    assert batch[..|batch|] == batch;
    TriedAt(batch, outcomes, |batch|, e);
    if e in batch {
      var i :| 0 <= i < |batch| && batch[i] == e;
    }
    SettleEffect(max, db, batch, outcomes, |batch|, now, e);
  }

  /** What relaying leaves as it was. */
  ghost predicate Relayed(s: State, t: State) {
    && t.publishers == s.publishers && t.workers == s.workers && t.groups == s.groups && t.clients == s.clients
    && SameBusiness(s.db, t.db) && s.log <= t.log
  }

  /** Behind the first n entries there is a copy of the event. */
  predicate CopyBehind(log: seq<Entry>, n: nat, e: EventId, body: EventBody) {
    exists m | n <= m < |log| :: log[m] == Message(e, body)
  }

  /** One more replica, whose attempts all succeed: the rows of its batch are published, the others are as they were. */
  lemma OneBatch(c: Settings, x: Entry -> Evidence, s: State, e: EventId, now: Instant)
    returns (ls: seq<Label>, t: State)
    requires c.Valid() && Inv(c, s) && e in s.db.outbox && s.db.outbox[e].status.Waiting? && e !in Locked(s.publishers)
    ensures Leads(c, x, s, ls, t) && Relayed(s, t) && WaitingRows(t.db.outbox) < WaitingRows(s.db.outbox)
    ensures if t.db.outbox[e].status.Published? then CopyBehind(t.log, |s.log|, e, s.db.outbox[e].body)
            else t.db.outbox[e] == s.db.outbox[e]
  {
    hide Settle, LedgerInv, GroupsOk, WorkersOk, SchedulersOk, EntriesOk, RowsOk;
    var p := FreshKey(s.publishers);
    var batch := RelayFairness.PollExists(s.db.outbox, Locked(s.publishers), c.publishBatch);
    var replies := AllAnswered(|batch|);
    BatchEffect(c, s, batch, Publisher.Outcomes(replies), e, now);
    SettleSameBusiness(c.maxRetries, s.db, batch, Publisher.Outcomes(replies), |batch|, now);
    Publisher.AloneIsRun(c, s, p, batch, replies, now);
    ls := Publisher.AloneLabels(p, batch, replies, now);
    t := s.(db := Settle(c.maxRetries, s.db, batch, Publisher.Outcomes(replies), |batch|, now),
            log := s.log + Publisher.Stored(s.db.outbox, batch, replies, |batch|));
    hide Enabled, Next, Inv, IsPoll, Publisher.AloneLabels, WaitingRows, Publisher.Stored;
    AloneDecides(c, x, s, p, batch, replies, now);
    if e in batch {
      CopyStored(s, batch, replies, e);
    }
  }

  lemma CopyStored(s: State, batch: seq<EventId>, replies: seq<Publisher.Reply>, e: EventId)
    requires e in batch && |batch| == |replies| && forall k | 0 <= k < |batch| :: batch[k] in s.db.outbox
    requires forall k | 0 <= k < |replies| :: replies[k].Answered?
    ensures CopyBehind(s.log + Publisher.Stored(s.db.outbox, batch, replies, |batch|), |s.log|, e, s.db.outbox[e].body)
  {
    var i :| 0 <= i < |batch| && batch[i] == e;
    StoredAt(s.db.outbox, batch, replies, |batch|, i);
    var stored := Publisher.Stored(s.db.outbox, batch, replies, |batch|);
    assert (s.log + stored)[|s.log| + i] == stored[i];
  }

  lemma AloneDecides(c: Settings, x: Entry -> Evidence, s: State, p: nat, ids: seq<EventId>,
      replies: seq<Publisher.Reply>, now: Instant)
    requires Legal(c, s, Publisher.AloneLabels(p, ids, replies, now))
    ensures Decided(c, x, s, Publisher.AloneLabels(p, ids, replies, now))
  {
    hide Enabled, Next;
    RelayDetectsNothing(p, ids, replies, |replies|, now);
    NothingDecided(c, x, s, Publisher.AloneLabels(p, ids, replies, now));
  }

  lemma {:induction false} RelayDetectsNothing(p: nat, ids: seq<EventId>, replies: seq<Publisher.Reply>, n: nat,
      now: Instant)
    requires n <= |replies|
    ensures DetectsNothing(Publisher.BatchLabels(p, ids, replies, Publisher.Nothing(|replies| + 1), n, now))
  {
    if n > 0 {
      RelayDetectsNothing(p, ids, replies, n - 1, now);
    }
  }

  /** When every attempt succeeds, the streams receive the batch in order. */
  lemma {:induction false} StoredAt(outbox: map<EventId, OutboxRow>, ids: seq<EventId>, replies: seq<Publisher.Reply>,
      n: nat, i: nat)
    requires i < n <= |ids| == |replies| && forall k | 0 <= k < |ids| :: ids[k] in outbox
    requires forall k | 0 <= k < |replies| :: replies[k].Answered?
    ensures |Publisher.Stored(outbox, ids, replies, n)| == n
    ensures Publisher.Stored(outbox, ids, replies, n)[i] == Message(ids[i], outbox[ids[i]].body)
  {
    if i < n - 1 {
      StoredAt(outbox, ids, replies, n - 1, i);
    } else if n > 1 {
      StoredAt(outbox, ids, replies, n - 1, 0);
    }
  }

  lemma BatchEffect(c: Settings, s: State, batch: seq<EventId>, outcomes: seq<bool>, e: EventId, now: Instant)
    requires c.Valid() && IsPoll(s.db.outbox, Locked(s.publishers), c.publishBatch, batch)
    requires |outcomes| == |batch| && forall i | 0 <= i < |batch| :: outcomes[i]
    requires e in s.db.outbox && s.db.outbox[e].status.Waiting? && e !in Locked(s.publishers)
    ensures var after := Settle(c.maxRetries, s.db, batch, outcomes, |batch|, now);
            && e in after.outbox && WaitingRows(after.outbox) < WaitingRows(s.db.outbox)
            && (if e in batch then after.outbox[e].status.Published? else after.outbox[e] == s.db.outbox[e])
  {
    var after := Settle(c.maxRetries, s.db, batch, outcomes, |batch|, now);
    assert forall i | 0 <= i < |batch| :: Polled(s.db.outbox, Locked(s.publishers), batch[i]);
    SettleSameBusiness(c.maxRetries, s.db, batch, outcomes, |batch|, now);
    forall f | f in s.db.outbox
      ensures f in after.outbox &&
        (if f in batch then after.outbox[f].status.Published? else after.outbox[f] == s.db.outbox[f])
    {
      AfterBatch(c.maxRetries, s.db, batch, outcomes, f, now);
    }
    if e in batch {
      assert e in WaitingRows(s.db.outbox) && e !in WaitingRows(after.outbox);
    } else {
      assert Polled(s.db.outbox, Locked(s.publishers), e);
      assert batch[0] in WaitingRows(s.db.outbox) && batch[0] !in WaitingRows(after.outbox);
    }
  }

  /** Batch after batch publishes every waiting row that no other replica holds. */
  lemma {:induction false} PublishUnlocked(c: Settings, x: Entry -> Evidence, s: State, e: EventId, now: Instant)
    returns (ls: seq<Label>, t: State)
    requires c.Valid() && Inv(c, s) && e in s.db.outbox && s.db.outbox[e].status.Waiting? && e !in Locked(s.publishers)
    ensures Leads(c, x, s, ls, t) && Relayed(s, t) && t.db.outbox[e].status.Published?
    ensures CopyBehind(t.log, |s.log|, e, s.db.outbox[e].body)
    decreases WaitingRows(s.db.outbox)
  {
    ls, t := OneBatch(c, x, s, e, now);
    if !t.db.outbox[e].status.Published? {
      LeadsKeepInv(c, x, s, ls, t);
      hide Inv, Leads, WaitingRows, Relayed, CopyBehind;
      var u, more := t, [];
      RelayedKeeps(s, u, e);
      more, t := PublishUnlocked(c, x, u, e, now);
      RelayedTwice(s, u, t, e);
      Then(c, x, s, ls, u, more, t);
      ls := ls + more;
    }
  }

  lemma RelayedKeeps(s: State, t: State, e: EventId)
    requires Relayed(s, t) && e in s.db.outbox
    ensures t.publishers == s.publishers && e in t.db.outbox && t.db.outbox[e].body == s.db.outbox[e].body
  {
  }

  lemma RelayedTwice(s: State, t: State, u: State, e: EventId)
    requires Relayed(s, t) && Relayed(t, u) && e in s.db.outbox && CopyBehind(u.log, |t.log|, e, s.db.outbox[e].body)
    ensures Relayed(s, u) && CopyBehind(u.log, |s.log|, e, s.db.outbox[e].body)
  {
  }

  lemma RollBackStep(c: Settings, x: Entry -> Evidence, s: State, p: nat, e: EventId)
    requires PublishersOk(s) && p in s.publishers && e in s.publishers[p].batch
    ensures var u := s.(publishers := Without(s.publishers, p));
            Leads(c, x, s, [RollBack(p)], u) && e !in Locked(u.publishers)
  {
    OneStep(c, x, s, RollBack(p), s.(publishers := Without(s.publishers, p)));
  }

  /** A replica that crashes gives its rows back, so a waiting event can be published whoever holds it. */
  lemma PublishWaiting(c: Settings, x: Entry -> Evidence, s: State, e: EventId, now: Instant)
    returns (ls: seq<Label>, t: State)
    requires c.Valid() && Inv(c, s) && e in s.db.outbox && s.db.outbox[e].status.Waiting?
    ensures Leads(c, x, s, ls, t) && SameBusiness(s.db, t.db) && s.log <= t.log && t.groups == s.groups
    ensures t.db.outbox[e].status.Published? && CopyBehind(t.log, |s.log|, e, s.db.outbox[e].body)
  {
    if e in Locked(s.publishers) {
      var p :| p in s.publishers && e in s.publishers[p].batch;
      var u := s.(publishers := Without(s.publishers, p));
      RollBackStep(c, x, s, p, e);
      LeadsKeepInv(c, x, s, [RollBack(p)], u);
      hide Inv, Leads, Enabled, Next;
      var more;
      more, t := PublishUnlocked(c, x, u, e, now);
      Then(c, x, s, [RollBack(p)], u, more, t);
      ls := [RollBack(p)] + more;
    } else {
      ls, t := PublishUnlocked(c, x, s, e, now);
    }
  }

  // ---------------------------------------------------------------- a consumer in the middle of its call

  /**
   A consumer can still commit the effect of its message: it has not counted too many deliveries, and does not hold
   the finding that there is no profile, which the primary key would refuse by now.
   */
  ghost predicate Hopeful(c: Settings, x: Entry -> Evidence, s: State, w: nat) {
    Reads(s, w)
    && match s.workers[w]
       case Fetched(_, _, deliveries) => deliveries <= c.maxDeliveries
       case Checked(_, _) => true
       case Informed(_, _, _) => true
       case Primed(g, _, snapshot, read) =>
         || read.Some? || UserOf(MessageOf(s, w).body) !in s.db.profiles
         || (g.ProcessorGroup? && !DecisionOf(x(MessageOf(s, w)), snapshot).shouldAlert)
       case Settled(_, _) => false
       case Condemned(_, _) => false
  }

  ghost predicate HopefulFor(c: Settings, x: Entry -> Evidence, s: State, e: EventId, g: Group, w: nat) {
    Hopeful(c, x, s, w) && s.workers[w].group == g && MessageOf(s, w).event == e
  }

  function Phase(work: Work): nat {
    if work.Fetched? then 3 else if work.Checked? then 2 else if work.Informed? then 1 else 0
  }

  lemma {:induction false} CommitInHand(c: Settings, x: Entry -> Evidence, s: State, w: nat, now: Instant)
    returns (ls: seq<Label>, t: State)
    requires c.Valid() && Inv(c, s) && Hopeful(c, x, s, w) && !InInbox(s, w)
    ensures Leads(c, x, s, ls, t) && (MessageOf(s, w).event, s.workers[w].group) in t.db.inbox
    decreases Phase(s.workers[w])
  {
    var work := s.workers[w];
    assert WorkOk(c, s.db, s.log, work);
    match work
    case Fetched(g, m, d) =>
      assert g in s.groups;
      ls, t := OneCall(c, x, s, w, g, m, d, now);
    case Checked(_, _) => ls, t := ReadOn(c, x, s, w, now);
    case Informed(_, _, _) => ls, t := ReadOn(c, x, s, w, now);
    case Primed(_, _, _, _) => ls, t := CommitNow(c, x, s, w, now);
  }

  function AfterReading(s: State, w: nat): State
    requires Reads(s, w) && (s.workers[w].Checked? || s.workers[w].Informed?)
  {
    s.(workers := s.workers[w := AfterRead(s.workers[w], Lookup(s.db.profiles, UserOf(MessageOf(s, w).body)))])
  }

  lemma ReadStep(c: Settings, x: Entry -> Evidence, s: State, w: nat)
    requires Reads(s, w) && !InInbox(s, w) && (s.workers[w].Checked? || s.workers[w].Informed?)
    ensures var u := AfterReading(s, w);
            && Moves(c, s, ReadProfile(w), u) && Hopeful(c, x, u, w) && !InInbox(u, w)
            && MessageOf(u, w) == MessageOf(s, w) && u.workers[w].group == s.workers[w].group
            && Phase(u.workers[w]) < Phase(s.workers[w])
  {
  }

  lemma {:induction false} ReadOn(c: Settings, x: Entry -> Evidence, s: State, w: nat, now: Instant)
    returns (ls: seq<Label>, t: State)
    requires c.Valid() && Inv(c, s) && Reads(s, w) && !InInbox(s, w)
    requires s.workers[w].Checked? || s.workers[w].Informed?
    ensures Leads(c, x, s, ls, t) && (MessageOf(s, w).event, s.workers[w].group) in t.db.inbox
    decreases Phase(s.workers[w]), 0
  {
    hide Inv, Leads, Enabled, Next;
    var u := AfterReading(s, w);
    ReadStep(c, x, s, w);
    OneStep(c, x, s, ReadProfile(w), u);
    StepKeepsInv(c, s, ReadProfile(w));
    var more;
    more, t := CommitInHand(c, x, u, w, now);
    Then(c, x, s, [ReadProfile(w)], u, more, t);
    ls := [ReadProfile(w)] + more;
  }

  lemma CommitNow(c: Settings, x: Entry -> Evidence, s: State, w: nat, now: Instant)
    returns (ls: seq<Label>, t: State)
    requires c.Valid() && Inv(c, s) && Hopeful(c, x, s, w) && !InInbox(s, w) && s.workers[w].Primed?
    ensures Leads(c, x, s, ls, t) && (MessageOf(s, w).event, s.workers[w].group) in t.db.inbox
  {
    assert WorkOk(c, s.db, s.log, s.workers[w]);
    hide Inv, Leads, WorkOk, DecisionOf;
    var a := FreshKey(s.db.alerts);
    var e := FreshKey(s.db.outbox);
    var l := CommitLabel(x, s, w, a, e, now);
    CommitStep(c, x, s, w, a, e, now);
    t := Next(c, s, l);
    OneStep(c, x, s, l, t);
    ls := [l];
  }

  /** The step by which a consumer commits what it has decided. */
  function CommitLabel(x: Entry -> Evidence, s: State, w: nat, a: AlertId, e: EventId, now: Instant): Label
    requires Reads(s, w) && s.workers[w].Primed?
  {
    match s.workers[w].group
    case ProcessorGroup => Detect(w, DecisionOf(x(MessageOf(s, w)), s.workers[w].snapshot), a, e, now)
    case CompensationGroup => Compensate(w)
  }

  lemma CommitStep(c: Settings, x: Entry -> Evidence, s: State, w: nat, a: AlertId, e: EventId, now: Instant)
    requires Hopeful(c, x, s, w) && !InInbox(s, w) && s.workers[w].Primed?
    requires s.log[s.workers[w].message].Stream() == StreamFor(s.workers[w].group)
    requires a !in s.db.alerts && e !in s.db.outbox
    ensures var l := CommitLabel(x, s, w, a, e, now);
            && Enabled(c, s, l) && DecidesOn(x, s, l)
            && (MessageOf(s, w).event, s.workers[w].group) in Next(c, s, l).db.inbox
  {
    hide DecisionOf;
  }

  lemma CommitFor(c: Settings, x: Entry -> Evidence, s: State, e: EventId, g: Group, w: nat, now: Instant)
    returns (ls: seq<Label>, t: State)
    requires c.Valid() && Inv(c, s) && HopefulFor(c, x, s, e, g, w) && (e, g) !in s.db.inbox
    ensures Leads(c, x, s, ls, t) && (e, g) in t.db.inbox
  {
    ls, t := CommitInHand(c, x, s, w, now);
  }

  // ---------------------------------------------------------------- when an event can take effect

  /** A copy of event e that its group has not had, or can still reclaim without counting too many deliveries. */
  ghost predicate CopyLeft(c: Settings, s: State, e: EventId, g: Group, m: nat) {
    && m < |s.log| && s.log[m].Message? && s.log[m].event == e && g in s.groups
    && (s.groups[g].cursor <= m || (2 <= c.maxDeliveries && m in s.groups[g].pending))
  }

  /**
   Event e has taken effect for group g, or can be published once more, or has a copy left, or is in the hands of a
   consumer that can still commit it.
   */
  ghost predicate Chance(c: Settings, x: Entry -> Evidence, s: State, e: EventId, g: Group) {
    || (e, g) in s.db.inbox
    || (e in s.db.outbox && s.db.outbox[e].status.Waiting?)
    || (exists m: nat :: CopyLeft(c, s, e, g, m))
    || (exists w :: HopefulFor(c, x, s, e, g, w))
  }

  lemma UseCopy(c: Settings, x: Entry -> Evidence, s: State, e: EventId, g: Group, m: nat, now: Instant)
    returns (ls: seq<Label>, t: State)
    requires c.Valid() && Inv(c, s) && CopyLeft(c, s, e, g, m) && s.log[m].Stream() == StreamFor(g)
    ensures Leads(c, x, s, ls, t) && (e, g) in t.db.inbox
  {
    if m in s.groups[g].pending && 2 <= c.maxDeliveries {
      var w;
      ls, t, w := FinishPending(c, x, s, g, m, now);
    } else {
      var u, more;
      var w := FreshKey(s.workers);
      ls, u := DeliverUpTo(c, x, s, g, m, w);
      var v :| Takes(u, v, g, m, 1);
      more, t := OneCall(c, x, u, v, g, m, 1, now);
      Then(c, x, s, ls, u, more, t);
      ls := ls + more;
    }
  }

  /** An event with a chance takes effect on some way on. */
  lemma TakeChance(c: Settings, x: Entry -> Evidence, s: State, e: EventId, g: Group, now: Instant)
    returns (ls: seq<Label>, t: State)
    requires c.Valid() && Inv(c, s) && e in s.db.outbox && StreamOf(s.db.outbox[e].body) == StreamFor(g)
    requires Chance(c, x, s, e, g)
    ensures Leads(c, x, s, ls, t) && (e, g) in t.db.inbox
  {
    hide Leads, HopefulFor, LedgerInv, WorkersOk, RowsOk, PublishersOk, SchedulersOk;
    if (e, g) in s.db.inbox {
      NoStep(c, x, s);
      ls, t := [], s;
    } else if s.db.outbox[e].status.Waiting? {
      var u, more;
      ls, u := PublishWaiting(c, x, s, e, now);
      LeadsKeepInv(c, x, s, ls, u);
      var m :| |s.log| <= m < |u.log| && u.log[m] == Message(e, s.db.outbox[e].body);
      assert GroupOk(s.db, s.log, g, s.groups[g]);
      more, t := UseCopy(c, x, u, e, g, m, now);
      Then(c, x, s, ls, u, more, t);
      ls := ls + more;
    } else if m: nat :| CopyLeft(c, s, e, g, m) {
      EntryStream(s, m);
      ls, t := UseCopy(c, x, s, e, g, m, now);
    } else {
      var w :| HopefulFor(c, x, s, e, g, w);
      ls, t := CommitFor(c, x, s, e, g, w, now);
    }
  }

}
