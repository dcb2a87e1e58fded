/**
 How long an event can wait for the relay: a single committing replica attempts it within a number
 of batches bounded by the retry budgets of the events at least as old.
 */
module RelayFairness {
  import opened Collections
  import opened Domain
  import opened LedgerInvariants
  import opened Protocol
  import opened ProtocolInvariants
  import opened Origins

  // ---------------------------------------------------------------- a poll always has an answer

  ghost function Candidates(outbox: map<EventId, OutboxRow>, locked: set<EventId>): set<EventId> {
    set e | e in outbox && Polled(outbox, locked, e)
  }

  lemma {:induction false} Oldest(outbox: map<EventId, OutboxRow>, es: set<EventId>) returns (e: EventId)
    requires es != {} && es <= outbox.Keys
    ensures e in es && forall f | f in es :: outbox[e].createdAt <= outbox[f].createdAt
  {
    e :| e in es;
    if es != {e} {
      var rest := Oldest(outbox, es - {e});
      if outbox[rest].createdAt < outbox[e].createdAt {
        e := rest;
      }
    }
  }

  lemma {:induction false} TakeOldest(outbox: map<EventId, OutboxRow>, es: set<EventId>, n: nat)
    returns (batch: seq<EventId>)
    requires es <= outbox.Keys
    ensures |batch| <= n && Distinct(batch) && (forall i | 0 <= i < |batch| :: batch[i] in es)
    ensures forall i, j | 0 <= i < j < |batch| :: outbox[batch[i]].createdAt <= outbox[batch[j]].createdAt
    ensures forall e | e in es && e !in batch ::
              |batch| == n && forall i | 0 <= i < |batch| :: outbox[batch[i]].createdAt <= outbox[e].createdAt
  {
    batch := [];
    if n > 0 && es != {} {
      var e := Oldest(outbox, es);
      var rest := TakeOldest(outbox, es - {e}, n - 1);
      batch := [e] + rest;
    }
  }

  lemma PollExists(outbox: map<EventId, OutboxRow>, locked: set<EventId>, n: nat) returns (batch: seq<EventId>)
    ensures IsPoll(outbox, locked, n, batch)
  {
    batch := TakeOldest(outbox, Candidates(outbox, locked), n);
    forall e | Polled(outbox, locked, e) && e !in batch
      ensures |batch| == n && forall i | 0 <= i < |batch| :: outbox[batch[i]].createdAt <= outbox[e].createdAt
    {
      assert e in Candidates(outbox, locked);
    }
  }

  // ---------------------------------------------------------------- bounded wait

  /** The attempts that an event can still use up. */
  function Budget(max: nat, outbox: map<EventId, OutboxRow>, e: EventId): nat {
    if e in outbox && outbox[e].status.Waiting? && outbox[e].retries < max then max - outbox[e].retries else 0
  }

  ghost function AnyOf(es: set<EventId>): (e: EventId)
    requires es != {}
    ensures e in es
  {
    var e :| e in es;
    e
  }

  ghost function TotalBudget(max: nat, outbox: map<EventId, OutboxRow>, es: set<EventId>): nat {
    if es == {} then 0
    else Budget(max, outbox, AnyOf(es)) + TotalBudget(max, outbox, es - {AnyOf(es)})
  }

  /** When every event keeps its budget, and the hit ones lose at least one each, so does the total. */
  lemma {:induction false} BudgetDrops(max: nat, x: map<EventId, OutboxRow>, y: map<EventId, OutboxRow>,
      es: set<EventId>, hit: set<EventId>)
    requires forall e | e in es :: Budget(max, y, e) + (if e in hit then 1 else 0) <= Budget(max, x, e)
    ensures TotalBudget(max, y, es) + |hit * es| <= TotalBudget(max, x, es)
  {
    hide Budget;
    if es == {} {
      assert hit * es == {};
    } else {
      var e := AnyOf(es);
      BudgetDrops(max, x, y, es - {e}, hit);
      CutOne(hit, es, e);
    }
  }

  lemma CutOne(hit: set<EventId>, es: set<EventId>, e: EventId)
    requires e in es
    ensures |hit * es| == |hit * (es - {e})| + if e in hit then 1 else 0
  {
    if e in hit {
      assert hit * es == hit * (es - {e}) + {e};
    } else {
      assert hit * es == hit * (es - {e});
    }
  }

  /** The other events at least as old as e: a poll may prefer any of them. */
  ghost function Ahead(outbox: map<EventId, OutboxRow>, e: EventId): set<EventId>
    requires e in outbox
  {
    set f | f in outbox && f != e && outbox[f].createdAt <= outbox[e].createdAt
  }

  /** What a committed batch does to the budgets, whichever replicas are at work. */
  lemma CommitSpends(c: Settings, s: State, p: nat, e: EventId)
    requires RowsOk(c, s) && PublishersOk(s) && Enabled(c, s, CommitBatch(p)) && e in s.db.outbox
    ensures var x, y := s.db.outbox, Next(c, s, CommitBatch(p)).db.outbox;
            && e in y && y[e].createdAt == x[e].createdAt && (e !in s.publishers[p].batch ==> y[e] == x[e])
            && Budget(c.maxRetries, y, e) + (if e in s.publishers[p].batch then 1 else 0) <= Budget(c.maxRetries, x, e)
  {
    var pub := s.publishers[p];
    var n := |pub.batch|;
    assert PublisherOk(s.db, s.log, pub) && RowOk(c, s.db.dead, s.log, e, s.db.outbox[e]);
    assert pub.batch[..n] == pub.batch;
    TriedAt(pub.batch, pub.outcomes, n, e);
    if e in pub.batch {
      var i :| 0 <= i < n && pub.batch[i] == e;
    }
    SettleEffect(c.maxRetries, s.db, pub.batch, pub.outcomes, n, pub.now, e);
  }

  /**
   In every reachable state, with any number of replicas, a batch that commits lowers the whole budget by its
   size or more, even when every XADD fails, and adds no event; so the backlog drains.
   */
  lemma BacklogDrains(c: Settings, ls: seq<Label>, p: nat)
    requires Run(c, ls) && Enabled(c, End(c, ls), CommitBatch(p))
    ensures var x, y := End(c, ls).db.outbox, Next(c, End(c, ls), CommitBatch(p)).db.outbox;
            && y.Keys == x.Keys
            && TotalBudget(c.maxRetries, y, y.Keys) + |End(c, ls).publishers[p].batch|
               <= TotalBudget(c.maxRetries, x, x.Keys)
  {
    var s := End(c, ls);
    RunInv(c, ls);
    hide Run, End, Legal, Exec, LedgerInv, GroupsOk, WorkersOk, SchedulersOk, EntriesOk, Budget, TotalBudget;
    var pub := s.publishers[p];
    var x, y := s.db.outbox, Next(c, s, CommitBatch(p)).db.outbox;
    SettleSameBusiness(c.maxRetries, s.db, pub.batch, pub.outcomes, |pub.batch|, pub.now);
    assert PublisherOk(s.db, s.log, pub);
    assert Members(pub.batch) * x.Keys == Members(pub.batch);
    MembersCard(pub.batch);
    forall e | e in x.Keys
      ensures Budget(c.maxRetries, y, e) + (if e in Members(pub.batch) then 1 else 0) <= Budget(c.maxRetries, x, e)
    {
      CommitSpends(c, s, p, e);
    }
    BudgetDrops(c.maxRetries, x, y, x.Keys, Members(pub.batch));
  }

  /** No step from step n of the run on adds an event. */
  ghost predicate NothingAdded(c: Settings, ls: seq<Label>, n: nat)
    requires Run(c, ls) && n <= |ls|
  {
    n == |ls|
    || (NothingAdded(c, ls[..|ls| - 1], n) && End(c, ls).db.outbox.Keys == End(c, ls[..|ls| - 1]).db.outbox.Keys)
  }

  /** How many attempts the batches committed from step n of the run on have made, over all replicas. */
  ghost function AttemptsSince(c: Settings, ls: seq<Label>, n: nat): nat
    requires Run(c, ls) && n <= |ls|
  {
    if n == |ls| then 0
    else
      var before, l := ls[..|ls| - 1], ls[|ls| - 1];
      AttemptsSince(c, before, n) + if l.CommitBatch? then |End(c, before).publishers[l.p].batch| else 0
  }

  lemma BudgetKept(c: Settings, s: State, l: Label)
    requires Enabled(c, s, l) && !l.CommitBatch? && Next(c, s, l).db.outbox.Keys == s.db.outbox.Keys
    ensures var x, y := s.db.outbox, Next(c, s, l).db.outbox;
            TotalBudget(c.maxRetries, y, y.Keys) <= TotalBudget(c.maxRetries, x, x.Keys)
  {
    var x, y := s.db.outbox, Next(c, s, l).db.outbox;
    forall e | e in x ensures y[e] == x[e] {
      OtherRows(c, s, l, e);
    }
    BudgetDrops(c.maxRetries, x, y, x.Keys, {});
  }

  lemma {:induction false} BudgetLeft(c: Settings, ls: seq<Label>, n: nat)
    requires Run(c, ls) && n <= |ls| && Run(c, ls[..n]) && NothingAdded(c, ls, n)
    ensures var x, y := End(c, ls[..n]).db.outbox, End(c, ls).db.outbox;
            TotalBudget(c.maxRetries, y, y.Keys) + AttemptsSince(c, ls, n) <= TotalBudget(c.maxRetries, x, x.Keys)
  {
    if n == |ls| {
      assert ls[..n] == ls;
    } else {
      var before, l := ls[..|ls| - 1], ls[|ls| - 1];
      assert before[..n] == ls[..n];
      BudgetLeft(c, before, n);
      assert Enabled(c, End(c, before), l) && End(c, ls) == Next(c, End(c, before), l);
      hide TotalBudget, Enabled, Next, Legal, Exec;
      if l.CommitBatch? {
        BacklogDrains(c, before, l.p);
      } else {
        BudgetKept(c, End(c, before), l);
      }
    }
  }

  lemma {:induction false} PartOfTotal(max: nat, outbox: map<EventId, OutboxRow>, es: set<EventId>, e: EventId)
    requires e in es
    ensures Budget(max, outbox, e) <= TotalBudget(max, outbox, es)
  {
    if e != AnyOf(es) {
      PartOfTotal(max, outbox, es - {AnyOf(es)}, e);
    }
  }

  /**
   Once batches have committed as many attempts as there were retries left at step n, with any number of replicas
   and nothing added, the backlog is gone, even if every XADD has failed.
   */
  lemma BacklogGone(c: Settings, ls: seq<Label>, n: nat)
    requires Run(c, ls) && n <= |ls| && Run(c, ls[..n]) && NothingAdded(c, ls, n)
    requires var x := End(c, ls[..n]).db.outbox; TotalBudget(c.maxRetries, x, x.Keys) <= AttemptsSince(c, ls, n)
    ensures forall e | e in End(c, ls).db.outbox :: !End(c, ls).db.outbox[e].status.Waiting?
  {
    var s := End(c, ls);
    RunInv(c, ls);
    BudgetLeft(c, ls, n);
    hide Run, End, Legal, Exec, LedgerInv, GroupsOk, WorkersOk, PublishersOk, SchedulersOk, TotalBudget;
    forall e | e in s.db.outbox ensures !s.db.outbox[e].status.Waiting? {
      PartOfTotal(c.maxRetries, s.db.outbox, s.db.outbox.Keys, e);
      assert RowOk(c, s.db.dead, s.log, e, s.db.outbox[e]);
    }
  }

  ghost function Free(outbox: map<EventId, OutboxRow>, locked: set<EventId>): set<EventId> {
    set e | e in outbox && outbox[e].status.Waiting? && e !in locked
  }

  /** A poll takes as many of the waiting events that nobody holds as there are, up to the limit. */
  lemma PollSize(outbox: map<EventId, OutboxRow>, locked: set<EventId>, n: nat, batch: seq<EventId>)
    requires IsPoll(outbox, locked, n, batch)
    ensures |batch| == if |Free(outbox, locked)| < n then |Free(outbox, locked)| else n
    ensures forall e | e in batch :: e in outbox && outbox[e].status.Waiting? && e !in locked
  {
    var free := Free(outbox, locked);
    MembersCard(batch);
    forall e | e in batch ensures Polled(outbox, locked, e) {
      var i :| 0 <= i < |batch| && batch[i] == e;
    }
    assert Members(batch) <= free;
    CardGrows(Members(batch), free);
    if |batch| < n {
      forall e | e in free ensures e in batch {
        assert Polled(outbox, locked, e);
      }
      assert Members(batch) == free;
    }
  }

  /** A poll comes back empty exactly when every waiting event is held by some replica. */
  lemma EmptyPoll(c: Settings, outbox: map<EventId, OutboxRow>, locked: set<EventId>, batch: seq<EventId>)
    requires 1 <= c.publishBatch && IsPoll(outbox, locked, c.publishBatch, batch)
    ensures |batch| == 0 <==> forall e | e in outbox && outbox[e].status.Waiting? :: e in locked
  {
    if |batch| == 0 {
      forall e | e in outbox && outbox[e].status.Waiting? ensures e in locked {
        assert !Polled(outbox, locked, e);
      }
    } else {
      assert Polled(outbox, locked, batch[0]);
    }
  }

  // ---------------------------------------------------------------- bounded wait

  /** One replica polls at a time, no batch is rolled back, and what is added to the outbox is younger than `since`. */
  ghost predicate Orderly(c: Settings, s: State, l: Label, since: Instant)
    requires Enabled(c, s, l)
  {
    && !l.RollBack? && (l.Poll? ==> s.publishers == map[])
    && forall f | f in Next(c, s, l).db.outbox && f !in s.db.outbox :: since < Next(c, s, l).db.outbox[f].createdAt
  }

  /**
   From step n of the run on there is one replica, which starts idle and commits every batch, and nothing as old as
   `since` arrives.
   */
  ghost predicate OneReplica(c: Settings, ls: seq<Label>, n: nat, since: Instant)
    requires Run(c, ls) && n <= |ls|
  {
    if n == |ls| then End(c, ls).publishers == map[]
    else OneReplica(c, ls[..|ls| - 1], n, since) && Orderly(c, End(c, ls[..|ls| - 1]), ls[|ls| - 1], since)
  }

  /** How many batches have been committed from step n of the run on. */
  function Batches(ls: seq<Label>, n: nat): nat
    requires n <= |ls|
  {
    if n == |ls| then 0 else Batches(ls[..|ls| - 1], n) + if ls[|ls| - 1].CommitBatch? then 1 else 0
  }

  /** Step l commits a batch that holds e. */
  predicate CommitsAttempt(s: State, l: Label, e: EventId) {
    l.CommitBatch? && l.p in s.publishers && e in s.publishers[l.p].batch
  }

  /** An attempt of e has been committed from step n of the run on. */
  ghost predicate AttemptedSince(c: Settings, ls: seq<Label>, n: nat, e: EventId)
    requires Run(c, ls) && n <= |ls|
  {
    n < |ls| && (AttemptedSince(c, ls[..|ls| - 1], n, e) || CommitsAttempt(End(c, ls[..|ls| - 1]), ls[|ls| - 1], e))
  }

  /** A batch in progress that passes over e is full of events at least as old. */
  ghost predicate PassesOver(c: Settings, outbox: map<EventId, OutboxRow>, batch: seq<EventId>, e: EventId)
    requires e in outbox
  {
    |batch| == c.publishBatch && Distinct(batch) && Members(batch) <= Ahead(outbox, e)
  }

  /**
   e waits, behind the same events as at the start, whose budget is no more than what the batches so far have left
   of it.
   */
  ghost predicate StillWaits(c: Settings, s: State, e: EventId, ahead: set<EventId>, since: Instant, left: int) {
    && e in s.db.outbox && s.db.outbox[e].status.Waiting? && s.db.outbox[e].createdAt == since
    && Ahead(s.db.outbox, e) == ahead && TotalBudget(c.maxRetries, s.db.outbox, ahead) <= left
    && (forall p, q | p in s.publishers && q in s.publishers :: p == q)
    && (forall p | p in s.publishers ::
        e in s.publishers[p].batch || PassesOver(c, s.db.outbox, s.publishers[p].batch, e))
  }

  /** A step that commits no batch leaves rows and budgets alone. */
  lemma WaitsOn(c: Settings, s: State, l: Label, e: EventId, ahead: set<EventId>, since: Instant, left: int)
    requires Enabled(c, s, l) && !l.CommitBatch? && Orderly(c, s, l, since) && StillWaits(c, s, e, ahead, since, left)
    ensures StillWaits(c, Next(c, s, l), e, ahead, since, left)
  {
    var x, y := s.db.outbox, Next(c, s, l).db.outbox;
    forall f | f in x ensures f in y && y[f] == x[f] {
      OtherRows(c, s, l, f);
    }
    SameAhead(x, y, e);
    BudgetDrops(c.maxRetries, x, y, ahead, {});
    PublishersWait(c, s, l, e);
  }

  lemma SameAhead(x: map<EventId, OutboxRow>, y: map<EventId, OutboxRow>, e: EventId)
    requires e in x && (forall f | f in x :: f in y && y[f].createdAt == x[f].createdAt)
    requires forall f | f in y && f !in x :: x[e].createdAt < y[f].createdAt
    ensures Ahead(y, e) == Ahead(x, e)
  {
  }

  /** The batches in progress after such a step: the same ones, or the one just polled. */
  lemma PublishersWait(c: Settings, s: State, l: Label, e: EventId)
    requires Enabled(c, s, l) && !l.CommitBatch? && !l.RollBack? && (l.Poll? ==> s.publishers == map[])
    requires e in s.db.outbox && s.db.outbox[e].status.Waiting?
    requires forall p, q | p in s.publishers && q in s.publishers :: p == q
    requires forall p | p in s.publishers ::
      e in s.publishers[p].batch || PassesOver(c, s.db.outbox, s.publishers[p].batch, e)
    ensures var t := Next(c, s, l);
            && (forall p, q | p in t.publishers && q in t.publishers :: p == q)
            && (forall p | p in t.publishers ::
                e in t.publishers[p].batch || PassesOver(c, s.db.outbox, t.publishers[p].batch, e))
  {
    if l.Poll? {
      assert Locked(s.publishers) == {};
      PollPasses(c, s.db.outbox, l.batch, e);
    } else {
      assert forall p | p in Next(c, s, l).publishers ::
        p in s.publishers && Next(c, s, l).publishers[p].batch == s.publishers[p].batch;
    }
  }

  lemma PollPasses(c: Settings, outbox: map<EventId, OutboxRow>, batch: seq<EventId>, e: EventId)
    requires e in outbox && outbox[e].status.Waiting? && IsPoll(outbox, {}, c.publishBatch, batch)
    ensures e in batch || PassesOver(c, outbox, batch, e)
  {
    if e !in batch {
      assert Polled(outbox, {}, e);
      forall f | f in Members(batch) ensures f in Ahead(outbox, e) {
        var i :| 0 <= i < |batch| && batch[i] == f;
        assert Polled(outbox, {}, batch[i]);
      }
    }
  }

  /** A committed batch that passes over e takes a full batch out of the budget ahead of it. */
  lemma PassedOver(c: Settings, s: State, p: nat, e: EventId, ahead: set<EventId>, since: Instant, left: int)
    requires Enabled(c, s, CommitBatch(p)) && RowsOk(c, s) && PublishersOk(s) && StillWaits(c, s, e, ahead, since, left)
    requires e !in s.publishers[p].batch
    ensures StillWaits(c, Next(c, s, CommitBatch(p)), e, ahead, since, left - c.publishBatch)
  {
    var x, y := s.db.outbox, Next(c, s, CommitBatch(p)).db.outbox;
    var pub := s.publishers[p];
    SettleSameBusiness(c.maxRetries, s.db, pub.batch, pub.outcomes, |pub.batch|, pub.now);
    forall f | f in x
      ensures f in y && y[f].createdAt == x[f].createdAt && (f !in pub.batch ==> y[f] == x[f])
      ensures Budget(c.maxRetries, y, f) + (if f in Members(pub.batch) then 1 else 0) <= Budget(c.maxRetries, x, f)
    {
      CommitSpends(c, s, p, f);
    }
    SameAhead(x, y, e);
    MembersCard(pub.batch);
    assert Members(pub.batch) * ahead == Members(pub.batch);
    BudgetDrops(c.maxRetries, x, y, ahead, Members(pub.batch));
    assert Next(c, s, CommitBatch(p)).publishers == map[];
  }

  lemma OneLess(n: nat, b: nat, w: int)
    ensures w - (n + 1) * b == w - n * b - b
  {
  }

  lemma StepWaits(c: Settings, ls: seq<Label>, l: Label, e: EventId, ahead: set<EventId>, since: Instant, left: int)
    requires Run(c, ls) && Enabled(c, End(c, ls), l) && Orderly(c, End(c, ls), l, since)
    requires StillWaits(c, End(c, ls), e, ahead, since, left) && !CommitsAttempt(End(c, ls), l, e)
    ensures StillWaits(c, Next(c, End(c, ls), l), e, ahead, since, left - if l.CommitBatch? then c.publishBatch else 0)
  {
    RunInv(c, ls);
    hide Run, End, Legal, Exec, StillWaits;
    if l.CommitBatch? {
      PassedOver(c, End(c, ls), l.p, e, ahead, since, left);
    } else {
      WaitsOn(c, End(c, ls), l, e, ahead, since, left);
    }
  }

  lemma {:induction false} WaitShrinks(c: Settings, ls: seq<Label>, n: nat, e: EventId, w: nat)
    requires Run(c, ls) && n <= |ls| && Run(c, ls[..n])
    requires e in End(c, ls[..n]).db.outbox && End(c, ls[..n]).db.outbox[e].status.Waiting?
    requires OneReplica(c, ls, n, End(c, ls[..n]).db.outbox[e].createdAt)
    requires w == TotalBudget(c.maxRetries, End(c, ls[..n]).db.outbox, Ahead(End(c, ls[..n]).db.outbox, e))
    requires !AttemptedSince(c, ls, n, e)
    ensures var x := End(c, ls[..n]).db.outbox;
            StillWaits(c, End(c, ls), e, Ahead(x, e), x[e].createdAt, w - Batches(ls, n) * c.publishBatch)
  {
    var x := End(c, ls[..n]).db.outbox;
    if n == |ls| {
      assert ls[..n] == ls;
    } else {
      var before, l := ls[..|ls| - 1], ls[|ls| - 1];
      var s := End(c, before);
      assert before[..n] == ls[..n];
      WaitShrinks(c, before, n, e, w);
      assert Enabled(c, s, l) && End(c, ls) == Next(c, s, l);
      hide Run, End, Legal, Exec, StillWaits, Ahead, TotalBudget, Enabled, Next, Orderly;
      StepWaits(c, before, l, e, Ahead(x, e), x[e].createdAt, w - Batches(before, n) * c.publishBatch);
      OneLess(Batches(before, n), c.publishBatch, w);
    }
  }

  lemma WaitIsBounded(c: Settings, ls: seq<Label>, n: nat, e: EventId)
    requires Run(c, ls) && n <= |ls| && Run(c, ls[..n])
    requires e in End(c, ls[..n]).db.outbox && End(c, ls[..n]).db.outbox[e].status.Waiting?
    requires OneReplica(c, ls, n, End(c, ls[..n]).db.outbox[e].createdAt)
    requires var x := End(c, ls[..n]).db.outbox;
             TotalBudget(c.maxRetries, x, Ahead(x, e)) / c.publishBatch < Batches(ls, n)
    ensures AttemptedSince(c, ls, n, e)
  {
    var x := End(c, ls[..n]).db.outbox;
    var w := TotalBudget(c.maxRetries, x, Ahead(x, e));
    if !AttemptedSince(c, ls, n, e) {
      WaitShrinks(c, ls, n, e, w);
      Overshoot(w, c.publishBatch, Batches(ls, n));
    }
  }

  // ---------------------------------------------------------------- age by the clock of the producers

  /** The other events that were added at the same instant or before. */
  ghost function AddedBefore(c: Settings, ls: seq<Label>, e: EventId): set<EventId>
    requires Run(c, ls) && e in End(c, ls).db.outbox
  {
    set f | f in End(c, ls).db.outbox && f != e && AddedAt(c, ls, f) <= AddedAt(c, ls, e)
  }

  lemma AheadIsAddedBefore(c: Settings, ls: seq<Label>, e: EventId)
    requires Run(c, ls) && e in End(c, ls).db.outbox
    ensures Ahead(End(c, ls).db.outbox, e) == AddedBefore(c, ls, e)
  {
    forall f | f in End(c, ls).db.outbox ensures End(c, ls).db.outbox[f].createdAt == AddedAt(c, ls, f) {
      AgeIsAddedAt(c, ls, f);
    }
  }

  /** A poll never takes an event while an unlocked waiting one that was added earlier stays behind. */
  lemma PollOldestFirst(c: Settings, ls: seq<Label>, p: nat, batch: seq<EventId>, now: Instant, e: EventId, f: EventId)
    requires Run(c, ls) && Enabled(c, End(c, ls), Poll(p, batch, now)) && e in batch && f !in batch
    requires var s := End(c, ls);
             f in s.db.outbox && s.db.outbox[f].status.Waiting? && f !in Locked(s.publishers)
    ensures e in End(c, ls).db.outbox && AddedAt(c, ls, e) <= AddedAt(c, ls, f)
    ensures |batch| == c.publishBatch
  {
    var s := End(c, ls);
    var i :| 0 <= i < |batch| && batch[i] == e;
    assert Polled(s.db.outbox, Locked(s.publishers), batch[i]) && Polled(s.db.outbox, Locked(s.publishers), f);
    AgeIsAddedAt(c, ls, e);
    AgeIsAddedAt(c, ls, f);
  }

  /**
   From step n of the run on there is one replica, which starts idle and commits every batch, and every step that
   adds an event is taken later than `since`.
   */
  ghost predicate OnlyReplica(c: Settings, ls: seq<Label>, n: nat, since: Instant)
    requires Run(c, ls) && n <= |ls|
  {
    if n == |ls| then End(c, ls).publishers == map[]
    else
      var before, l := ls[..|ls| - 1], ls[|ls| - 1];
      && OnlyReplica(c, before, n, since)
      && !l.RollBack? && (l.Poll? ==> End(c, before).publishers == map[])
      && (!(End(c, ls).db.outbox.Keys <= End(c, before).db.outbox.Keys) ==> since < InstantOf(End(c, before), l))
  }

  lemma {:induction false} OnlyIsOne(c: Settings, ls: seq<Label>, n: nat, since: Instant)
    requires Run(c, ls) && n <= |ls| && OnlyReplica(c, ls, n, since)
    ensures OneReplica(c, ls, n, since)
  {
    if n < |ls| {
      var before, l := ls[..|ls| - 1], ls[|ls| - 1];
      OnlyIsOne(c, before, n, since);
      assert Enabled(c, End(c, before), l) && End(c, ls) == Next(c, End(c, before), l);
      forall f | f in End(c, ls).db.outbox && f !in End(c, before).db.outbox
        ensures since < End(c, ls).db.outbox[f].createdAt
      {
        EventAdded(c, End(c, before), l, f);
      }
    }
  }

  /**
   In a run that goes on from step n with one replica, every batch committed and nothing added at an earlier instant,
   an event that waits at step n has been attempted by the time W / BATCH_SIZE + 1 batches have been committed, where
   W is what is left of the retry budgets of the events added at the same instant or before.
   */
  lemma BoundedWait(c: Settings, ls: seq<Label>, n: nat, e: EventId)
    requires Run(c, ls) && n <= |ls| && Run(c, ls[..n])
    requires e in End(c, ls[..n]).db.outbox && End(c, ls[..n]).db.outbox[e].status.Waiting?
    requires OnlyReplica(c, ls, n, AddedAt(c, ls[..n], e))
    requires TotalBudget(c.maxRetries, End(c, ls[..n]).db.outbox, AddedBefore(c, ls[..n], e)) / c.publishBatch
             < Batches(ls, n)
    ensures AttemptedSince(c, ls, n, e)
  {
    hide TotalBudget, AttemptedSince, Ahead, AddedBefore;
    AgeIsAddedAt(c, ls[..n], e);
    AheadIsAddedBefore(c, ls[..n], e);
    OnlyIsOne(c, ls, n, AddedAt(c, ls[..n], e));
    WaitIsBounded(c, ls, n, e);
  }
}
