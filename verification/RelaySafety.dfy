/** The outbox publisher over whole runs: several replicas, lost answers, crashes and rolled-back batches. */
module RelaySafety {
  import opened Domain
  import opened LedgerInvariants
  import opened Protocol
  import opened ProtocolInvariants

  /**
   Batches in progress never share an event.  A pending event has attempts left, a published one is
   in its stream, and a dead-lettered one has used up its attempts and has exactly one dead-letter row.
   */
  lemma RelayInvariant(c: Settings, ls: seq<Label>)
    requires Run(c, ls)
    ensures var s := End(c, ls);
            && (forall p, q, e | p in s.publishers && q in s.publishers && p != q
                                 && e in s.publishers[p].batch :: e !in s.publishers[q].batch)
            && (forall e | e in s.db.outbox ::
                  match s.db.outbox[e].status
                  case Waiting => s.db.outbox[e].retries < c.maxRetries && Abandoned(s.db.dead, e) == 0
                  case Published => InLog(s.log, e) && Abandoned(s.db.dead, e) == 0 && s.db.outbox[e].publishedAt.Some?
                  case DeadLettered => s.db.outbox[e].retries == c.maxRetries && Abandoned(s.db.dead, e) == 1)
            && (forall e | e !in s.db.outbox :: Abandoned(s.db.dead, e) == 0)
  {
    RunInv(c, ls);
    var s := End(c, ls);
    forall e | e in s.db.outbox ensures RowOk(c, s.db.dead, s.log, e, s.db.outbox[e]) {
    }
  }

  /** No step touches the row of an event that was published or given up on. */
  lemma SettledStep(c: Settings, s: State, l: Label, e: EventId)
    requires Enabled(c, s, l) && PublishersOk(s) && e in s.db.outbox && !s.db.outbox[e].status.Waiting?
    ensures e in Next(c, s, l).db.outbox && Next(c, s, l).db.outbox[e] == s.db.outbox[e]
  {
    if l.CommitBatch? {
      var pub := s.publishers[l.p];
      assert PublisherOk(s.db, s.log, pub);
      assert e !in pub.batch;
      assert pub.batch[..|pub.batch|] == pub.batch;
      TriedAt(pub.batch, pub.outcomes, |pub.batch|, e);
      SettleEffect(c.maxRetries, s.db, pub.batch, pub.outcomes, |pub.batch|, pub.now, e);
    } else {
      OtherRows(c, s, l, e);
    }
  }

  /** Published and dead-lettered are final, down to the last column of the row. */
  lemma {:induction false} SettledIsFinal(c: Settings, ls: seq<Label>, n: nat, e: EventId)
    requires Run(c, ls) && n <= |ls| && Run(c, ls[..n])
    requires e in End(c, ls[..n]).db.outbox && !End(c, ls[..n]).db.outbox[e].status.Waiting?
    ensures e in End(c, ls).db.outbox && End(c, ls).db.outbox[e] == End(c, ls[..n]).db.outbox[e]
  {
    if n == |ls| {
      assert ls[..n] == ls;
    } else {
      var before := ls[..|ls| - 1];
      assert before[..n] == ls[..n];
      SettledIsFinal(c, before, n, e);
      RunInv(c, before);
      SettledStep(c, End(c, before), ls[|ls| - 1], e);
    }
  }

  /** How many entries of the streams are copies of e. */
  function CopiesOf(log: seq<Entry>, e: EventId): nat {
    if |log| == 0 then 0
    else
      var last := log[|log| - 1];
      CopiesOf(log[..|log| - 1], e) + if last.Message? && last.event == e then 1 else 0
  }

  /** How many attempts of the run stored an entry for e, whether or not the publisher heard of it. */
  ghost function StoredAttempts(c: Settings, ls: seq<Label>, e: EventId): nat
    requires Run(c, ls)
  {
    if |ls| == 0 then 0
    else
      var before, l := ls[..|ls| - 1], ls[|ls| - 1];
      StoredAttempts(c, before, e)
      + if l.Attempt? && l.stored && Attempts(End(c, before), l.p, e) then 1 else 0
  }

  /** Replica p is about to attempt e. */
  predicate Attempts(s: State, p: nat, e: EventId) {
    p in s.publishers && |s.publishers[p].outcomes| < |s.publishers[p].batch|
    && s.publishers[p].batch[|s.publishers[p].outcomes|] == e
  }

  /** Streams hold one copy for every attempt that stored one, however its batch ended. */
  lemma {:induction false} CopiesAreAttempts(c: Settings, ls: seq<Label>, e: EventId)
    requires Run(c, ls)
    ensures CopiesOf(End(c, ls).log, e) == StoredAttempts(c, ls, e)
  {
    if |ls| > 0 {
      CopiesAreAttempts(c, ls[..|ls| - 1], e);
      CopiesStep(c, End(c, ls[..|ls| - 1]), ls[|ls| - 1], e);
    }
  }

  /** Every XADD that stored its entry was answered, and no batch was rolled back. */
  predicate Faultless(ls: seq<Label>) {
    forall i | 0 <= i < |ls| :: !ls[i].RollBack? && (ls[i].Attempt? ==> ls[i].stored == ls[i].ok)
  }

  /** A batch in progress has stored e. */
  ghost predicate InProgress(s: State, e: EventId) {
    exists p | p in s.publishers :: StoredIn(s.publishers[p], e)
  }

  predicate StoredIn(pub: Publisher, e: EventId) {
    exists i | 0 <= i < |pub.batch| && i < |pub.outcomes| :: pub.batch[i] == e && pub.outcomes[i]
  }

  /** The copies of e that its row, or a batch in progress, accounts for. */
  ghost function Accounted(s: State, e: EventId): nat {
    if (e in s.db.outbox && s.db.outbox[e].status.Published?) || InProgress(s, e) then 1 else 0
  }

  lemma AttemptAccounts(c: Settings, s: State, l: Label, e: EventId)
    requires PublishersOk(s) && Enabled(c, s, l) && l.Attempt? && l.stored == l.ok
    ensures Accounted(Next(c, s, l), e) == Accounted(s, e) + if l.stored && Attempts(s, l.p, e) then 1 else 0
  {
    var t := Next(c, s, l);
    var pub, pub' := s.publishers[l.p], t.publishers[l.p];
    var n := |pub.outcomes|;
    assert PublisherOk(s.db, s.log, pub);
    if l.stored && pub.batch[n] == e {
      assert pub'.batch[n] == e && pub'.outcomes[n];
      assert StoredIn(pub', e);
      assert InProgress(t, e);
      forall p | p in s.publishers ensures !StoredIn(s.publishers[p], e) {
        assert p != l.p ==> e !in s.publishers[p].batch;
      }
    } else {
      forall i | 0 <= i < |pub'.batch| && i < |pub'.outcomes| && pub'.batch[i] == e && pub'.outcomes[i] ensures i < n {
      }
      assert StoredIn(pub', e) <==> StoredIn(pub, e);
      assert forall p | p in s.publishers && p != l.p :: t.publishers[p] == s.publishers[p];
      assert InProgress(t, e) <==> InProgress(s, e);
    }
  }

  lemma CommitAccounts(c: Settings, s: State, p: nat, e: EventId)
    requires PublishersOk(s) && Enabled(c, s, CommitBatch(p))
    ensures Accounted(Next(c, s, CommitBatch(p)), e) == Accounted(s, e)
  {
    var t := Next(c, s, CommitBatch(p));
    var pub := s.publishers[p];
    assert PublisherOk(s.db, s.log, pub);
    SettleSameBusiness(c.maxRetries, s.db, pub.batch, pub.outcomes, |pub.batch|, pub.now);
    if e in s.db.outbox {
      TriedAt(pub.batch, pub.outcomes, |pub.batch|, e);
      SettleEffect(c.maxRetries, s.db, pub.batch, pub.outcomes, |pub.batch|, pub.now, e);
    }
    assert pub.batch[..|pub.batch|] == pub.batch;
    forall q | q in s.publishers && q != p ensures q in t.publishers && t.publishers[q] == s.publishers[q] {
    }
    if e in pub.batch {
      forall q | q in s.publishers && q != p ensures !StoredIn(s.publishers[q], e) {
        assert e !in s.publishers[q].batch;
      }
    } else {
      assert !StoredIn(pub, e);
    }
  }

  lemma OtherAccounts(c: Settings, s: State, l: Label, e: EventId)
    requires Enabled(c, s, l) && !l.Attempt? && !l.CommitBatch? && !l.RollBack?
    ensures Accounted(Next(c, s, l), e) == Accounted(s, e)
  {
    var t := Next(c, s, l);
    OtherRows(c, s, l, e);
    if l.Poll? {
      assert !StoredIn(t.publishers[l.p], e);
      assert forall p | p in s.publishers :: t.publishers[p] == s.publishers[p];
    } else {
      assert t.publishers == s.publishers;
    }
  }

  /**
   Only lost answers and rolled-back batches duplicate: in a run without either, the streams hold one copy of every
   event that is published or on its way to be, and none of any other.
   */
  lemma {:induction false} OneCopyEach(c: Settings, ls: seq<Label>, e: EventId)
    requires Run(c, ls) && Faultless(ls)
    ensures CopiesOf(End(c, ls).log, e) == Accounted(End(c, ls), e)
  {
    if |ls| > 0 {
      var before, l := ls[..|ls| - 1], ls[|ls| - 1];
      var s := End(c, before);
      OneCopyEach(c, before, e);
      RunInv(c, before);
      CopiesStep(c, s, l, e);
      assert Enabled(c, s, l) && End(c, ls) == Next(c, s, l);
      hide Run, End, Legal, Exec, Enabled, Next, LedgerInv, GroupsOk, WorkersOk, SchedulersOk, EntriesOk, RowsOk,
           PublishersOk, Accounted, CopiesOf;
      if l.Attempt? {
        AttemptAccounts(c, s, l, e);
      } else if l.CommitBatch? {
        CommitAccounts(c, s, l.p, e);
      } else {
        OtherAccounts(c, s, l, e);
      }
    }
  }

  lemma CopiesStep(c: Settings, s: State, l: Label, e: EventId)
    requires Enabled(c, s, l)
    ensures CopiesOf(Next(c, s, l).log, e)
            == CopiesOf(s.log, e) + if l.Attempt? && l.stored && Attempts(s, l.p, e) then 1 else 0
  {
    if (l.Attempt? && l.stored) || l.Pollute? {
      assert Next(c, s, l).log[..|s.log|] == s.log;
    } else {
      assert Next(c, s, l).log == s.log;
    }
  }
}
