/**
 What can still become of an event, from any reachable state on: it can take effect exactly if it has a chance, which
 a caller can read off the state, and from a limit of two deliveries on every event has one that the publisher has
 not given up on.  With a limit of one, a crash between delivery and commit takes the last chance away.
 */
module Chances {
  import opened Collections
  import opened Domain
  import opened Ledger
  import opened LedgerInvariants
  import opened Protocol
  import opened ProtocolInvariants
  import opened Delivery
  import opened Consumers
  import opened Progress

  // ---------------------------------------------------------------- no step gives a chance

  lemma InboxBack(c: Settings, x: Entry -> Evidence, s: State, l: Label, e: EventId, g: Group)
    requires Enabled(c, s, l) && DecidesOn(x, s, l) && (e, g) !in s.db.inbox && (e, g) in Next(c, s, l).db.inbox
    ensures exists w :: HopefulFor(c, x, s, e, g, w)
  {
    InboxStep(c, s, l, e, g);
    assert HopefulFor(c, x, s, e, g, l.w);
  }

  lemma WaitingBack(c: Settings, s: State, l: Label, e: EventId)
    requires Inv(c, s) && Enabled(c, s, l) && e in s.db.outbox
    ensures e in Next(c, s, l).db.outbox
    ensures Next(c, s, l).db.outbox[e].status.Waiting? ==> s.db.outbox[e].status.Waiting?
  {
    hide LedgerInv, GroupsOk, WorkersOk, SchedulersOk, EntriesOk, RowsOk;
    if l.CommitBatch? {
      var pub := s.publishers[l.p];
      assert PublisherOk(s.db, s.log, pub);
      TriedAt(pub.batch, pub.outcomes, |pub.batch|, e);
      SettleEffect(c.maxRetries, s.db, pub.batch, pub.outcomes, |pub.batch|, pub.now, e);
    } else {
      OtherRows(c, s, l, e);
    }
  }

  /** The log after a step: longer by a copy of a waiting event, by garbage, or not at all. */
  lemma LogBack(c: Settings, s: State, l: Label, m: nat)
    requires PublishersOk(s) && Enabled(c, s, l) && m < |Next(c, s, l).log| && Next(c, s, l).log[m].Message?
    ensures var entry := Next(c, s, l).log[m];
            if m < |s.log| then s.log[m] == entry
            else entry.event in s.db.outbox && s.db.outbox[entry.event].status.Waiting?
  {
    hide InsertTransaction, Settle, CommitDetection, CommitCompensation, EscalateRow, CommitResolution, IsPoll, Ripe,
         Without;
    if l.Attempt? {
      assert PublisherOk(s.db, s.log, s.publishers[l.p]);
    }
  }

  lemma GroupsBack(c: Settings, s: State, l: Label, g: Group)
    requires GroupsOk(s) && Enabled(c, s, l)
    ensures g in s.groups && g in Next(c, s, l).groups
    ensures s.groups[g].cursor <= Next(c, s, l).groups[g].cursor
    ensures forall m | m in Next(c, s, l).groups[g].pending :: s.groups[g].cursor <= m || m in s.groups[g].pending
  {
    hide GroupOk, InsertTransaction, Settle, CommitDetection, CommitCompensation, EscalateRow, CommitResolution, IsPoll,
         Ripe, Without;
  }

  lemma CopyBack(c: Settings, s: State, l: Label, e: EventId, g: Group, m: nat)
    requires Inv(c, s) && Enabled(c, s, l) && CopyLeft(c, Next(c, s, l), e, g, m)
    ensures CopyLeft(c, s, e, g, m) || (e in s.db.outbox && s.db.outbox[e].status.Waiting?)
  {
    LogBack(c, s, l, m);
    GroupsBack(c, s, l, g);
    if m >= |s.log| {
    } else {
      hide Inv, Enabled, Next;
    }
  }

  /** A hopeful consumer was hopeful before the step, or has taken up a copy that was left. */
  lemma HopefulBack(c: Settings, x: Entry -> Evidence, s: State, l: Label, e: EventId, g: Group, w: nat)
    requires Inv(c, s) && Enabled(c, s, l) && HopefulFor(c, x, Next(c, s, l), e, g, w)
    ensures HopefulFor(c, x, s, e, g, w) || exists m: nat :: CopyLeft(c, s, e, g, m)
  {
    hide Enabled, Next, LedgerInv, PublishersOk, SchedulersOk, EntriesOk, RowsOk, DecisionOf;
    var t := Next(c, s, l);
    ProfilesGrow(c, s, l);
    if w in s.workers {
      assert WorkOk(c, s.db, s.log, s.workers[w]);
      if t.workers[w] == s.workers[w] {
        SameHope(c, x, s, t, e, g, w);
      } else {
        HopeMoves(c, x, s, l, e, g, w);
      }
    } else {
      if l.Reclaim? {
        ReclaimedInLog(c, s, l);
      }
      TakenUp(c, x, s, l, e, g, w);
      assert CopyLeft(c, s, e, g, t.workers[w].message);
    }
  }

  lemma ReclaimedInLog(c: Settings, s: State, l: Label)
    requires GroupsOk(s) && Enabled(c, s, l) && l.Reclaim?
    ensures l.m < |s.log|
  {
    assert GroupOk(s.db, s.log, l.g, s.groups[l.g]);
  }

  lemma SameHope(c: Settings, x: Entry -> Evidence, s: State, t: State, e: EventId, g: Group, w: nat)
    requires w in s.workers && w in t.workers && t.workers[w] == s.workers[w] && s.log <= t.log
    requires s.workers[w].message < |s.log| && forall u | u in s.db.profiles :: u in t.db.profiles
    requires HopefulFor(c, x, t, e, g, w)
    ensures HopefulFor(c, x, s, e, g, w)
  {
    hide DecisionOf;
  }

  lemma HopeMoves(c: Settings, x: Entry -> Evidence, s: State, l: Label, e: EventId, g: Group, w: nat)
    requires Enabled(c, s, l) && w in s.workers && s.workers[w].message < |s.log| && s.log <= Next(c, s, l).log
    requires HopefulFor(c, x, Next(c, s, l), e, g, w) && Next(c, s, l).workers[w] != s.workers[w]
    ensures HopefulFor(c, x, s, e, g, w)
  {
    hide DecisionOf, InsertTransaction, Settle, CommitDetection, CommitCompensation, EscalateRow, CommitResolution,
         IsPoll, Ripe;
  }

  lemma TakenUp(c: Settings, x: Entry -> Evidence, s: State, l: Label, e: EventId, g: Group, w: nat)
    requires Enabled(c, s, l) && w !in s.workers && HopefulFor(c, x, Next(c, s, l), e, g, w)
    requires l.Reclaim? ==> l.m < |s.log|
    ensures CopyLeft(c, s, e, g, Next(c, s, l).workers[w].message)
  {
    hide DecisionOf;
    assert l.Deliver? || l.Reclaim?;
  }

  lemma ProfilesGrow(c: Settings, s: State, l: Label)
    requires Inv(c, s) && Enabled(c, s, l)
    ensures s.log <= Next(c, s, l).log && forall u | u in s.db.profiles :: u in Next(c, s, l).db.profiles
  {
    hide Enabled, Next;
    StepGrows(c, s, l);
  }

  /** What has a chance after a step had one before it. */
  lemma ChanceBack(c: Settings, x: Entry -> Evidence, s: State, l: Label, e: EventId, g: Group)
    requires Inv(c, s) && Enabled(c, s, l) && DecidesOn(x, s, l) && e in s.db.outbox
    requires Chance(c, x, Next(c, s, l), e, g)
    ensures Chance(c, x, s, e, g)
  {
    hide Inv, Enabled, Next, DecidesOn, HopefulFor, CopyLeft;
    var t := Next(c, s, l);
    WaitingBack(c, s, l, e);
    if (e, g) in t.db.inbox {
      if (e, g) !in s.db.inbox {
        InboxBack(c, x, s, l, e, g);
      }
    } else if m: nat :| CopyLeft(c, t, e, g, m) {
      CopyBack(c, s, l, e, g, m);
    } else if w :| HopefulFor(c, x, t, e, g, w) {
      HopefulBack(c, x, s, l, e, g, w);
    }
  }

  lemma {:induction false} ChanceGone(c: Settings, x: Entry -> Evidence, s: State, ls: seq<Label>, e: EventId, g: Group)
    requires c.Valid() && Inv(c, s) && Legal(c, s, ls) && Decided(c, x, s, ls) && e in s.db.outbox
    requires !Chance(c, x, s, e, g)
    ensures e in Exec(c, s, ls).db.outbox && !Chance(c, x, Exec(c, s, ls), e, g)
  {
    hide Inv, Enabled, Next, DecidesOn, Chance;
    if |ls| > 0 {
      var before, l := ls[..|ls| - 1], ls[|ls| - 1];
      ChanceGone(c, x, s, before, e, g);
      LegalKeepsInv(c, s, before);
      WaitingBack(c, Exec(c, s, before), l, e);
      if Chance(c, x, Exec(c, s, ls), e, g) {
        ChanceBack(c, x, Exec(c, s, before), l, e, g);
      }
    }
  }

  // ---------------------------------------------------------------- exactly with a chance

  /**
   From every reachable state, whatever has crashed, been duplicated or been rolled back on the way, an event with
   a chance can still take effect, whatever the evidence says, and then has done so exactly once.
   */
  lemma EventCanTakeEffect(c: Settings, x: Entry -> Evidence, ls: seq<Label>, e: EventId, g: Group, now: Instant)
    returns (more: seq<Label>)
    requires Run(c, ls) && e in End(c, ls).db.outbox && StreamOf(End(c, ls).db.outbox[e].body) == StreamFor(g)
    requires Chance(c, x, End(c, ls), e, g)
    ensures Continues(c, x, ls, more)
    ensures (e, g) in End(c, ls + more).db.inbox && EffectCount(c, ls + more, e, g) == 1
  {
    RunInv(c, ls);
    hide Run, End, Legal, Exec, EffectCount, Inv, Chance, Leads;
    var t;
    more, t := TakeChance(c, x, End(c, ls), e, g, now);
    Continue(c, x, ls, more, t);
    ExactlyOnce(c, ls + more, e, g);
  }

  /** It can take effect on some way on exactly if it has a chance. */
  lemma TakesEffectIffChance(c: Settings, x: Entry -> Evidence, ls: seq<Label>, e: EventId, g: Group)
    requires Run(c, ls) && e in End(c, ls).db.outbox && StreamOf(End(c, ls).db.outbox[e].body) == StreamFor(g)
    ensures (exists more :: Continues(c, x, ls, more) && (e, g) in End(c, ls + more).db.inbox)
            <==> Chance(c, x, End(c, ls), e, g)
  {
    RunInv(c, ls);
    hide Run, End, Legal, Exec, EffectCount, Inv;
    if Chance(c, x, End(c, ls), e, g) {
      var more := EventCanTakeEffect(c, x, ls, e, g, 0);
      assert Continues(c, x, ls, more) && (e, g) in End(c, ls + more).db.inbox;
    } else {
      forall more | Continues(c, x, ls, more) ensures (e, g) !in End(c, ls + more).db.inbox {
        ValidRun(c, ls);
        ChanceGone(c, x, End(c, ls), more, e, g);
      }
    }
  }

  lemma ValidRun(c: Settings, ls: seq<Label>)
    requires Run(c, ls)
    ensures c.Valid()
  {
  }

  /** From a limit of two deliveries on, every event has a chance that the publisher has not given up on. */
  lemma ChanceFromTwo(c: Settings, x: Entry -> Evidence, ls: seq<Label>, e: EventId, g: Group)
    requires Run(c, ls) && 2 <= c.maxDeliveries
    requires e in End(c, ls).db.outbox && !End(c, ls).db.outbox[e].status.DeadLettered?
    requires StreamOf(End(c, ls).db.outbox[e].body) == StreamFor(g)
    ensures Chance(c, x, End(c, ls), e, g)
  {
    RunInv(c, ls);
    ReadableNeverBuried(c, ls);
    CopyUnlessDone(c, x, End(c, ls), e, g);
  }

  lemma CopyUnlessDone(c: Settings, x: Entry -> Evidence, s: State, e: EventId, g: Group)
    requires Inv(c, s) && OnlyGarbageBuried(s) && 2 <= c.maxDeliveries
    requires e in s.db.outbox && !s.db.outbox[e].status.DeadLettered?
    requires StreamOf(s.db.outbox[e].body) == StreamFor(g)
    ensures Chance(c, x, s, e, g)
  {
    hide LedgerInv, WorkersOk, PublishersOk, SchedulersOk, HopefulFor;
    assert RowOk(c, s.db.dead, s.log, e, s.db.outbox[e]);
    if s.db.outbox[e].status.Published? {
      var m :| 0 <= m < |s.log| && s.log[m].Message? && s.log[m].event == e;
      EntryStream(s, m);
      assert GroupOk(s.db, s.log, g, s.groups[g]);
      if (e, g) !in s.db.inbox {
        assert CopyLeft(c, s, e, g, m);
      }
    }
  }

  // ---------------------------------------------------------------- messages and rows

  /**
   A message that a crashed consumer left pending can be dealt with: a readable one with its event in the inbox,
   from a limit of two deliveries on.
   */
  lemma PendingCanFinish(c: Settings, x: Entry -> Evidence, ls: seq<Label>, g: Group, m: nat, now: Instant)
    returns (more: seq<Label>)
    requires Run(c, ls) && g in End(c, ls).groups && m in End(c, ls).groups[g].pending
    ensures Continues(c, x, ls, more)
    ensures var s := End(c, ls + more);
            && Handled(s.db, s.log, g, m) && g in s.groups && m !in s.groups[g].pending
            && (2 <= c.maxDeliveries && s.log[m].Message? ==> (s.log[m].event, g) in s.db.inbox)
  {
    var s := End(c, ls);
    RunInv(c, ls);
    ValidRun(c, ls);
    hide Run, End, Legal, Exec, Inv, Leads;
    var t, w;
    more, t, w := FinishPending(c, x, s, g, m, now);
    Continue(c, x, ls, more, t);
  }

  /**
   Wherever its group has got to, every stream entry can be dealt with; a readable one with its event in the inbox
   if it has not been delivered yet, or from a limit of two deliveries on.
   */
  lemma EntryCanBeHandled(c: Settings, x: Entry -> Evidence, ls: seq<Label>, g: Group, m: nat, now: Instant)
    returns (more: seq<Label>)
    requires Run(c, ls) && m < |End(c, ls).log| && End(c, ls).log[m].Stream() == StreamFor(g)
    ensures Continues(c, x, ls, more) && g in End(c, ls).groups
    ensures var s := End(c, ls + more);
            && Handled(s.db, s.log, g, m) && g in s.groups && m !in s.groups[g].pending
            && (s.log[m].Message? && (2 <= c.maxDeliveries || End(c, ls).groups[g].cursor <= m) ==>
                  (s.log[m].event, g) in s.db.inbox)
  {
    RunInv(c, ls);
    ValidRun(c, ls);
    if 2 <= c.maxDeliveries {
      ReadableNeverBuried(c, ls);
    }
    hide Run, End, Legal, Exec, Inv, Leads, OnlyGarbageBuried, Handled, Enabled, Next;
    var t;
    more, t := HandleEntry(c, x, End(c, ls), g, m, now);
    Continue(c, x, ls, more, t);
  }

  lemma HandleEntry(c: Settings, x: Entry -> Evidence, s: State, g: Group, m: nat, now: Instant)
    returns (more: seq<Label>, t: State)
    requires c.Valid() && Inv(c, s) && (2 <= c.maxDeliveries ==> OnlyGarbageBuried(s))
    requires m < |s.log| && s.log[m].Stream() == StreamFor(g)
    ensures Leads(c, x, s, more, t) && t.log == s.log && g in s.groups
    ensures Handled(t.db, t.log, g, m) && g in t.groups && m !in t.groups[g].pending
    ensures s.log[m].Message? && (2 <= c.maxDeliveries || s.groups[g].cursor <= m) ==> (s.log[m].event, g) in t.db.inbox
  {
    assert GroupOk(s.db, s.log, g, s.groups[g]);
    hide Inv, Leads, GroupOk, OnlyGarbageBuried, Handled;
    if s.groups[g].cursor <= m {
      more, t := HandleUndelivered(c, x, s, g, m, now);
    } else if m in s.groups[g].pending {
      var w;
      more, t, w := FinishPending(c, x, s, g, m, now);
    } else {
      more, t := [], s;
      NoStep(c, x, s);
      HandledHere(c, s, g, m);
    }
  }

  lemma HandledHere(c: Settings, s: State, g: Group, m: nat)
    requires g in s.groups && GroupOk(s.db, s.log, g, s.groups[g]) && (2 <= c.maxDeliveries ==> OnlyGarbageBuried(s))
    requires m < |s.log| && s.log[m].Stream() == StreamFor(g) && m < s.groups[g].cursor && m !in s.groups[g].pending
    ensures Handled(s.db, s.log, g, m)
    ensures 2 <= c.maxDeliveries && s.log[m].Message? ==> (s.log[m].event, g) in s.db.inbox
  {
  }

  lemma HandleUndelivered(c: Settings, x: Entry -> Evidence, s: State, g: Group, m: nat, now: Instant)
    returns (ls: seq<Label>, t: State)
    requires c.Valid() && m < |s.log| && s.log[m].Stream() == StreamFor(g)
    requires g in s.groups && s.groups[g].cursor <= m
    ensures Leads(c, x, s, ls, t) && t.log == s.log
    ensures Handled(t.db, t.log, g, m) && g in t.groups && m !in t.groups[g].pending
    ensures s.log[m].Message? ==> (s.log[m].event, g) in t.db.inbox
  {
    hide Leads;
    var u, more;
    var w := FreshKey(s.workers);
    ls, u := DeliverUpTo(c, x, s, g, m, w);
    var v :| Takes(u, v, g, m, 1);
    more, t := OneCall(c, x, u, v, g, m, 1, now);
    Then(c, x, s, ls, u, more, t);
    ls := ls + more;
  }

  /** Crashed replicas give their rows back, so from every reachable state a waiting event can be published. */
  lemma WaitingCanBePublished(c: Settings, x: Entry -> Evidence, ls: seq<Label>, e: EventId, now: Instant)
    returns (more: seq<Label>)
    requires Run(c, ls) && e in End(c, ls).db.outbox && End(c, ls).db.outbox[e].status.Waiting?
    ensures Continues(c, x, ls, more)
    ensures e in End(c, ls + more).db.outbox && End(c, ls + more).db.outbox[e].status.Published?
    ensures CopyBehind(End(c, ls + more).log, |End(c, ls).log|, e, End(c, ls).db.outbox[e].body)
  {
    RunInv(c, ls);
    ValidRun(c, ls);
    hide Run, End, Legal, Exec, Inv, Leads, CopyBehind;
    var t;
    more, t := PublishWaiting(c, x, End(c, ls), e, now);
    Continue(c, x, ls, more, t);
  }

  // ---------------------------------------------------------------- a limit of one

  /**
   With a limit of one, a consumer that crashes right after a message was delivered to it leaves the event without
   a chance: published, never processed, and on no way on will it be, although nothing has been given up on yet.
   */
  lemma CrashTakesLastChance(c: Settings, x: Entry -> Evidence) returns (ls: seq<Label>)
    requires c.Valid() && c.maxDeliveries == 1
    ensures Run(c, ls) && 0 in End(c, ls).db.outbox && End(c, ls).db.outbox[0].status.Published?
    ensures End(c, ls).db.dead == [] && !Chance(c, x, End(c, ls), 0, ProcessorGroup)
  {
    ls := CrashedConsumer(c);
  }
}
