/**
 The whole system runs down: from every reachable state some run leads to rest, whatever the evidence makes of the
 transactions still to be processed, and however many alerts and further events come of them.
 */
module Drain {
  import opened Collections
  import opened Domain
  import opened Ledger
  import opened LedgerInvariants
  import opened Protocol
  import opened ProtocolInvariants
  import opened Delivery
  import opened Consumers
  import opened Progress

  /** Transactions whose detection has yet to be committed; each may still raise an alert, which is one more event. */
  ghost function Unprocessed(db: Db): set<EventId> {
    set e | e in db.outbox && db.outbox[e].body.TransactionCreated? && (e, ProcessorGroup) !in db.inbox
  }

  /** How many entries the cursors of both groups have not passed yet. */
  function Undelivered(s: State): int {
    if ProcessorGroup in s.groups && CompensationGroup in s.groups
    then 2 * |s.log| - s.groups[ProcessorGroup].cursor - s.groups[CompensationGroup].cursor
    else 0
  }

  function PendingCount(s: State): nat {
    if ProcessorGroup in s.groups && CompensationGroup in s.groups
    then |s.groups[ProcessorGroup].pending| + |s.groups[CompensationGroup].pending|
    else 0
  }

  /** An entry of a group's stream that its cursor has not passed yet. */
  ghost predicate Ahead(s: State, g: Group, m: nat) {
    g in s.groups && s.groups[g].cursor <= m < |s.log| && s.log[m].Stream() == StreamFor(g)
  }

  /** At rest, with no batch open and no consumer in the middle of a call. */
  ghost predicate Still(s: State) {
    AtRest(s) && s.publishers == map[] && s.workers == map[]
  }

  /** What is left to do, in the order in which the drain does it. */
  ghost predicate Less(s: State, t: State) {
    || |t.publishers| < |s.publishers|
    || (|t.publishers| == |s.publishers|
        && (|| |t.workers| < |s.workers|
            || (|t.workers| == |s.workers|
                && (|| Unprocessed(t.db) < Unprocessed(s.db)
                    || (Unprocessed(t.db) == Unprocessed(s.db) && LessTraffic(s, t))))))
  }

  ghost predicate LessTraffic(s: State, t: State) {
    || WaitingRows(t.db.outbox) < WaitingRows(s.db.outbox)
    || (WaitingRows(t.db.outbox) == WaitingRows(s.db.outbox)
        && (|| Undelivered(t) < Undelivered(s)
            || (Undelivered(t) == Undelivered(s) && PendingCount(t) < PendingCount(s))))
  }

  ghost predicate BothGroups(s: State) {
    && ProcessorGroup in s.groups && CompensationGroup in s.groups
    && s.groups[ProcessorGroup].cursor <= |s.log| && s.groups[CompensationGroup].cursor <= |s.log|
  }

  lemma GroupsThere(s: State)
    requires GroupsOk(s)
    ensures BothGroups(s) && 0 <= Undelivered(s)
  {
    assert GroupOk(s.db, s.log, ProcessorGroup, s.groups[ProcessorGroup]);
    assert GroupOk(s.db, s.log, CompensationGroup, s.groups[CompensationGroup]);
  }

  /** A detection leaves one transaction less, any other call changes no outbox row and so adds no traffic. */
  lemma CalledLess(c: Settings, s: State, u: State, t: State, w: nat, g: Group, m: nat, d: nat)
    requires EntriesOk(s.db.outbox, s.log) && BothGroups(s) && w !in s.workers
    requires u == s.(groups := u.groups, workers := u.workers) && u.workers.Keys == s.workers.Keys + {w}
    requires g in u.groups && m < |u.log| && u.log[m].Stream() == StreamFor(g) && Called(c, u, t, w, g, m, d)
    requires forall h | h in s.groups :: h in u.groups && (h != g ==> u.groups[h] == s.groups[h])
    requires if u.groups[g].cursor == s.groups[g].cursor
             then u.groups[g] == s.groups[g] && m in s.groups[g].pending
             else u.groups[g].cursor > s.groups[g].cursor
    ensures Less(s, t)
  {
    assert Without(u.workers, w).Keys == s.workers.Keys;
    assert |Without(u.workers, w)| == |Without(u.workers, w).Keys| && |s.workers| == |s.workers.Keys|;
    if t.db.outbox != s.db.outbox {
      DetectedLess(c, s, u, t, w, g, m, d);
    } else {
      assert Unprocessed(t.db) <= Unprocessed(s.db);
      QuietLess(c, s, u, t, w, g, m, d);
    }
  }

  lemma DetectedLess(c: Settings, s: State, u: State, t: State, w: nat, g: Group, m: nat, d: nat)
    requires EntriesOk(s.db.outbox, s.log) && u == s.(groups := u.groups, workers := u.workers)
    requires g in u.groups && m < |u.log| && u.log[m].Stream() == StreamFor(g) && Called(c, u, t, w, g, m, d)
    requires t.db.outbox != s.db.outbox
    ensures Unprocessed(t.db) < Unprocessed(s.db)
  {
    var e := s.log[m].event;
    assert s.db.outbox[e].body == s.log[m].body;
    assert e in Unprocessed(s.db) && e !in Unprocessed(t.db);
    forall f | f in Unprocessed(t.db) ensures f in Unprocessed(s.db) {
    }
  }

  lemma QuietLess(c: Settings, s: State, u: State, t: State, w: nat, g: Group, m: nat, d: nat)
    requires BothGroups(s) && u == s.(groups := u.groups, workers := u.workers)
    requires g in u.groups && m < |u.log| && Called(c, u, t, w, g, m, d) && t.db.outbox == s.db.outbox
    requires forall h | h in s.groups :: h in u.groups && (h != g ==> u.groups[h] == s.groups[h])
    requires if u.groups[g].cursor == s.groups[g].cursor
             then u.groups[g] == s.groups[g] && m in s.groups[g].pending
             else u.groups[g].cursor > s.groups[g].cursor
    ensures LessTraffic(s, t)
  {
    if u.groups[g] == s.groups[g] {
      assert s.groups[g].pending == (s.groups[g].pending - {m}) + {m};
    }
  }

  // ---------------------------------------------------------------- one thing done

  lemma DrainDelivery(c: Settings, x: Entry -> Evidence, s: State, g: Group, m: nat, now: Instant)
    returns (ls: seq<Label>, t: State)
    requires c.Valid() && EntriesOk(s.db.outbox, s.log) && BothGroups(s) && Ahead(s, g, m)
    ensures Leads(c, x, s, ls, t) && Less(s, t)
  {
    var w := FreshKey(s.workers);
    var i := NextFor(s.log, g, s.groups[g].cursor, m);
    var u := s.(groups := s.groups[g := GroupState(i + 1, s.groups[g].pending + {i})],
                workers := s.workers[w := Fetched(g, i, 1)]);
    DeliverStep(c, x, s, w, g, i);
    hide Leads, Called, Less;
    var more;
    more, t := OneCall(c, x, u, w, g, i, 1, now);
    Then(c, x, s, [Deliver(w, g, i)], u, more, t);
    ls := [Deliver(w, g, i)] + more;
    CalledLess(c, s, u, t, w, g, i, 1);
  }

  lemma DrainPending(c: Settings, x: Entry -> Evidence, s: State, g: Group, m: nat, now: Instant)
    returns (ls: seq<Label>, t: State)
    requires c.Valid() && Inv(c, s) && g in s.groups && m in s.groups[g].pending
    ensures Leads(c, x, s, ls, t) && Less(s, t)
  {
    GroupsThere(s);
    assert GroupOk(s.db, s.log, g, s.groups[g]);
    hide Leads, Called, Less, Inv;
    var w;
    ls, t, w := FinishPending(c, x, s, g, m, now);
    var u := s.(workers := s.workers[w := Fetched(g, m, 2)]);
    CalledFrom(c, s, u, t, w, g, m);
    CalledLess(c, s, u, t, w, g, m, 2);
  }

  lemma CalledFrom(c: Settings, s: State, u: State, t: State, w: nat, g: Group, m: nat)
    requires w !in s.workers && g in s.groups && m < |s.log| && u == s.(workers := s.workers[w := Fetched(g, m, 2)])
    requires Called(c, s, t, w, g, m, 2)
    ensures Called(c, u, t, w, g, m, 2)
  {
    assert Without(u.workers, w) == s.workers == Without(s.workers, w);
  }

  lemma DrainCrash(c: Settings, x: Entry -> Evidence, s: State, l: Label) returns (t: State)
    requires (l.RollBack? && l.p in s.publishers) || (l.Crash? && l.w in s.workers)
    ensures Leads(c, x, s, [l], t) && Less(s, t)
  {
    t := if l.RollBack? then s.(publishers := Without(s.publishers, l.p)) else s.(workers := Without(s.workers, l.w));
    OneStep(c, x, s, l, t);
    if l.RollBack? {
      WithoutShrinks(s.publishers, l.p);
    } else {
      WithoutShrinks(s.workers, l.w);
    }
  }

  lemma RelayedLess(s: State, t: State)
    requires Relayed(s, t) && WaitingRows(t.db.outbox) < WaitingRows(s.db.outbox)
    ensures Less(s, t)
  {
    assert Unprocessed(t.db) == Unprocessed(s.db);
  }

  /** Whatever is not still can do something that leaves less to do. */
  lemma DrainStep(c: Settings, x: Entry -> Evidence, s: State, now: Instant) returns (ls: seq<Label>, t: State)
    requires c.Valid() && Inv(c, s) && !Still(s)
    ensures Leads(c, x, s, ls, t) && Less(s, t)
  {
    GroupsThere(s);
    hide Leads, Less, LedgerInv, WorkersOk, RowsOk, PublishersOk, SchedulersOk, GroupOk;
    if p :| p in s.publishers {
      ls := [RollBack(p)];
      t := DrainCrash(c, x, s, RollBack(p));
    } else if w :| w in s.workers {
      ls := [Crash(w)];
      t := DrainCrash(c, x, s, Crash(w));
    } else if e :| e in s.db.outbox && s.db.outbox[e].status.Waiting? {
      assert Locked(s.publishers) == {};
      ls, t := OneBatch(c, x, s, e, now);
      RelayedLess(s, t);
    } else if g, m: nat :| Ahead(s, g, m) {
      ls, t := DrainDelivery(c, x, s, g, m, now);
    } else {
      var g, m: nat :| m < |s.log| && s.log[m].Stream() == StreamFor(g)
                       && !(g in s.groups && m < s.groups[g].cursor && m !in s.groups[g].pending);
      assert g in s.groups && !Ahead(s, g, m);
      ls, t := DrainPending(c, x, s, g, m, now);
    }
  }

  // ---------------------------------------------------------------- down to rest

  lemma {:induction false} DrainFrom(c: Settings, x: Entry -> Evidence, s: State, now: Instant)
    returns (ls: seq<Label>, t: State)
    requires c.Valid() && Inv(c, s)
    ensures Leads(c, x, s, ls, t) && Still(t)
    decreases |s.publishers|, |s.workers|, Unprocessed(s.db), WaitingRows(s.db.outbox), Undelivered(s), PendingCount(s)
  {
    GroupsThere(s);
    hide Leads, Still, Undelivered, PendingCount, Unprocessed, WaitingRows, Inv, BothGroups;
    if Still(s) {
      NoStep(c, x, s);
      ls, t := [], s;
    } else {
      var u, more;
      ls, u := DrainStep(c, x, s, now);
      LeadsKeepInv(c, x, s, ls, u);
      more, t := DrainFrom(c, x, u, now);
      Then(c, x, s, ls, u, more, t);
      ls := ls + more;
    }
  }

  /**
   From every reachable state, and whatever the evidence says, some run leads to rest: nothing waits to be relayed,
   delivered or acknowledged, no batch is open and no consumer in the middle of a call.
   */
  lemma CanDrain(c: Settings, x: Entry -> Evidence, ls: seq<Label>, now: Instant) returns (more: seq<Label>)
    requires Run(c, ls)
    ensures Continues(c, x, ls, more) && Still(End(c, ls + more))
  {
    RunInv(c, ls);
    assert c.Valid();
    hide Run, End, Legal, Exec, Still, Inv, Leads;
    var t;
    more, t := DrainFrom(c, x, End(c, ls), now);
    Continue(c, x, ls, more, t);
  }

  /**
   And from a limit of two deliveries on, where that run comes to rest every event the publisher has not given
   up on has taken effect exactly once in every group that reads it.
   */
  lemma CanDrainCompletely(c: Settings, x: Entry -> Evidence, ls: seq<Label>, now: Instant) returns (more: seq<Label>)
    requires Run(c, ls) && 2 <= c.maxDeliveries
    ensures Continues(c, x, ls, more) && Still(End(c, ls + more))
    ensures var db := End(c, ls + more).db;
            forall e, g | e in db.outbox && !db.outbox[e].status.DeadLettered? &&
              StreamOf(db.outbox[e].body) == StreamFor(g) ::
              (e, g) in db.inbox && EffectCount(c, ls + more, e, g) == 1
  {
    more := CanDrain(c, x, ls, now);
    var db := End(c, ls + more).db;
    forall e, g | e in db.outbox && !db.outbox[e].status.DeadLettered? && StreamOf(db.outbox[e].body) == StreamFor(g)
      ensures (e, g) in db.inbox && EffectCount(c, ls + more, e, g) == 1
    {
      AtRestReadableDone(c, ls + more, e, g);
    }
  }
}
