/**
 The running system as a step machine.  Every step is one that the services, PostgreSQL or Redis
 can take on their own: a commit, an XADD, a delivery, a crash.  Anything may happen between two
 steps, so publishers, consumer workers, schedulers and clients keep the local state on which
 their next step relies, however stale it has become.
 */
module Protocol {
  import opened Collections
  import opened Domain
  import opened Ledger
  import opened LedgerInvariants

  /** A stream entry; message ids count entries over all streams.  Garbage cannot be parsed. */
  datatype Entry = Message(event: EventId, body: EventBody) | Garbage(stream: Stream) {
    function Stream(): Stream {
      if Message? then StreamOf(body) else stream
    }
  }

  /** One consumer group: where delivery of new entries has got to, and its pending entries list. */
  datatype GroupState = GroupState(cursor: nat, pending: set<nat>)

  /** A relay batch in progress: the locked rows, and the outcome of each attempt so far. */
  datatype Publisher = Publisher(batch: seq<EventId>, outcomes: seq<bool>, now: Instant)

  /**
   One message in the hands of a consumer, and how far the consumer has got with it: it has it, from its first
   delivery or a reclaim; has not found its event in the inbox; has taken the snapshot of the profile on which
   detection decides; has read the profile it is going to write; is done, or has recorded it as dead.
   */
  datatype Work =
    | Fetched(group: Group, message: nat, deliveries: nat)
    | Checked(group: Group, message: nat)
    | Informed(group: Group, message: nat, snapshot: Option<Profile>)
    | Primed(group: Group, message: nat, snapshot: Option<Profile>, read: Option<Profile>)
    | Settled(group: Group, message: nat)
    | Condemned(group: Group, message: nat)

  datatype Scheduler = Scheduler(tier: Tier, now: Instant, selected: set<AlertId>)

  datatype State = State(
    db: Db,
    log: seq<Entry>,
    groups: map<Group, GroupState>,
    publishers: map<nat, Publisher>,
    workers: map<nat, Work>,
    schedulers: map<nat, Scheduler>,
    clients: map<nat, string>)

  /** A clean database, empty streams, and both consumer groups created. */
  const START := State(EMPTY, [], map[ProcessorGroup := GroupState(0, {}), CompensationGroup := GroupState(0, {})],
                       map[], map[], map[], map[])

  datatype Label =
    // ingestion
    | CheckKey(client: nat, key: string)
    | Insert(client: nat, t: TxnId, e: EventId, user: UserId, now: Instant)
    | GiveUp(client: nat)
    // relay
    | Poll(p: nat, batch: seq<EventId>, now: Instant)
    | Attempt(p: nat, stored: bool, ok: bool)
    | CommitBatch(p: nat)
    | RollBack(p: nat)
    | Pollute(stream: Stream)
    // consumption
    | Deliver(w: nat, g: Group, m: nat)
    | Reclaim(w: nat, g: Group, m: nat)
    | CheckInbox(w: nat)
    | ReadProfile(w: nat)
    | Detect(w: nat, d: Decision, a: AlertId, e: EventId, now: Instant)
    | Compensate(w: nat)
    | Bury(w: nat)
    | Acknowledge(w: nat)
    | Crash(w: nat)
    // alerts
    | Select(k: nat, tier: Tier, now: Instant, selected: set<AlertId>)
    | Escalate(k: nat, a: AlertId, e: EventId)
    | Finish(k: nat)
    | Resolve(a: AlertId, target: AlertStatus, e: EventId, e2: EventId, now: Instant)

  function UserOf(b: EventBody): UserId {
    match b
    case TransactionCreated(_, u, _) => u
    case AlertCreated(_, _, u) => u
    case AlertResolved(_, u, _) => u
    case EscalationRequested(_, u, _) => u
    case RiskRecalculate(u, _) => u
  }

  predicate KeyKnown(txns: map<TxnId, Txn>, key: string) {
    exists t | t in txns :: txns[t].key == key
  }

  /** The unique index on (idempotency_key, created_at). */
  predicate KeyUsedAt(txns: map<TxnId, Txn>, key: string, at: Instant) {
    exists t | t in txns :: txns[t].key == key && txns[t].createdAt == at
  }

  function Locked(publishers: map<nat, Publisher>): set<EventId> {
    set p, e | p in publishers && e in publishers[p].batch :: e
  }

  predicate Polled(outbox: map<EventId, OutboxRow>, locked: set<EventId>, e: EventId) {
    e in outbox && outbox[e].status.Waiting? && e !in locked
  }

  /** SELECT … WHERE status = 'PENDING' ORDER BY created_at LIMIT n FOR UPDATE SKIP LOCKED. */
  ghost predicate IsPoll(outbox: map<EventId, OutboxRow>, locked: set<EventId>, n: nat, batch: seq<EventId>) {
    && |batch| <= n
    && Distinct(batch)
    && (forall i | 0 <= i < |batch| :: Polled(outbox, locked, batch[i]))
    && (forall i, j | 0 <= i < j < |batch| :: outbox[batch[i]].createdAt <= outbox[batch[j]].createdAt)
    && (forall e | Polled(outbox, locked, e) && e !in batch ::
          |batch| == n && forall i | 0 <= i < |batch| :: outbox[batch[i]].createdAt <= outbox[e].createdAt)
  }

  /** The message a worker is busy with, when it can be parsed. */
  predicate Reads(s: State, w: nat) {
    w in s.workers && s.workers[w].message < |s.log| && s.log[s.workers[w].message].Message?
  }

  function MessageOf(s: State, w: nat): Entry
    requires Reads(s, w)
  {
    s.log[s.workers[w].message]
  }

  predicate InInbox(s: State, w: nat)
    requires Reads(s, w)
  {
    (MessageOf(s, w).event, s.workers[w].group) in s.db.inbox
  }

  /** Detection reads the profile twice, for its decision and for the count; compensation reads it once. */
  function AfterRead(work: Work, profile: Option<Profile>): Work
    requires work.Checked? || work.Informed?
  {
    if work.Informed? then Primed(work.group, work.message, work.snapshot, profile)
    else if work.group.ProcessorGroup? then Informed(work.group, work.message, profile)
    else Primed(work.group, work.message, profile, profile)
  }

  ghost predicate Enabled(c: Settings, s: State, l: Label) {
    match l
    case CheckKey(client, key) => client !in s.clients && !KeyKnown(s.db.txns, key)
    case Insert(client, t, e, user, now) =>
      client in s.clients && t !in s.db.txns && e !in s.db.outbox && !KeyUsedAt(s.db.txns, s.clients[client], now)
    case GiveUp(client) => client in s.clients
    case Poll(p, batch, now) => p !in s.publishers && IsPoll(s.db.outbox, Locked(s.publishers), c.publishBatch, batch)
    case Attempt(p, stored, ok) =>
      && p in s.publishers && |s.publishers[p].outcomes| < |s.publishers[p].batch|
      && s.publishers[p].batch[|s.publishers[p].outcomes|] in s.db.outbox && (ok ==> stored)
    case CommitBatch(p) => p in s.publishers && |s.publishers[p].outcomes| == |s.publishers[p].batch|
    case RollBack(p) => p in s.publishers
    case Pollute(stream) => true
    case Deliver(w, g, m) =>
      && w !in s.workers
      && g in s.groups && s.groups[g].cursor <= m < |s.log| && s.log[m].Stream() == StreamFor(g)
      && forall i | s.groups[g].cursor <= i < m :: s.log[i].Stream() != StreamFor(g)
    case Reclaim(w, g, m) => w !in s.workers && g in s.groups && m in s.groups[g].pending
    case CheckInbox(w) => Reads(s, w) && s.workers[w].Fetched? && s.workers[w].deliveries <= c.maxDeliveries
    case ReadProfile(w) => Reads(s, w) && (s.workers[w].Checked? || s.workers[w].Informed?)
    case Detect(w, d, a, e, now) =>
      && Reads(s, w) && s.workers[w].Primed? && MessageOf(s, w).body.TransactionCreated?
      && s.workers[w].group.ProcessorGroup?
      && !InInbox(s, w)
      && (s.workers[w].read.None? ==> !d.shouldAlert || MessageOf(s, w).body.user !in s.db.profiles)
      && a !in s.db.alerts && e !in s.db.outbox
    case Compensate(w) =>
      && Reads(s, w) && s.workers[w].Primed? && MessageOf(s, w).body.RiskRecalculate?
      && s.workers[w].group.CompensationGroup?
      && !InInbox(s, w)
      && (s.workers[w].read.None? ==> MessageOf(s, w).body.user !in s.db.profiles)
    case Bury(w) =>
      && w in s.workers && s.workers[w].Fetched? && s.workers[w].message < |s.log|
      && (s.workers[w].deliveries > c.maxDeliveries || s.log[s.workers[w].message].Garbage?)
    case Acknowledge(w) =>
      w in s.workers && (s.workers[w].Settled? || s.workers[w].Condemned?) && s.workers[w].group in s.groups
    case Crash(w) => w in s.workers
    case Select(k, tier, now, selected) =>
      && k !in s.schedulers
      && forall a | a in selected ::
           a in s.db.alerts && s.db.alerts[a].status == StatusBefore(tier) && Ripe(c, s.db, a, tier, now)
    case Escalate(k, a, e) => k in s.schedulers && a in s.schedulers[k].selected && e !in s.db.outbox
    case Finish(k) => k in s.schedulers
    case Resolve(a, target, e, e2, now) =>
      Open(s.db, a) && target.Terminal() && e !in s.db.outbox && e2 !in s.db.outbox && e != e2
  }

  ghost function Next(c: Settings, s: State, l: Label): State
    requires Enabled(c, s, l)
  {
    match l
    case CheckKey(client, key) => s.(clients := s.clients[client := key])
    case Insert(client, t, e, user, now) =>
      s.(db := InsertTransaction(s.db, t, e, s.clients[client], user, now), clients := Without(s.clients, client))
    case GiveUp(client) => s.(clients := Without(s.clients, client))
    case Poll(p, batch, now) => s.(publishers := s.publishers[p := Publisher(batch, [], now)])
    case Attempt(p, stored, ok) =>
      var pub := s.publishers[p];
      var e := pub.batch[|pub.outcomes|];
      s.(log := if stored then s.log + [Message(e, s.db.outbox[e].body)] else s.log,
         publishers := s.publishers[p := pub.(outcomes := pub.outcomes + [ok])])
    case CommitBatch(p) =>
      var pub := s.publishers[p];
      s.(db := Settle(c.maxRetries, s.db, pub.batch, pub.outcomes, |pub.batch|, pub.now),
         publishers := Without(s.publishers, p))
    case RollBack(p) => s.(publishers := Without(s.publishers, p))
    case Pollute(stream) => s.(log := s.log + [Garbage(stream)])
    case Deliver(w, g, m) =>
      s.(groups := s.groups[g := GroupState(m + 1, s.groups[g].pending + {m})],
         workers := s.workers[w := Fetched(g, m, 1)])
    case Reclaim(w, g, m) => s.(workers := s.workers[w := Fetched(g, m, 2)])
    case CheckInbox(w) =>
      var work := s.workers[w];
      s.(workers := s.workers[w :=
        if InInbox(s, w) then Settled(work.group, work.message)
        else Checked(work.group, work.message)])
    case ReadProfile(w) =>
      s.(workers := s.workers[w := AfterRead(s.workers[w], Lookup(s.db.profiles, UserOf(MessageOf(s, w).body)))])
    case Detect(w, d, a, e, now) =>
      var msg := MessageOf(s, w);
      s.(db := CommitDetection(s.db, msg.event, msg.body, s.workers[w].read, d, a, e, now),
         workers := s.workers[w := Settled(s.workers[w].group, s.workers[w].message)])
    case Compensate(w) =>
      var msg := MessageOf(s, w);
      s.(db := CommitCompensation(s.db, msg.event, msg.body, s.workers[w].read),
         workers := s.workers[w := Settled(s.workers[w].group, s.workers[w].message)])
    case Bury(w) =>
      var work := s.workers[w];
      s.(db := s.db.(dead := s.db.dead + [OfConsumer(work.group, work.message, work.deliveries)]),
         workers := s.workers[w := Condemned(work.group, work.message)])
    case Acknowledge(w) =>
      var work := s.workers[w];
      var group := s.groups[work.group];
      s.(groups := s.groups[work.group := group.(pending := group.pending - {work.message})],
         workers := Without(s.workers, w))
    case Crash(w) => s.(workers := Without(s.workers, w))
    case Select(k, tier, now, selected) => s.(schedulers := s.schedulers[k := Scheduler(tier, now, selected)])
    case Escalate(k, a, e) =>
      var sched := s.schedulers[k];
      s.(db := EscalateRow(s.db, a, sched.tier, e, sched.now),
         schedulers := s.schedulers[k := sched.(selected := sched.selected - {a})])
    case Finish(k) => s.(schedulers := Without(s.schedulers, k))
    case Resolve(a, target, e, e2, now) => s.(db := CommitResolution(s.db, a, target, e, e2, now))
  }

  // ---------------------------------------------------------------- runs

  /** The steps ls can be taken one after the other from s. */
  ghost predicate Legal(c: Settings, s: State, ls: seq<Label>)
    decreases |ls|, 0
  {
    |ls| == 0 || (Legal(c, s, ls[..|ls| - 1]) && Enabled(c, Exec(c, s, ls[..|ls| - 1]), ls[|ls| - 1]))
  }

  ghost function Exec(c: Settings, s: State, ls: seq<Label>): State
    requires Legal(c, s, ls)
    decreases |ls|, 1
  {
    if |ls| == 0 then s else Next(c, Exec(c, s, ls[..|ls| - 1]), ls[|ls| - 1])
  }

  /** A run from the clean start. */
  ghost predicate Run(c: Settings, ls: seq<Label>) {
    c.Valid() && Legal(c, START, ls)
  }

  ghost function End(c: Settings, ls: seq<Label>): State
    requires Run(c, ls)
  {
    Exec(c, START, ls)
  }

  lemma {:induction false} PrefixLegal(c: Settings, s: State, ls: seq<Label>, n: nat)
    requires Legal(c, s, ls) && n <= |ls|
    ensures Legal(c, s, ls[..n])
  {
    if n < |ls| {
      PrefixLegal(c, s, ls[..|ls| - 1], n);
      assert ls[..|ls| - 1][..n] == ls[..n];
    } else {
      assert ls[..n] == ls;
    }
  }

  /** One more step, from a known state to a known state. */
  lemma ExtendTo(c: Settings, s: State, ls: seq<Label>, t: State, l: Label, u: State)
    requires Legal(c, s, ls) && Exec(c, s, ls) == t && Enabled(c, t, l) && Next(c, t, l) == u
    ensures Legal(c, s, ls + [l]) && Exec(c, s, ls + [l]) == u
  {
    hide Enabled, Next;
    assert (ls + [l])[..|ls|] == ls;
  }

  lemma Extend(c: Settings, ls: seq<Label>, l: Label)
    requires Run(c, ls) && Enabled(c, End(c, ls), l)
    ensures Run(c, ls + [l]) && End(c, ls + [l]) == Next(c, End(c, ls), l)
  {
    ExtendTo(c, START, ls, End(c, ls), l, Next(c, End(c, ls), l));
  }

  lemma RunStep(c: Settings, ls: seq<Label>, n: nat)
    requires Run(c, ls) && n < |ls|
    ensures Run(c, ls[..n]) && Run(c, ls[..n + 1]) && Enabled(c, End(c, ls[..n]), ls[n])
    ensures End(c, ls[..n + 1]) == Next(c, End(c, ls[..n]), ls[n])
  {
    PrefixLegal(c, START, ls, n);
    PrefixLegal(c, START, ls, n + 1);
    assert ls[..n + 1][..n] == ls[..n];
  }

  ghost predicate Moves(c: Settings, s: State, l: Label, t: State) {
    Enabled(c, s, l) && Next(c, s, l) == t
  }

  ghost predicate Reaches(c: Settings, s: State, ls: seq<Label>, t: State) {
    Legal(c, s, ls) && Exec(c, s, ls) == t
  }

  lemma Stay(c: Settings, s: State)
    ensures Reaches(c, s, [], s)
  {
  }

  lemma Reach(c: Settings, s: State, ls: seq<Label>, t: State, l: Label, u: State)
    requires Reaches(c, s, ls, t) && Moves(c, t, l, u)
    ensures Reaches(c, s, ls + [l], u)
  {
    ExtendTo(c, s, ls, t, l, u);
  }

  /** Steps that can be taken from where others lead can be taken after them. */
  lemma {:induction false} Concat(c: Settings, s: State, ls: seq<Label>, more: seq<Label>)
    requires Legal(c, s, ls) && Legal(c, Exec(c, s, ls), more)
    ensures Legal(c, s, ls + more) && Exec(c, s, ls + more) == Exec(c, Exec(c, s, ls), more)
  {
    hide Enabled, Next;
    if |more| == 0 {
      assert ls + more == ls;
    } else {
      var n := |more| - 1;
      var t := Exec(c, Exec(c, s, ls), more[..n]);
      Concat(c, s, ls, more[..n]);
      assert ls + more == ls + more[..n] + [more[n]];
      ExtendTo(c, s, ls + more[..n], t, more[n], Next(c, t, more[n]));
    }
  }
}
