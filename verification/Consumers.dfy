/**
 The two consumers of the processor: one stream message as a worker handles it, from the delivery
 threshold to the acknowledgement, and the same seen as a run of the protocol.
 */
module Consumers {
  import opened Collections
  import opened Domain
  import opened Ledger
  import opened Protocol
  import opened Rules
  import opened Scoring
  import opened Storage
  import opened Compensation

  /** What a call comes to: True, False, or an exception that reaches the caller. */
  datatype Outcome = Completed | LeftPending | Raised

  /** Which of the outside calls fail: the inbox query, the commit, and the XACK after it. */
  datatype Faults = Faults(check: bool, commit: bool, ack: bool)

  // ---------------------------------------------------------------- what a message comes to

  /** Buried or not recorded as dead, not looked up, already in the inbox, or committed or rolled back. */
  datatype Fate = Buried | Unrecorded | Unchecked | Duplicate | Committed | RolledBack {
    /** The worker goes on to acknowledge the message. */
    predicate Acknowledges() {
      Buried? || Duplicate? || Committed?
    }
  }

  predicate Condemns(c: Settings, log: seq<Entry>, m: nat, deliveries: nat)
    requires m < |log|
  {
    deliveries > c.maxDeliveries || log[m].Garbage?
  }

  /** `seen` are the tables at the inbox check; `refused` says that the tables at the commit refuse it. */
  function FateOf(c: Settings, seen: Db, log: seq<Entry>, g: Group, m: nat, deliveries: nat, faults: Faults,
      refused: bool): Fate
    requires m < |log|
  {
    if Condemns(c, log, m, deliveries) then (if faults.commit then Unrecorded else Buried)
    else if faults.check then Unchecked
    else if (log[m].event, g) in seen.inbox then Duplicate
    else if faults.commit || refused then RolledBack
    else Committed
  }

  /** The tables afterwards, when `effect` is what a commit would make of them. */
  function TablesAfter(db: Db, g: Group, m: nat, deliveries: nat, fate: Fate, effect: Db): Db {
    if fate.Buried? then db.(dead := db.dead + [OfConsumer(g, m, deliveries)])
    else if fate.Committed? then effect
    else db
  }

  function Released(groups: map<Group, GroupState>, g: Group, m: nat): map<Group, GroupState>
    requires g in groups
  {
    groups[g := groups[g].(pending := groups[g].pending - {m})]
  }

  function GroupsAfter(groups: map<Group, GroupState>, g: Group, m: nat, fate: Fate, faults: Faults)
    : map<Group, GroupState>
    requires g in groups
  {
    if fate.Acknowledges() && !faults.ack then Released(groups, g, m) else groups
  }

  method Acknowledge(redis: Redis, g: Group, m: nat, fails: bool) returns (ok: bool)
    requires g in redis.groups
    modifies redis`groups
    ensures ok == !fails
    ensures redis.groups == if fails then old(redis.groups) else Released(old(redis.groups), g, m)
  {
    ok := !fails;
    if !fails {
      redis.groups := redis.groups[g := redis.groups[g].(pending := redis.groups[g].pending - {m})];
    }
  }

  /** The dead-letter row is committed first; a failure of either call leaves through an exception. */
  method HandleDeadLetter(database: Database, redis: Redis, g: Group, m: nat, deliveries: nat, faults: Faults)
    returns (r: Outcome)
    requires g in redis.groups
    modifies database, redis`groups
    ensures var fate := if faults.commit then Unrecorded else Buried;
            && database.tables == TablesAfter(old(database.tables), g, m, deliveries, fate, old(database.tables))
            && redis.groups == GroupsAfter(old(redis.groups), g, m, fate, faults)
            && r == (if faults.commit || faults.ack then Raised else Completed)
  {
    if faults.commit {
      return Raised;
    }
    database.tables := database.tables.(dead := database.tables.dead + [OfConsumer(g, m, deliveries)]);
    var ok := Acknowledge(redis, g, m, faults.ack);
    r := if ok then Completed else Raised;
  }

  // ---------------------------------------------------------------- detection

  /**
   What detection has to go on besides the tables: the payload, the activity in the window, the cached rules,
   the model's score and the weights.
   */
  datatype Evidence = Evidence(amount: real, currency: string, country: string, merchant: string,
                               activity: Activity, rules: seq<Rule>, ml: real, weights: Weights)

  /** Without a profile the snapshot has a risk of zero. */
  function SnapshotRisk(read: Option<Profile>): real {
    match read
    case None => 0.0
    case Some(p) => p.score as real / ONE as real
  }

  function ContextOf(x: Evidence, read: Option<Profile>): Context {
    Context(x.amount, x.currency, x.country, x.merchant, Some(x.activity), Some(SnapshotRisk(read)))
  }

  function DecisionOf(x: Evidence, read: Option<Profile>): Decision {
    Detection(x.rules, ContextOf(x, read), x.ml, x.weights)
  }

  /**
   The primary keys of inbox and profiles refuse a commit: the event has been processed, or a profile created,
   since the worker has looked.
   */
  predicate Refuses(tables: Db, event: EventId, g: Group, user: UserId, read: Option<Profile>, writesProfile: bool) {
    (event, g) in tables.inbox || (writesProfile && read.None? && user in tables.profiles)
  }

  /**
   Detection as one database transaction: it decides on the profile in `seen`, counts on top of the one in `later`,
   and commits to the tables as they are by then.
   */
  method ProcessTransactionEvent(database: Database, seen: Db, later: Db, event: EventId, body: EventBody, x: Evidence,
      a: AlertId, e: EventId, now: Instant, fails: bool)
    returns (committed: bool, decision: Decision)
    requires body.TransactionCreated?
    modifies database
    ensures decision == DecisionOf(x, Lookup(seen.profiles, body.user))
    ensures committed <==>
            && !fails
            && !Refuses(old(database.tables), event, ProcessorGroup, body.user, Lookup(later.profiles, body.user),
                        decision.shouldAlert)
    ensures database.tables ==
            if committed
            then CommitDetection(old(database.tables), event, body, Lookup(later.profiles, body.user), decision, a, e,
                                 now)
            else old(database.tables)
    ensures forall t | t in old(database.tables.txns)
                       && (t != body.txn || old(database.tables.txns)[t].createdAt != body.at) ::
              t in database.tables.txns && database.tables.txns[t] == old(database.tables.txns)[t]
  {
    var snapshot := Lookup(seen.profiles, body.user);
    var context := ContextOf(x, snapshot);
    var matches := EvaluateRules(x.rules, context);
    decision := Decide(matches, x.ml, context.risk, x.weights);
    var existing := Lookup(later.profiles, body.user);
    committed := !fails && !Refuses(database.tables, event, ProcessorGroup, body.user, existing, decision.shouldAlert);
    if !committed {
      return;
    }
    var tables := database.tables;
    tables := tables.(txns := MarkProcessed(tables.txns, body.txn, body.at, now));
    if decision.shouldAlert {
      var alert := Alert(body.txn, body.user, Pending, decision.severity, decision.score, now, None, None, None);
      tables := tables.(alerts := tables.alerts[a := alert]);
      tables := Enqueue(tables, e, AlertCreated(a, body.txn, body.user), now);
      if existing.None? {
        tables := tables.(profiles := tables.profiles[body.user := Profile(1, 0, 0)]);
      } else if body.user in tables.profiles {
        var profile := tables.profiles[body.user];
        tables := tables.(profiles := tables.profiles[body.user := profile.(total := existing.value.total + 1)]);
      }
    }
    tables := tables.(inbox := tables.inbox + {(event, ProcessorGroup)});
    database.tables := tables;
  }

  predicate DetectionRefused(seen: Db, later: Db, tables: Db, entry: Entry, x: Evidence)
    requires entry.Stream() == Transactions
  {
    entry.Message?
    && var d := DecisionOf(x, Lookup(seen.profiles, entry.body.user));
       Refuses(tables, entry.event, ProcessorGroup, entry.body.user, Lookup(later.profiles, entry.body.user),
               d.shouldAlert)
  }

  function DetectionEffect(seen: Db, later: Db, tables: Db, entry: Entry, x: Evidence, a: AlertId, e: EventId,
      now: Instant): Db
    requires entry.Stream() == Transactions
  {
    if entry.Garbage? then tables
    else
      var d := DecisionOf(x, Lookup(seen.profiles, entry.body.user));
      CommitDetection(tables, entry.event, entry.body, Lookup(later.profiles, entry.body.user), d, a, e, now)
  }

  /**
   A transaction message, with `seen` for the tables at the inbox check and the snapshot of the profile, and
   `later` for those at the query behind it.  From the inbox check on every failure, that of the XACK included,
   leaves it pending.
   */
  method ProcessTransactionMessage(c: Settings, database: Database, seen: Db, later: Db, redis: Redis, m: nat,
      deliveries: nat, x: Evidence, a: AlertId, e: EventId, now: Instant, faults: Faults)
    returns (r: Outcome)
    requires ProcessorGroup in redis.groups && m < |redis.log| && redis.log[m].Stream() == Transactions
    modifies database, redis`groups
    ensures var tables := old(database.tables);
            var fate := FateOf(c, seen, redis.log, ProcessorGroup, m, deliveries, faults,
                               DetectionRefused(seen, later, tables, redis.log[m], x));
            && database.tables == TablesAfter(tables, ProcessorGroup, m, deliveries, fate,
                                              DetectionEffect(seen, later, tables, redis.log[m], x, a, e, now))
            && redis.groups == GroupsAfter(old(redis.groups), ProcessorGroup, m, fate, faults)
            && r == (if fate.Unrecorded? || (fate.Buried? && faults.ack) then Raised
                     else if fate.Unchecked? || fate.RolledBack? || faults.ack then LeftPending
                     else Completed)
  {
    if deliveries > c.maxDeliveries || redis.log[m].Garbage? {
      r := HandleDeadLetter(database, redis, ProcessorGroup, m, deliveries, faults);
      return;
    }
    if faults.check {
      return LeftPending;
    }
    var event, body := redis.log[m].event, redis.log[m].body;
    if (event, ProcessorGroup) !in seen.inbox {
      var committed, _ := ProcessTransactionEvent(database, seen, later, event, body, x, a, e, now, faults.commit);
      if !committed {
        return LeftPending;
      }
    }
    var ok := Acknowledge(redis, ProcessorGroup, m, faults.ack);
    r := if ok then Completed else LeftPending;
  }

  // ---------------------------------------------------------------- compensation

  predicate CompensationRefused(seen: Db, tables: Db, entry: Entry)
    requires entry.Stream() == Stream.Compensation
  {
    entry.Message?
    && Refuses(tables, entry.event, CompensationGroup, entry.body.user, Lookup(seen.profiles, entry.body.user), true)
  }

  function CompensationEffect(seen: Db, tables: Db, entry: Entry): Db
    requires entry.Stream() == Stream.Compensation
  {
    if entry.Garbage? then tables
    else CommitCompensation(tables, entry.event, entry.body, Lookup(seen.profiles, entry.body.user))
  }

  /** The columns of a loaded profile that have changed, written to the row as it is by now. */
  function Written(row: Profile, loaded: Profile, changed: Profile): Profile {
    Profile(if changed.total == loaded.total then row.total else changed.total,
            if changed.falsePositives == loaded.falsePositives then row.falsePositives else changed.falsePositives,
            if changed.score == loaded.score then row.score else changed.score)
  }

  /** A recalculation message.  Inbox check and XACK are outside the try block, so their failures are exceptions. */
  method ProcessCompensationMessage(c: Settings, database: Database, seen: Db, redis: Redis, m: nat, deliveries: nat,
      faults: Faults)
    returns (r: Outcome)
    requires CompensationGroup in redis.groups && m < |redis.log| && redis.log[m].Stream() == Stream.Compensation
    modifies database, redis`groups
    ensures var tables := old(database.tables);
            var fate := FateOf(c, seen, redis.log, CompensationGroup, m, deliveries, faults,
                               CompensationRefused(seen, tables, redis.log[m]));
            && database.tables == TablesAfter(tables, CompensationGroup, m, deliveries, fate,
                                              CompensationEffect(seen, tables, redis.log[m]))
            && redis.groups == GroupsAfter(old(redis.groups), CompensationGroup, m, fate, faults)
            && r == (if fate.Unrecorded? || fate.Unchecked? then Raised
                     else if fate.RolledBack? then LeftPending
                     else if faults.ack then Raised
                     else Completed)
  {
    if deliveries > c.maxDeliveries || redis.log[m].Garbage? {
      r := HandleDeadLetter(database, redis, CompensationGroup, m, deliveries, faults);
      return;
    }
    if faults.check {
      return Raised;
    }
    var event, body := redis.log[m].event, redis.log[m].body;
    if (event, CompensationGroup) !in seen.inbox {
      var existing: RiskProfile? := null;
      if body.user in seen.profiles {
        existing := new RiskProfile(seen.profiles[body.user]);
      }
      var profile := RecalculateUserRiskProfile(existing);
      var tables := database.tables;
      if faults.commit || (event, CompensationGroup) in tables.inbox ||
        (existing == null && body.user in tables.profiles) {
        return LeftPending;
      }
      if existing == null {
        tables := tables.(profiles := tables.profiles[body.user := profile.Row()]);
      } else if body.user in tables.profiles {
        var row := Written(tables.profiles[body.user], seen.profiles[body.user], profile.Row());
        tables := tables.(profiles := tables.profiles[body.user := row]);
      }
      database.tables := tables.(inbox := tables.inbox + {(event, CompensationGroup)});
    }
    var ok := Acknowledge(redis, CompensationGroup, m, faults.ack);
    r := if ok then Completed else Raised;
  }

  // ---------------------------------------------------------------- decisions on given evidence

  /** A detection decides as the evidence for its message has it, on the snapshot its worker has taken. */
  ghost predicate DecidesOn(x: Entry -> Evidence, s: State, l: Label) {
    l.Detect? ==>
      && Reads(s, l.w) && s.workers[l.w].Primed?
      && l.d == DecisionOf(x(MessageOf(s, l.w)), s.workers[l.w].snapshot)
  }

  /** So does every detection among the steps. */
  ghost predicate Decided(c: Settings, x: Entry -> Evidence, s: State, ls: seq<Label>)
    requires Legal(c, s, ls)
  {
    |ls| == 0
    || (Decided(c, x, s, ls[..|ls| - 1]) && DecidesOn(x, Exec(c, s, ls[..|ls| - 1]), ls[|ls| - 1]))
  }

  lemma {:induction false} DecidedConcat(c: Settings, x: Entry -> Evidence, s: State, ls: seq<Label>, more: seq<Label>)
    requires Legal(c, s, ls) && Decided(c, x, s, ls)
    requires Legal(c, Exec(c, s, ls), more) && Decided(c, x, Exec(c, s, ls), more)
    ensures Legal(c, s, ls + more) && Decided(c, x, s, ls + more)
  {
    hide Enabled, Next, DecidesOn;
    Concat(c, s, ls, more);
    if |more| == 0 {
      assert ls + more == ls;
    } else {
      var n := |more| - 1;
      DecidedConcat(c, x, s, ls, more[..n]);
      Concat(c, s, ls, more[..n]);
      assert (ls + more)[..|ls + more| - 1] == ls + more[..n] && (ls + more)[|ls + more| - 1] == more[n];
    }
  }

  /** Steps other than detections decide nothing. */
  lemma {:induction false} NothingDecided(c: Settings, x: Entry -> Evidence, s: State, ls: seq<Label>)
    requires Legal(c, s, ls) && forall i | 0 <= i < |ls| :: !ls[i].Detect?
    ensures Decided(c, x, s, ls)
  {
    if |ls| > 0 {
      NothingDecided(c, x, s, ls[..|ls| - 1]);
    }
  }

  // ---------------------------------------------------------------- a message is a run of the protocol

  /** The system while worker w is at its message, with the tables as given. */
  function At(s: State, w: nat, work: Work, db: Db): State {
    s.(db := db, workers := s.workers[w := work])
  }

  /** Worker w has a message of its group in hand, delivered to it or reclaimed. */
  ghost predicate Takes(s: State, w: nat, g: Group, m: nat, deliveries: nat) {
    && w in s.workers && s.workers[w] == Fetched(g, m, deliveries)
    && g in s.groups && m < |s.log| && s.log[m].Stream() == StreamFor(g)
  }

  function ReadFor(s: State, m: nat): Option<Profile> {
    if m < |s.log| && s.log[m].Message? then Lookup(s.db.profiles, UserOf(s.log[m].body)) else None
  }

  predicate DetectsNothing(ls: seq<Label>) {
    forall i | 0 <= i < |ls| :: !ls[i].Detect?
  }

  // What the worker finds out before it decides: nothing, or whether the event is processed, and then the profile.

  lemma CheckMoves(c: Settings, s: State, w: nat, g: Group, m: nat, deliveries: nat)
    requires Takes(s, w, g, m, deliveries) && !Condemns(c, s.log, m, deliveries)
    ensures Moves(c, s, CheckInbox(w),
                  At(s, w, if (s.log[m].event, g) in s.db.inbox then Settled(g, m) else Checked(g, m), s.db))
  {
  }

  lemma ReadMoves(c: Settings, s: State, w: nat, g: Group, m: nat)
    requires m < |s.log| && s.log[m].Message?
    ensures Moves(c, At(s, w, Checked(g, m), s.db), ReadProfile(w),
                  At(s, w, AfterRead(Checked(g, m), ReadFor(s, m)), s.db))
  {
    var work := AfterRead(Checked(g, m), ReadFor(s, m));
    assert s.workers[w := Checked(g, m)][w := work] == s.workers[w := work];
  }

  /** How far the worker has got when it has looked at what it acts on. */
  function WorkLooked(c: Settings, s: State, g: Group, m: nat, deliveries: nat, faults: Faults): Work
    requires m < |s.log|
  {
    if Condemns(c, s.log, m, deliveries) || faults.check then Fetched(g, m, deliveries)
    else if (s.log[m].event, g) in s.db.inbox then Settled(g, m)
    else AfterRead(Checked(g, m), ReadFor(s, m))
  }

  /** The system at that moment. */
  function Looked(c: Settings, s: State, w: nat, g: Group, m: nat, deliveries: nat, faults: Faults): State
    requires m < |s.log|
  {
    At(s, w, WorkLooked(c, s, g, m, deliveries, faults), s.db)
  }

  lemma LookIsRun(c: Settings, s: State, w: nat, g: Group, m: nat, deliveries: nat, faults: Faults)
    returns (ls: seq<Label>)
    requires Takes(s, w, g, m, deliveries)
    ensures Reaches(c, s, ls, Looked(c, s, w, g, m, deliveries, faults)) && DetectsNothing(ls)
  {
    if Condemns(c, s.log, m, deliveries) || faults.check {
      assert At(s, w, Fetched(g, m, deliveries), s.db) == s;
      Stay(c, s);
      ls := [];
    } else {
      ls := LooksUp(c, s, w, g, m, deliveries);
    }
  }

  lemma LooksUp(c: Settings, s: State, w: nat, g: Group, m: nat, deliveries: nat) returns (ls: seq<Label>)
    requires Takes(s, w, g, m, deliveries) && !Condemns(c, s.log, m, deliveries)
    ensures var work := if (s.log[m].event, g) in s.db.inbox then Settled(g, m)
                        else AfterRead(Checked(g, m), ReadFor(s, m));
            Reaches(c, s, ls, At(s, w, work, s.db))
    ensures DetectsNothing(ls)
  {
    hide Reaches, Moves, At, ReadFor, Next, Enabled;
    Stay(c, s);
    CheckMoves(c, s, w, g, m, deliveries);
    ls := [] + [CheckInbox(w)];
    if (s.log[m].event, g) in s.db.inbox {
      Reach(c, s, [], s, CheckInbox(w), At(s, w, Settled(g, m), s.db));
    } else {
      Reach(c, s, [], s, CheckInbox(w), At(s, w, Checked(g, m), s.db));
      ReadMoves(c, s, w, g, m);
      Reach(c, s, ls, At(s, w, Checked(g, m), s.db), ReadProfile(w),
            At(s, w, AfterRead(Checked(g, m), ReadFor(s, m)), s.db));
      ls := ls + [ReadProfile(w)];
    }
  }

  // How it then acts, on tables and groups that may have changed since.

  /** Worker w has been left alone at its message since it has looked, and may have read the profile once more. */
  ghost predicate Undisturbed(c: Settings, s: State, w: nat, g: Group, m: nat, deliveries: nat, faults: Faults,
      t: State) {
    && m < |s.log| && s.log <= t.log && g in t.groups && w in t.workers
    && var looked, work := WorkLooked(c, s, g, m, deliveries, faults), t.workers[w];
       work == looked || (looked.Informed? && work.Primed? && work.group == g && work.message == m)
  }

  /** The committing step of a detection or compensation worker, by which the tables become `effect`. */
  ghost predicate Effects(c: Settings, t: State, w: nat, g: Group, m: nat, l: Label, effect: Db) {
    Moves(c, t, l, At(t, w, Settled(g, m), effect))
  }

  lemma BuryMoves(c: Settings, t: State, w: nat, g: Group, m: nat, deliveries: nat)
    requires w in t.workers && t.workers[w] == Fetched(g, m, deliveries)
    requires m < |t.log| && Condemns(c, t.log, m, deliveries)
    ensures Moves(c, t, Bury(w), At(t, w, Condemned(g, m), t.db.(dead := t.db.dead + [OfConsumer(g, m, deliveries)])))
  {
  }

  /** The worker's last step: the acknowledgement, or the end of an attempt that leaves the message pending. */
  lemma LastMoves(c: Settings, t: State, w: nat, g: Group, m: nat, acks: bool)
    requires g in t.groups && w in t.workers && t.workers[w].group == g && t.workers[w].message == m
    requires acks ==> t.workers[w].Settled? || t.workers[w].Condemned?
    ensures Moves(c, t, if acks then Label.Acknowledge(w) else Crash(w),
                  t.(groups := if acks then Released(t.groups, g, m) else t.groups, workers := Without(t.workers, w)))
  {
  }

  /** What the call makes of tables, groups and worker. */
  function Acted(t: State, w: nat, g: Group, m: nat, deliveries: nat, fate: Fate, effect: Db, faults: Faults): State
    requires g in t.groups
  {
    t.(db := TablesAfter(t.db, g, m, deliveries, fate, effect),
       groups := GroupsAfter(t.groups, g, m, fate, faults),
       workers := Without(t.workers, w))
  }

  /** The steps by which the worker acts: the one, if any, that changes the tables, and the last. */
  function ActLabels(w: nat, fate: Fate, l: Label, faults: Faults): seq<Label> {
    (if fate.Buried? then [Bury(w)] else if fate.Committed? then [l] else [])
    + [if fate.Acknowledges() && !faults.ack then Label.Acknowledge(w) else Crash(w)]
  }

  function WorkActed(t: State, w: nat, g: Group, m: nat, fate: Fate): Work
    requires w in t.workers
  {
    if fate.Buried? then Condemned(g, m) else if fate.Committed? then Settled(g, m) else t.workers[w]
  }

  lemma ActMoves(c: Settings, s: State, w: nat, g: Group, m: nat, deliveries: nat, faults: Faults, refused: bool,
      t: State, l: Label, effect: Db)
    requires Undisturbed(c, s, w, g, m, deliveries, faults, t)
    requires FateOf(c, s.db, s.log, g, m, deliveries, faults, refused).Committed? ==> Effects(c, t, w, g, m, l, effect)
    ensures var fate := FateOf(c, s.db, s.log, g, m, deliveries, faults, refused);
            Reaches(c, t, if fate.Buried? then [Bury(w)] else if fate.Committed? then [l] else [],
                    ActedUpTo(t, w, g, m, deliveries, fate, effect))
  {
    var fate := FateOf(c, s.db, s.log, g, m, deliveries, faults, refused);
    Stay(c, t);
    assert t == At(t, w, t.workers[w], t.db);
    if fate.Buried? {
      BuryMoves(c, t, w, g, m, deliveries);
    }
    hide Reaches, Moves, At;
    if fate.Buried? {
      Reach(c, t, [], t, Bury(w), At(t, w, Condemned(g, m), t.db.(dead := t.db.dead + [OfConsumer(g, m, deliveries)])));
      assert [] + [Bury(w)] == [Bury(w)];
    } else if fate.Committed? {
      Reach(c, t, [], t, l, At(t, w, Settled(g, m), effect));
      assert [] + [l] == [l];
    }
  }

  /** The system before the last step of the call. */
  function ActedUpTo(t: State, w: nat, g: Group, m: nat, deliveries: nat, fate: Fate, effect: Db): State
    requires w in t.workers
  {
    At(t, w, WorkActed(t, w, g, m, fate), TablesAfter(t.db, g, m, deliveries, fate, effect))
  }

  lemma ActLast(c: Settings, t: State, w: nat, g: Group, m: nat, deliveries: nat, fate: Fate, effect: Db,
      faults: Faults)
    requires g in t.groups && w in t.workers && t.workers[w].group == g && t.workers[w].message == m
    requires fate.Duplicate? ==> t.workers[w].Settled?
    ensures Moves(c, ActedUpTo(t, w, g, m, deliveries, fate, effect),
                  if fate.Acknowledges() && !faults.ack then Label.Acknowledge(w) else Crash(w),
                  Acted(t, w, g, m, deliveries, fate, effect, faults))
  {
    var u := ActedUpTo(t, w, g, m, deliveries, fate, effect);
    hide Moves, TablesAfter;
    LastMoves(c, u, w, g, m, fate.Acknowledges() && !faults.ack);
    assert Without(u.workers, w) == Without(t.workers, w);
  }

  lemma ActIsRun(c: Settings, s: State, w: nat, g: Group, m: nat, deliveries: nat, faults: Faults, refused: bool,
      t: State, l: Label, effect: Db)
    requires Undisturbed(c, s, w, g, m, deliveries, faults, t)
    requires FateOf(c, s.db, s.log, g, m, deliveries, faults, refused).Committed? ==> Effects(c, t, w, g, m, l, effect)
    ensures var fate := FateOf(c, s.db, s.log, g, m, deliveries, faults, refused);
            Reaches(c, t, ActLabels(w, fate, l, faults), Acted(t, w, g, m, deliveries, fate, effect, faults))
  {
    hide Reaches, Moves, Effects, TablesAfter, Acted, ActedUpTo;
    var fate := FateOf(c, s.db, s.log, g, m, deliveries, faults, refused);
    ActMoves(c, s, w, g, m, deliveries, faults, refused, t, l, effect);
    ActLast(c, t, w, g, m, deliveries, fate, effect, faults);
    Reach(c, t, if fate.Buried? then [Bury(w)] else if fate.Committed? then [l] else [],
          ActedUpTo(t, w, g, m, deliveries, fate, effect),
          if fate.Acknowledges() && !faults.ack then Label.Acknowledge(w) else Crash(w),
          Acted(t, w, g, m, deliveries, fate, effect, faults));
  }

  /** The call decides on the evidence if its committing step does. */
  lemma ActDecides(c: Settings, x: Entry -> Evidence, t: State, w: nat, fate: Fate, l: Label, faults: Faults)
    requires Legal(c, t, ActLabels(w, fate, l, faults)) && (fate.Committed? ==> DecidesOn(x, t, l))
    ensures Decided(c, x, t, ActLabels(w, fate, l, faults))
  {
    var ls := ActLabels(w, fate, l, faults);
    if fate.Committed? {
      assert ls[..|ls| - 1] == [l] && [l][..0] == [];
      assert Decided(c, x, t, []);
      assert Exec(c, t, []) == t;
      assert Decided(c, x, t, [l]);
    } else {
      NothingDecided(c, x, t, ls);
    }
  }

  /**
   What a call does to tables and pending lists, worker w does in the protocol's own steps, with `between` for
   whatever the rest of the system does between its queries and its commit.
   */
  lemma MessageIsRun(c: Settings, s: State, w: nat, g: Group, m: nat, deliveries: nat, faults: Faults, refused: bool,
      between: seq<Label>, t: State, l: Label, effect: Db, x: Entry -> Evidence)
    returns (ls: seq<Label>)
    requires Takes(s, w, g, m, deliveries) && Reaches(c, Looked(c, s, w, g, m, deliveries, faults), between, t)
    requires Undisturbed(c, s, w, g, m, deliveries, faults, t)
    requires FateOf(c, s.db, s.log, g, m, deliveries, faults, refused).Committed? ==>
               Effects(c, t, w, g, m, l, effect) && DecidesOn(x, t, l)
    ensures Reaches(c, s, ls, Acted(t, w, g, m, deliveries, FateOf(c, s.db, s.log, g, m, deliveries, faults, refused),
                                    effect, faults))
    ensures Decided(c, x, Looked(c, s, w, g, m, deliveries, faults), between) ==> Decided(c, x, s, ls)
  {
    hide FateOf, Effects, Undisturbed, Looked, Acted, Decided, Next, Enabled, DecidesOn;
    var fate := FateOf(c, s.db, s.log, g, m, deliveries, faults, refused);
    var look := LookIsRun(c, s, w, g, m, deliveries, faults);
    var act := ActLabels(w, fate, l, faults);
    ActIsRun(c, s, w, g, m, deliveries, faults, refused, t, l, effect);
    Concat(c, s, look, between);
    Concat(c, s, look + between, act);
    ls := look + between + act;
    if Decided(c, x, Looked(c, s, w, g, m, deliveries, faults), between) {
      NothingDecided(c, x, s, look);
      ActDecides(c, x, t, w, fate, l, faults);
      DecidedConcat(c, x, s, look, between);
      DecidedConcat(c, x, s, look + between, act);
    }
  }

  lemma DetectionMoves(c: Settings, t: State, w: nat, m: nat, snapshot: Option<Profile>, read: Option<Profile>,
      d: Decision, a: AlertId, e: EventId, now: Instant)
    requires m < |t.log| && t.log[m].Message? && t.log[m].Stream() == Transactions
    requires w in t.workers && t.workers[w] == Primed(ProcessorGroup, m, snapshot, read)
    requires a !in t.db.alerts && e !in t.db.outbox
    requires !Refuses(t.db, t.log[m].event, ProcessorGroup, t.log[m].body.user, read, d.shouldAlert)
    ensures Effects(c, t, w, ProcessorGroup, m, Detect(w, d, a, e, now),
                    CommitDetection(t.db, t.log[m].event, t.log[m].body, read, d, a, e, now))
  {
  }

  lemma CompensationMoves(c: Settings, t: State, w: nat, m: nat, read: Option<Profile>)
    requires m < |t.log| && t.log[m].Message? && t.log[m].Stream() == Stream.Compensation
    requires w in t.workers && t.workers[w] == Primed(CompensationGroup, m, read, read)
    requires !Refuses(t.db, t.log[m].event, CompensationGroup, t.log[m].body.user, read, true)
    ensures Effects(c, t, w, CompensationGroup, m, Compensate(w),
                    CommitCompensation(t.db, t.log[m].event, t.log[m].body, read))
  {
  }

  /** A detection worker that has taken its snapshot reads the profile once more. */
  function Reread(t: State, w: nat): State
    requires w in t.workers
  {
    if t.workers[w].Informed?
    then t.(workers := t.workers[w := AfterRead(t.workers[w], ReadFor(t, t.workers[w].message))])
    else t
  }

  /** The worker's second query is a step, if it comes to it. */
  lemma RereadIsRun(c: Settings, t: State, w: nat) returns (ls: seq<Label>)
    requires w in t.workers && (t.workers[w].Informed? ==> Reads(t, w))
    ensures Reaches(c, t, ls, Reread(t, w)) && DetectsNothing(ls)
  {
    Stay(c, t);
    ls := [];
    if t.workers[w].Informed? {
      Reach(c, t, [], t, ReadProfile(w), Reread(t, w));
      ls := [] + [ReadProfile(w)];
    }
  }

  /** The steps of others before and after that query, with the query between them. */
  lemma AroundReread(c: Settings, x: Entry -> Evidence, s: State, between: seq<Label>, t: State, w: nat,
      between': seq<Label>, u: State)
    returns (ls: seq<Label>)
    requires Reaches(c, s, between, t) && w in t.workers && (t.workers[w].Informed? ==> Reads(t, w))
    requires Reaches(c, Reread(t, w), between', u)
    ensures Reaches(c, s, ls, u)
    ensures Decided(c, x, s, between) && Decided(c, x, Reread(t, w), between') ==> Decided(c, x, s, ls)
  {
    var read := RereadIsRun(c, t, w);
    hide Next, Enabled, Reread, Decided, DecidesOn;
    Concat(c, s, between, read);
    Concat(c, s, between + read, between');
    ls := between + read + between';
    if Decided(c, x, s, between) && Decided(c, x, Reread(t, w), between') {
      NothingDecided(c, x, t, read);
      DecidedConcat(c, x, s, between, read);
      DecidedConcat(c, x, s, between + read, between');
    }
  }

  /**
   A call of the transaction consumer is a run, whatever its evidence, its faults and the steps of others: those
   in `between` come between snapshot and second query, those in `between'` between second query and commit.  The
   call decides on the evidence for its message.
   */
  lemma TransactionMessageIsRun(c: Settings, s: State, w: nat, m: nat, deliveries: nat, x: Entry -> Evidence,
      a: AlertId, e: EventId, now: Instant, faults: Faults, between: seq<Label>, t: State, between': seq<Label>,
      u: State)
    returns (ls: seq<Label>)
    requires Takes(s, w, ProcessorGroup, m, deliveries) && a !in u.db.alerts && e !in u.db.outbox
    requires Reaches(c, Looked(c, s, w, ProcessorGroup, m, deliveries, faults), between, t) && s.log <= t.log
    requires w in t.workers && t.workers[w] == WorkLooked(c, s, ProcessorGroup, m, deliveries, faults)
    requires Reaches(c, Reread(t, w), between', u) && t.log <= u.log && ProcessorGroup in u.groups
    requires w in u.workers && u.workers[w] == Reread(t, w).workers[w]
    ensures var fate := FateOf(c, s.db, s.log, ProcessorGroup, m, deliveries, faults,
                               DetectionRefused(s.db, t.db, u.db, s.log[m], x(s.log[m])));
            var effect := DetectionEffect(s.db, t.db, u.db, s.log[m], x(s.log[m]), a, e, now);
            Reaches(c, s, ls, Acted(u, w, ProcessorGroup, m, deliveries, fate, effect, faults))
    ensures Decided(c, x, Looked(c, s, w, ProcessorGroup, m, deliveries, faults), between) ==>
              Decided(c, x, Reread(t, w), between') ==> Decided(c, x, s, ls)
  {
    var looked := Looked(c, s, w, ProcessorGroup, m, deliveries, faults);
    var refused := DetectionRefused(s.db, t.db, u.db, s.log[m], x(s.log[m]));
    var effect := DetectionEffect(s.db, t.db, u.db, s.log[m], x(s.log[m]), a, e, now);
    var d := DecisionOf(x(s.log[m]), ReadFor(s, m));
    assert t.log[m] == s.log[m] && u.log[m] == s.log[m];
    if FateOf(c, s.db, s.log, ProcessorGroup, m, deliveries, faults, refused).Committed? {
      DetectionMoves(c, u, w, m, ReadFor(s, m), ReadFor(t, m), d, a, e, now);
    }
    hide Reaches, Effects, Acted, Looked, Decided, Next, Enabled;
    var around := AroundReread(c, x, looked, between, t, w, between', u);
    ls := MessageIsRun(c, s, w, ProcessorGroup, m, deliveries, faults, refused, around, u,
                       Detect(w, d, a, e, now), effect, x);
  }

  /** A call of the compensation consumer is a run, whatever its faults and the steps of others in between. */
  lemma CompensationMessageIsRun(c: Settings, s: State, w: nat, m: nat, deliveries: nat, faults: Faults,
      between: seq<Label>, t: State, x: Entry -> Evidence)
    returns (ls: seq<Label>)
    requires Takes(s, w, CompensationGroup, m, deliveries)
    requires Reaches(c, Looked(c, s, w, CompensationGroup, m, deliveries, faults), between, t)
    requires Undisturbed(c, s, w, CompensationGroup, m, deliveries, faults, t)
    ensures var fate := FateOf(c, s.db, s.log, CompensationGroup, m, deliveries, faults,
                               CompensationRefused(s.db, t.db, s.log[m]));
            Reaches(c, s, ls, Acted(t, w, CompensationGroup, m, deliveries, fate,
                                    CompensationEffect(s.db, t.db, s.log[m]), faults))
    ensures Decided(c, x, Looked(c, s, w, CompensationGroup, m, deliveries, faults), between) ==> Decided(c, x, s, ls)
  {
    var refused := CompensationRefused(s.db, t.db, s.log[m]);
    var effect := CompensationEffect(s.db, t.db, s.log[m]);
    if FateOf(c, s.db, s.log, CompensationGroup, m, deliveries, faults, refused).Committed? {
      assert t.log[m] == s.log[m];
      CompensationMoves(c, t, w, m, ReadFor(s, m));
    }
    hide Reaches, Effects, Acted, Looked;
    ls := MessageIsRun(c, s, w, CompensationGroup, m, deliveries, faults, refused, between, t, Compensate(w), effect,
                       x);
  }
}
