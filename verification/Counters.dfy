/**
 The counters of a user's risk profile against the tables they summarise.  Detection and
 compensation read the profile first and write it at commit, so a counter can lose updates: it
 never counts too much, and it is exact precisely when no commit wrote from a stale read.
 */
module Counters {
  import opened Collections
  import opened Domain
  import opened Ledger
  import opened LedgerInvariants
  import opened Protocol
  import opened ProtocolInvariants
  import opened Delivery

  ghost function AlertsOf(db: Db, u: UserId): set<AlertId> {
    set a | a in db.alerts && db.alerts[a].user == u
  }

  ghost function FalseAlertsOf(db: Db, u: UserId): set<AlertId> {
    set a | a in db.alerts && db.alerts[a].user == u && db.alerts[a].status == FalsePositive
  }

  /** The recalculation events of a user that have been processed. */
  ghost function CompensationsOf(db: Db, u: UserId): set<EventId> {
    set e | e in db.outbox && db.outbox[e].body.RiskRecalculate? && db.outbox[e].body.user == u
            && (e, CompensationGroup) in db.inbox
  }

  function Total(db: Db, u: UserId): nat {
    if u in db.profiles then db.profiles[u].total else 0
  }

  function FalsePositives(db: Db, u: UserId): nat {
    if u in db.profiles then db.profiles[u].falsePositives else 0
  }

  // ---------------------------------------------------------------- how a step changes the sets

  ghost predicate Raises(s: State, l: Label, u: UserId) {
    l.Detect? && Reads(s, l.w) && MessageOf(s, l.w).body.TransactionCreated?
    && MessageOf(s, l.w).body.user == u && l.d.shouldAlert
  }

  ghost predicate Compensates(s: State, l: Label, u: UserId) {
    l.Compensate? && Reads(s, l.w) && MessageOf(s, l.w).body.RiskRecalculate? && MessageOf(s, l.w).body.user == u
  }

  lemma AlertsCommit(c: Settings, s: State, l: Label, db': Db, u: UserId)
    requires Commits(c, s, l, db')
    ensures AlertsOf(db', u) == AlertsOf(s.db, u) + if Raises(s, l, u) then {l.a} else {}
    ensures Raises(s, l, u) ==> l.a !in AlertsOf(s.db, u)
  {
    if l.CommitBatch? {
      var pub := s.publishers[l.p];
      SettleSameBusiness(c.maxRetries, s.db, pub.batch, pub.outcomes, |pub.batch|, pub.now);
    }
  }

  lemma AlertsStep(c: Settings, s: State, l: Label, u: UserId)
    requires Enabled(c, s, l)
    ensures AlertsOf(Next(c, s, l).db, u) == AlertsOf(s.db, u) + if Raises(s, l, u) then {l.a} else {}
    ensures Raises(s, l, u) ==> l.a !in AlertsOf(s.db, u)
  {
    hide Commits;
    NextCommits(c, s, l);
    AlertsCommit(c, s, l, Next(c, s, l).db, u);
  }

  lemma CompensationsCommit(c: Settings, s: State, l: Label, db': Db, u: UserId)
    requires Commits(c, s, l, db') && !l.CommitBatch? && InboxAgrees(s.db) && EntriesOk(s.db.outbox, s.log)
    requires forall e | e in s.db.outbox :: e in db'.outbox && db'.outbox[e] == s.db.outbox[e]
    ensures CompensationsOf(db', u) ==
            CompensationsOf(s.db, u) + if Compensates(s, l, u) then {MessageOf(s, l.w).event} else {}
    ensures Compensates(s, l, u) ==> MessageOf(s, l.w).event !in CompensationsOf(s.db, u)
  {
  }

  lemma CompensationsStep(c: Settings, s: State, l: Label, u: UserId)
    requires Enabled(c, s, l) && InboxAgrees(s.db) && EntriesOk(s.db.outbox, s.log)
    ensures CompensationsOf(Next(c, s, l).db, u) ==
            CompensationsOf(s.db, u) + if Compensates(s, l, u) then {MessageOf(s, l.w).event} else {}
    ensures Compensates(s, l, u) ==> MessageOf(s, l.w).event !in CompensationsOf(s.db, u)
  {
    if l.CommitBatch? {
      var pub := s.publishers[l.p];
      SettleSameBusiness(c.maxRetries, s.db, pub.batch, pub.outcomes, |pub.batch|, pub.now);
    } else {
      hide Commits;
      NextCommits(c, s, l);
      OutboxStep(c, s, l);
      CompensationsCommit(c, s, l, Next(c, s, l).db, u);
    }
  }

  /** A committing step other than the relay's keeps every row of the outbox. */
  lemma OutboxStep(c: Settings, s: State, l: Label)
    requires Enabled(c, s, l) && !l.CommitBatch?
    ensures forall e | e in s.db.outbox :: e in Next(c, s, l).db.outbox && Next(c, s, l).db.outbox[e] == s.db.outbox[e]
  {
    forall e | e in s.db.outbox ensures e in Next(c, s, l).db.outbox && Next(c, s, l).db.outbox[e] == s.db.outbox[e] {
      OtherRows(c, s, l, e);
    }
  }

  // ---------------------------------------------------------------- never too much

  ghost predicate ProfileOk(db: Db, u: UserId) {
    && (u in db.profiles <==> AlertsOf(db, u) != {})
    && (u in db.profiles ==>
          && 1 <= db.profiles[u].total <= |AlertsOf(db, u)|
          && db.profiles[u].falsePositives <= |CompensationsOf(db, u)|
          && 0 <= db.profiles[u].score <= 10000)
  }

  /** Worker w is about to write the profile of u, which it read some time ago. */
  predicate Holds(s: State, w: nat, u: UserId) {
    Reads(s, w) && s.workers[w].Primed? && UserOf(MessageOf(s, w).body) == u
  }

  ghost predicate ReadOk(s: State, w: nat, u: UserId)
    requires Holds(s, w, u)
  {
    var work := s.workers[w];
    && (work.read.Some? ==>
          1 <= work.read.value.total <= |AlertsOf(s.db, u)| &&
            work.read.value.falsePositives <= |CompensationsOf(s.db, u)|)
    && (work.group.CompensationGroup? ==> work.read.Some?)
  }

  ghost predicate CountersOk(s: State, u: UserId) {
    ProfileOk(s.db, u) && forall w | Holds(s, w, u) :: ReadOk(s, w, u)
  }

  /** A recalculation event names a user who has an alert. */
  lemma RecalculationHasAlert(c: Settings, db: Db, e: EventId)
    requires LedgerInv(c, db) && e in db.outbox && db.outbox[e].body.RiskRecalculate?
    ensures db.outbox[e].body.alert in FalseAlertsOf(db, db.outbox[e].body.user)
    ensures db.outbox[e].body.alert in AlertsOf(db, db.outbox[e].body.user)
  {
  }

  lemma ProfileRaised(c: Settings, s: State, l: Label, u: UserId)
    requires Enabled(c, s, l) && Raises(s, l, u)
    ensures Next(c, s, l).db.profiles == CountAlert(s.db.profiles, u, s.workers[l.w].read)
  {
  }

  lemma ProfileCompensated(c: Settings, s: State, l: Label, u: UserId)
    requires Enabled(c, s, l) && Compensates(s, l, u)
    ensures Next(c, s, l).db.profiles == CountFalsePositive(s.db.profiles, u, s.workers[l.w].read)
  {
  }

  lemma ProfileUntouched(c: Settings, s: State, l: Label, u: UserId)
    requires Enabled(c, s, l) && !Raises(s, l, u) && !Compensates(s, l, u)
    ensures Lookup(Next(c, s, l).db.profiles, u) == Lookup(s.db.profiles, u)
  {
    if l.CommitBatch? {
      var pub := s.publishers[l.p];
      SettleSameBusiness(c.maxRetries, s.db, pub.batch, pub.outcomes, |pub.batch|, pub.now);
    }
  }

  lemma SetsGrow(c: Settings, s: State, l: Label, u: UserId)
    requires Enabled(c, s, l) && InboxAgrees(s.db) && EntriesOk(s.db.outbox, s.log)
    ensures var s' := Next(c, s, l);
            && |AlertsOf(s'.db, u)| == |AlertsOf(s.db, u)| + (if Raises(s, l, u) then 1 else 0)
            && |CompensationsOf(s'.db, u)| == |CompensationsOf(s.db, u)| + (if Compensates(s, l, u) then 1 else 0)
  {
    AlertsStep(c, s, l, u);
    CompensationsStep(c, s, l, u);
  }

  lemma StepProfile(c: Settings, s: State, l: Label, u: UserId)
    requires Enabled(c, s, l) && InboxAgrees(s.db) && EntriesOk(s.db.outbox, s.log) && CountersOk(s, u)
    ensures ProfileOk(Next(c, s, l).db, u)
  {
    SetsGrow(c, s, l, u);
    AlertsStep(c, s, l, u);
    if Raises(s, l, u) {
      ProfileRaised(c, s, l, u);
    } else if Compensates(s, l, u) {
      ProfileCompensated(c, s, l, u);
    } else {
      ProfileUntouched(c, s, l, u);
    }
    ProfileMoves(s, Next(c, s, l).db, l, u);
  }

  /** The same from what the step does to sets and profiles. */
  lemma ProfileMoves(s: State, db': Db, l: Label, u: UserId)
    requires CountersOk(s, u)
    requires Raises(s, l, u) ==> Holds(s, l.w, u) && (s.workers[l.w].read.None? ==> u !in s.db.profiles)
    requires Compensates(s, l, u) ==> Holds(s, l.w, u) && s.workers[l.w].group.CompensationGroup?
    requires |AlertsOf(db', u)| == |AlertsOf(s.db, u)| + (if Raises(s, l, u) then 1 else 0)
    requires |CompensationsOf(db', u)| == |CompensationsOf(s.db, u)| + (if Compensates(s, l, u) then 1 else 0)
    requires Raises(s, l, u) ==> db'.profiles == CountAlert(s.db.profiles, u, s.workers[l.w].read)
    requires Compensates(s, l, u) ==> db'.profiles == CountFalsePositive(s.db.profiles, u, s.workers[l.w].read)
    requires !Raises(s, l, u) && !Compensates(s, l, u) ==> Lookup(db'.profiles, u) == Lookup(s.db.profiles, u)
    ensures ProfileOk(db', u)
  {
  }

  /** A worker's held read is one it held before, or has just been taken. */
  lemma HoldsStep(c: Settings, s: State, l: Label, w: nat, u: UserId)
    requires Enabled(c, s, l) && Holds(Next(c, s, l), w, u) && WorkersOk(c, s)
    ensures Reads(s, w) && MessageOf(Next(c, s, l), w) == MessageOf(s, w)
    ensures if l == ReadProfile(w)
            then && Next(c, s, l).workers[w].group == s.workers[w].group
                 && Next(c, s, l).workers[w].read == Lookup(s.db.profiles, u)
            else Holds(s, w, u) && Next(c, s, l).workers[w] == s.workers[w]
  {
    var s' := Next(c, s, l);
    if l != ReadProfile(w) {
      assert w in s.workers && s'.workers[w] == s.workers[w];
      assert WorkOk(c, s.db, s.log, s.workers[w]);
    }
  }

  lemma StepReads(c: Settings, s: State, l: Label, u: UserId, w: nat)
    requires Enabled(c, s, l) && Inv(c, s) && CountersOk(s, u) && Holds(Next(c, s, l), w, u)
    ensures ReadOk(Next(c, s, l), w, u)
  {
    HoldsStep(c, s, l, w, u);
    SetsGrow(c, s, l, u);
    if l == ReadProfile(w) && s.workers[w].group.CompensationGroup? {
      assert WorkOk(c, s.db, s.log, s.workers[w]);
      RecalculationHasAlert(c, s.db, MessageOf(s, w).event);
    }
  }

  lemma {:induction false} RunCounters(c: Settings, ls: seq<Label>, u: UserId)
    requires Run(c, ls)
    ensures CountersOk(End(c, ls), u)
  {
    if |ls| > 0 {
      var before := ls[..|ls| - 1];
      var s, l := End(c, before), ls[|ls| - 1];
      RunCounters(c, before, u);
      RunInv(c, before);
      CountersStay(c, s, l, u);
    }
  }

  lemma CountersStay(c: Settings, s: State, l: Label, u: UserId)
    requires Enabled(c, s, l) && Inv(c, s) && CountersOk(s, u)
    ensures CountersOk(Next(c, s, l), u)
  {
    StepProfile(c, s, l, u);
    forall w | Holds(Next(c, s, l), w, u) ensures ReadOk(Next(c, s, l), w, u) {
      StepReads(c, s, l, u, w);
    }
  }

  /**
   However updates are lost, no counter counts more than the tables hold, the score stays between
   zero and one, and compensation never finds the profile missing.
   */
  lemma NeverTooMuch(c: Settings, ls: seq<Label>, u: UserId)
    requires Run(c, ls)
    ensures var db := End(c, ls).db;
            && Total(db, u) <= |AlertsOf(db, u)|
            && FalsePositives(db, u) <= |CompensationsOf(db, u)| <= |FalseAlertsOf(db, u)| <= |AlertsOf(db, u)|
            && (u in db.profiles ==> 0 <= db.profiles[u].score <= 10000)
    ensures forall w | Holds(End(c, ls), w, u) && End(c, ls).workers[w].group.CompensationGroup? ::
              End(c, ls).workers[w].read.Some?
  {
    RunCounters(c, ls, u);
    RunInv(c, ls);
    CompensationsAreFalseAlerts(c, End(c, ls).db, u);
    CardGrows(FalseAlertsOf(End(c, ls).db, u), AlertsOf(End(c, ls).db, u));
  }

  /** Distinct recalculation events come from distinct false alerts. */
  lemma CompensationsAreFalseAlerts(c: Settings, db: Db, u: UserId)
    requires LedgerInv(c, db)
    ensures |CompensationsOf(db, u)| <= |FalseAlertsOf(db, u)|
  {
    var xs := CompensationsOf(db, u);
    var f := map e | e in xs :: db.outbox[e].body.alert;
    forall e | e in xs ensures f[e] in FalseAlertsOf(db, u) {
      RecalculationHasAlert(c, db, e);
    }
    CardInjection(xs, FalseAlertsOf(db, u), f);
  }

  // ---------------------------------------------------------------- exact without stale writes

  /** The step counts an alert on top of a total that is no longer the current one. */
  ghost predicate StaleAlert(s: State, l: Label, u: UserId) {
    Raises(s, l, u) && s.workers[l.w].Primed? && s.workers[l.w].read.Some?
    && s.workers[l.w].read.value.total != Total(s.db, u)
  }

  /** The step counts a false positive on top of a count that is no longer the current one. */
  ghost predicate StaleCompensation(s: State, l: Label, u: UserId) {
    Compensates(s, l, u) && s.workers[l.w].Primed? && s.workers[l.w].read.Some?
    && s.workers[l.w].read.value.falsePositives != FalsePositives(s.db, u)
  }

  /** No step of the run counted an alert of u from a stale read. */
  ghost predicate AlertsFresh(c: Settings, ls: seq<Label>, u: UserId)
    requires Run(c, ls)
  {
    |ls| == 0 || (AlertsFresh(c, ls[..|ls| - 1], u) && !StaleAlert(End(c, ls[..|ls| - 1]), ls[|ls| - 1], u))
  }

  /** No step of the run counted a false positive of u from a stale read. */
  ghost predicate CompensationsFresh(c: Settings, ls: seq<Label>, u: UserId)
    requires Run(c, ls)
  {
    |ls| == 0 || (CompensationsFresh(c, ls[..|ls| - 1], u) &&
        !StaleCompensation(End(c, ls[..|ls| - 1]), ls[|ls| - 1], u))
  }

  /** The total has fallen behind, and no read in flight can bring it level again. */
  ghost predicate TotalBehind(s: State, u: UserId) {
    && Total(s.db, u) < |AlertsOf(s.db, u)|
    && forall w | Holds(s, w, u) && s.workers[w].read.Some? :: s.workers[w].read.value.total < |AlertsOf(s.db, u)|
  }

  ghost predicate FalsePositivesBehind(s: State, u: UserId) {
    && FalsePositives(s.db, u) < |CompensationsOf(s.db, u)|
    && forall w | Holds(s, w, u) && s.workers[w].read.Some? ::
         s.workers[w].read.value.falsePositives < |CompensationsOf(s.db, u)|
  }

  /** The counters after a step, from what the writing worker had read. */
  lemma CountersStep(c: Settings, s: State, l: Label, u: UserId)
    requires Enabled(c, s, l) && CountersOk(s, u)
    ensures Total(Next(c, s, l).db, u) ==
            if !Raises(s, l, u) then Total(s.db, u)
            else match s.workers[l.w].read case None => 1 case Some(p) => p.total + 1
    ensures FalsePositives(Next(c, s, l).db, u) ==
            if !Compensates(s, l, u) then FalsePositives(s.db, u)
            else match s.workers[l.w].read case None => 1 case Some(p) => p.falsePositives + 1
  {
    if Raises(s, l, u) {
      ProfileRaised(c, s, l, u);
      assert Holds(s, l.w, u) && ReadOk(s, l.w, u);
    } else if Compensates(s, l, u) {
      ProfileCompensated(c, s, l, u);
      assert Holds(s, l.w, u) && ReadOk(s, l.w, u);
    } else {
      ProfileUntouched(c, s, l, u);
    }
  }

  /** A read held after a step was held before it, or is of the profile as it was. */
  lemma ReadsStep(c: Settings, s: State, l: Label, u: UserId)
    requires Enabled(c, s, l) && WorkersOk(c, s)
    ensures forall w | Holds(Next(c, s, l), w, u) ::
              || Next(c, s, l).workers[w].read == Lookup(s.db.profiles, u)
              || (Holds(s, w, u) && Next(c, s, l).workers[w] == s.workers[w])
  {
    forall w | Holds(Next(c, s, l), w, u)
      ensures || Next(c, s, l).workers[w].read == Lookup(s.db.profiles, u)
              || (Holds(s, w, u) && Next(c, s, l).workers[w] == s.workers[w])
    {
      HoldsStep(c, s, l, w, u);
    }
  }

  /** A step from a fresh read keeps the total exact; a stale one leaves it behind, and behind it stays. */
  lemma TotalStep(c: Settings, s: State, l: Label, u: UserId)
    requires Enabled(c, s, l) && Inv(c, s) && CountersOk(s, u)
    ensures Total(s.db, u) == |AlertsOf(s.db, u)| && !StaleAlert(s, l, u) ==>
            Total(Next(c, s, l).db, u) == |AlertsOf(Next(c, s, l).db, u)|
    ensures (Total(s.db, u) == |AlertsOf(s.db, u)| && StaleAlert(s, l, u)) || TotalBehind(s, u) ==>
            TotalBehind(Next(c, s, l), u)
  {
    SetsGrow(c, s, l, u);
    CountersStep(c, s, l, u);
    ReadsStep(c, s, l, u);
    TotalMoves(s, Next(c, s, l), l, u);
  }

  /** The same from what the step does to sets, counters and reads. */
  lemma TotalMoves(s: State, s': State, l: Label, u: UserId)
    requires CountersOk(s, u)
    requires Raises(s, l, u) ==> Holds(s, l.w, u) && (s.workers[l.w].read.None? ==> u !in s.db.profiles)
    requires |AlertsOf(s'.db, u)| == |AlertsOf(s.db, u)| + (if Raises(s, l, u) then 1 else 0)
    requires Total(s'.db, u) ==
             if !Raises(s, l, u) then Total(s.db, u)
             else match s.workers[l.w].read case None => 1 case Some(p) => p.total + 1
    requires forall w | Holds(s', w, u) ::
               s'.workers[w].read == Lookup(s.db.profiles, u) || (Holds(s, w, u) && s'.workers[w] == s.workers[w])
    ensures Total(s.db, u) == |AlertsOf(s.db, u)| && !StaleAlert(s, l, u) ==> Total(s'.db, u) == |AlertsOf(s'.db, u)|
    ensures (Total(s.db, u) == |AlertsOf(s.db, u)| && StaleAlert(s, l, u)) || TotalBehind(s, u) ==> TotalBehind(s', u)
  {
  }

  lemma FalsePositivesStep(c: Settings, s: State, l: Label, u: UserId)
    requires Enabled(c, s, l) && Inv(c, s) && CountersOk(s, u)
    ensures FalsePositives(s.db, u) == |CompensationsOf(s.db, u)| && !StaleCompensation(s, l, u) ==>
            FalsePositives(Next(c, s, l).db, u) == |CompensationsOf(Next(c, s, l).db, u)|
    ensures FalsePositives(s.db, u) == |CompensationsOf(s.db, u)| && StaleCompensation(s, l, u) ==>
              FalsePositivesBehind(Next(c, s, l), u)
    ensures FalsePositivesBehind(s, u) ==> FalsePositivesBehind(Next(c, s, l), u)
  {
    SetsGrow(c, s, l, u);
    CountersStep(c, s, l, u);
    ReadsStep(c, s, l, u);
    FalsePositivesMove(s, Next(c, s, l), l, u);
  }

  lemma FalsePositivesMove(s: State, s': State, l: Label, u: UserId)
    requires CountersOk(s, u)
    requires Compensates(s, l, u) ==> Holds(s, l.w, u) && s.workers[l.w].group.CompensationGroup?
    requires |CompensationsOf(s'.db, u)| == |CompensationsOf(s.db, u)| + (if Compensates(s, l, u) then 1 else 0)
    requires FalsePositives(s'.db, u) ==
             if !Compensates(s, l, u) then FalsePositives(s.db, u)
             else match s.workers[l.w].read case None => 1 case Some(p) => p.falsePositives + 1
    requires forall w | Holds(s', w, u) ::
               s'.workers[w].read == Lookup(s.db.profiles, u) || (Holds(s, w, u) && s'.workers[w] == s.workers[w])
    ensures FalsePositives(s.db, u) == |CompensationsOf(s.db, u)| && !StaleCompensation(s, l, u) ==>
              FalsePositives(s'.db, u) == |CompensationsOf(s'.db, u)|
    ensures FalsePositives(s.db, u) == |CompensationsOf(s.db, u)| && StaleCompensation(s, l, u) ==>
              FalsePositivesBehind(s', u)
    ensures FalsePositivesBehind(s, u) ==> FalsePositivesBehind(s', u)
  {
  }

  lemma {:induction false} TotalExactOrBehind(c: Settings, ls: seq<Label>, u: UserId)
    requires Run(c, ls)
    ensures AlertsFresh(c, ls, u) ==> Total(End(c, ls).db, u) == |AlertsOf(End(c, ls).db, u)|
    ensures !AlertsFresh(c, ls, u) ==> TotalBehind(End(c, ls), u)
  {
    if |ls| == 0 {
      assert AlertsOf(START.db, u) == {};
    } else {
      var before := ls[..|ls| - 1];
      TotalExactOrBehind(c, before, u);
      RunInv(c, before);
      RunCounters(c, before, u);
      TotalStep(c, End(c, before), ls[|ls| - 1], u);
    }
  }

  lemma {:induction false} FalsePositivesExactOrBehind(c: Settings, ls: seq<Label>, u: UserId)
    requires Run(c, ls)
    ensures CompensationsFresh(c, ls, u) ==> FalsePositives(End(c, ls).db, u) == |CompensationsOf(End(c, ls).db, u)|
    ensures !CompensationsFresh(c, ls, u) ==> FalsePositivesBehind(End(c, ls), u)
  {
    if |ls| == 0 {
      assert CompensationsOf(START.db, u) == {};
    } else {
      var before := ls[..|ls| - 1];
      FalsePositivesExactOrBehind(c, before, u);
      RunInv(c, before);
      RunCounters(c, before, u);
      FalsePositivesStep(c, End(c, before), ls[|ls| - 1], u);
    }
  }

  /** The alert total is right after a run exactly when no alert was counted from a stale read. */
  lemma TotalExact(c: Settings, ls: seq<Label>, u: UserId)
    requires Run(c, ls)
    ensures Total(End(c, ls).db, u) == |AlertsOf(End(c, ls).db, u)| <==> AlertsFresh(c, ls, u)
  {
    TotalExactOrBehind(c, ls, u);
  }

  /** The false-positive count is right after a run exactly when no false positive was counted from a stale read. */
  lemma FalsePositivesExact(c: Settings, ls: seq<Label>, u: UserId)
    requires Run(c, ls)
    ensures FalsePositives(End(c, ls).db, u) == |CompensationsOf(End(c, ls).db, u)| <==> CompensationsFresh(c, ls, u)
  {
    FalsePositivesExactOrBehind(c, ls, u);
  }

  /** Worker w is about to count an alert for u from a read that is still the current profile. */
  ghost predicate AboutToCount(s: State, w: nat, u: UserId) {
    && Holds(s, w, u) && s.workers[w].group.ProcessorGroup? && MessageOf(s, w).body.TransactionCreated? &&
       !InInbox(s, w)
    && s.workers[w].read.Some? && s.workers[w].read == Lookup(s.db.profiles, u)
  }

  /** Two detections that have read the same profile raise two alerts and count one. */
  lemma LostUpdate(c: Settings, ls: seq<Label>, u: UserId, l: Label, l': Label)
    requires Run(c, ls) && l.Detect? && l'.Detect? && l.w != l'.w && l.d.shouldAlert && l'.d.shouldAlert
    requires AboutToCount(End(c, ls), l.w, u) && AboutToCount(End(c, ls), l'.w, u)
    requires MessageOf(End(c, ls), l.w).event != MessageOf(End(c, ls), l'.w).event
    requires l.a !in End(c, ls).db.alerts && l'.a !in End(c, ls).db.alerts && l.a != l'.a
    requires l.e !in End(c, ls).db.outbox && l'.e !in End(c, ls).db.outbox && l.e != l'.e
    ensures Run(c, ls + [l] + [l'])
    ensures Total(End(c, ls + [l] + [l']).db, u) == Total(End(c, ls).db, u) + 1
    ensures |AlertsOf(End(c, ls + [l] + [l']).db, u)| == |AlertsOf(End(c, ls).db, u)| + 2
  {
    var s := End(c, ls);
    OneCounted(c, ls, u, l);
    var t := End(c, ls + [l]);
    StillReads(c, s, l, l'.w);
    OneCounted(c, ls + [l], u, l');
  }

  lemma StillReads(c: Settings, s: State, l: Label, w: nat)
    requires Enabled(c, s, l) && l.Detect? && Reads(s, l.w) && l.w != w && Reads(s, w)
    ensures var t := Next(c, s, l);
            && Reads(t, w) && t.workers[w] == s.workers[w] && MessageOf(t, w) == MessageOf(s, w)
            && t.db.inbox == s.db.inbox + {(MessageOf(s, l.w).event, ProcessorGroup)}
            && t.db.alerts.Keys <= s.db.alerts.Keys + {l.a} && t.db.outbox.Keys <= s.db.outbox.Keys + {l.e}
  {
  }

  /** A detection counts its alert on top of what its worker had read. */
  lemma OneCounted(c: Settings, ls: seq<Label>, u: UserId, l: Label)
    requires Run(c, ls) && l.Detect? && l.d.shouldAlert
    requires var s := End(c, ls);
             && Holds(s, l.w, u) && s.workers[l.w].group.ProcessorGroup? && MessageOf(s, l.w).body.TransactionCreated?
             && !InInbox(s, l.w) && s.workers[l.w].read.Some? && l.a !in s.db.alerts && l.e !in s.db.outbox
    ensures Run(c, ls + [l]) && End(c, ls + [l]) == Next(c, End(c, ls), l) && Enabled(c, End(c, ls), l)
    ensures Total(End(c, ls + [l]).db, u) == End(c, ls).workers[l.w].read.value.total + 1
    ensures |AlertsOf(End(c, ls + [l]).db, u)| == |AlertsOf(End(c, ls).db, u)| + 1
  {
    Extend(c, ls, l);
    RunCounters(c, ls, u);
    AlertsStep(c, End(c, ls), l, u);
    CountersStep(c, End(c, ls), l, u);
  }

  // ---------------------------------------------------------------- conservation

  /** A compensation still to be committed has read fewer false positives than alerts. */
  ghost predicate RoomToCompensate(s: State, u: UserId) {
    forall w | Holds(s, w, u) && s.workers[w].group.CompensationGroup? ::
      InInbox(s, w) || (s.workers[w].read.Some? &&
          s.workers[w].read.value.falsePositives < s.workers[w].read.value.total)
  }

  lemma OneMoreCompensation(c: Settings, db: Db, u: UserId, e: EventId)
    requires LedgerInv(c, db) && e in db.outbox && db.outbox[e].body.RiskRecalculate? && db.outbox[e].body.user == u
    requires (e, CompensationGroup) !in db.inbox
    ensures |CompensationsOf(db, u)| < |AlertsOf(db, u)|
  {
    hide LedgerInv;
    CompensationKeeps(c, db, e, None);
    var after := CommitCompensation(db, e, db.outbox[e].body, None);
    CompensationsAreFalseAlerts(c, after, u);
    assert CompensationsOf(after, u) == CompensationsOf(db, u) + {e};
    CardGrows(FalseAlertsOf(after, u), AlertsOf(after, u));
    assert AlertsOf(after, u) == AlertsOf(db, u);
  }

  lemma RoomStep(c: Settings, s: State, l: Label, u: UserId)
    requires Enabled(c, s, l) && Inv(c, s) && CountersOk(s, u) && RoomToCompensate(s, u)
    requires Total(s.db, u) == |AlertsOf(s.db, u)|
    ensures RoomToCompensate(Next(c, s, l), u)
  {
    var s' := Next(c, s, l);
    StepGrows(c, s, l);
    forall w | Holds(s', w, u) && s'.workers[w].group.CompensationGroup?
      ensures InInbox(s', w) || (s'.workers[w].read.Some? &&
          s'.workers[w].read.value.falsePositives < s'.workers[w].read.value.total)
    {
      HoldsStep(c, s, l, w, u);
      if l == ReadProfile(w) && !InInbox(s, w) {
        assert WorkOk(c, s.db, s.log, s.workers[w]);
        var e := MessageOf(s, w).event;
        OneMoreCompensation(c, s.db, u, e);
        RecalculationHasAlert(c, s.db, e);
      }
    }
  }

  lemma {:induction false} RunRoom(c: Settings, ls: seq<Label>, u: UserId)
    requires Run(c, ls) && AlertsFresh(c, ls, u)
    ensures RoomToCompensate(End(c, ls), u)
  {
    if |ls| > 0 {
      var before := ls[..|ls| - 1];
      RunRoom(c, before, u);
      RunInv(c, before);
      RunCounters(c, before, u);
      TotalExact(c, before, u);
      RoomStep(c, End(c, before), ls[|ls| - 1], u);
    }
  }

  /**
   Without stale writes the profile is the sum of the tables, and the clamp at zero has nothing to
   do: every compensation about to commit finds more alerts than false positives.
   */
  lemma Conservation(c: Settings, ls: seq<Label>, u: UserId)
    requires Run(c, ls) && AlertsFresh(c, ls, u) && CompensationsFresh(c, ls, u)
    ensures var db := End(c, ls).db;
            FalsePositives(db, u) == |CompensationsOf(db, u)| <= |FalseAlertsOf(db, u)| <= |AlertsOf(db, u)|
              == Total(db, u)
    ensures forall l | Enabled(c, End(c, ls), l) && Compensates(End(c, ls), l, u) ::
              var read := End(c, ls).workers[l.w].read;
              read.Some? && read.value.falsePositives + 1 <= read.value.total
  {
    NeverTooMuch(c, ls, u);
    TotalExact(c, ls, u);
    FalsePositivesExact(c, ls, u);
    RunRoom(c, ls, u);
    forall l | Enabled(c, End(c, ls), l) && Compensates(End(c, ls), l, u)
      ensures var read := End(c, ls).workers[l.w].read; read.Some? && read.value.falsePositives + 1 <= read.value.total
    {
      assert Holds(End(c, ls), l.w, u);
    }
  }

  // ---------------------------------------------------------------- the score

  /** The score of u is what the last compensation of the run computed from its read, or zero before the first. */
  ghost function LastScore(c: Settings, ls: seq<Label>, u: UserId): int
    requires Run(c, ls)
  {
    if |ls| == 0 then 0
    else
      var before, l := ls[..|ls| - 1], ls[|ls| - 1];
      var s := End(c, before);
      if Compensates(s, l, u) && l.w in s.workers && s.workers[l.w].Primed? && s.workers[l.w].read.Some?
      then Recalculated(s.workers[l.w].read.value).score
      else LastScore(c, before, u)
  }

  /** A consumer whose count of false positives is still the current one holds the current score, too. */
  ghost predicate ScoreReadOk(s: State, w: nat, u: UserId)
    requires Holds(s, w, u)
  {
    var work := s.workers[w];
    work.read.Some? ==>
      && u in s.db.profiles && work.read.value.falsePositives <= FalsePositives(s.db, u)
      && (work.read.value.falsePositives == FalsePositives(s.db, u) ==>
            work.read.value.score == s.db.profiles[u].score)
  }

  ghost predicate ScoresOk(s: State, u: UserId, score: int) {
    && (u in s.db.profiles ==> s.db.profiles[u].score == score)
    && (u !in s.db.profiles ==> score == 0)
    && forall w | Holds(s, w, u) :: ScoreReadOk(s, w, u)
  }

  lemma ScoreMoves(s: State, profiles: map<UserId, Profile>, l: Label, u: UserId, score: int)
    requires ScoresOk(s, u, score)
    requires Raises(s, l, u) ==> Holds(s, l.w, u) && (s.workers[l.w].read.None? ==> u !in s.db.profiles)
                                 && profiles == CountAlert(s.db.profiles, u, s.workers[l.w].read)
    requires Compensates(s, l, u) ==> Holds(s, l.w, u) && s.workers[l.w].read.Some? && u in s.db.profiles
                                      && profiles == CountFalsePositive(s.db.profiles, u, s.workers[l.w].read)
    requires !Raises(s, l, u) && !Compensates(s, l, u) ==> Lookup(profiles, u) == Lookup(s.db.profiles, u)
    requires !StaleCompensation(s, l, u)
    ensures if Compensates(s, l, u)
            then && u in profiles && profiles[u].score == Recalculated(s.workers[l.w].read.value).score
                 && profiles[u].falsePositives == FalsePositives(s.db, u) + 1
            else && (u in profiles ==> profiles[u].score == score) && (u !in profiles ==> score == 0)
                 && (u in s.db.profiles ==>
                       u in profiles && profiles[u].falsePositives == s.db.profiles[u].falsePositives)
                 && (u in profiles && u !in s.db.profiles ==> profiles[u].falsePositives == 0)
  {
  }

  lemma ScoreStep(c: Settings, s: State, l: Label, u: UserId, score: int)
    requires Enabled(c, s, l) && Inv(c, s) && CountersOk(s, u) && ScoresOk(s, u, score) && !StaleCompensation(s, l, u)
    ensures ScoresOk(Next(c, s, l), u,
                     if Compensates(s, l, u) && l.w in s.workers && s.workers[l.w].Primed? && s.workers[l.w].read.Some?
                     then Recalculated(s.workers[l.w].read.value).score else score)
  {
    ProfileAfter(c, s, l, u);
    ScoreMoves(s, Next(c, s, l).db.profiles, l, u, score);
    forall w | Holds(Next(c, s, l), w, u) ensures ScoreReadOk(Next(c, s, l), w, u) {
      HoldsStep(c, s, l, w, u);
      ScoreReadStays(s, Next(c, s, l), l, w, u);
    }
  }

  lemma ProfileAfter(c: Settings, s: State, l: Label, u: UserId)
    requires Enabled(c, s, l) && Inv(c, s) && CountersOk(s, u)
    ensures var profiles := Next(c, s, l).db.profiles;
            && (Raises(s, l, u) ==> Holds(s, l.w, u) && (s.workers[l.w].read.None? ==> u !in s.db.profiles)
                                    && profiles == CountAlert(s.db.profiles, u, s.workers[l.w].read))
            && (Compensates(s, l, u) ==> Holds(s, l.w, u) && s.workers[l.w].read.Some? && u in s.db.profiles
                                         && profiles == CountFalsePositive(s.db.profiles, u, s.workers[l.w].read))
            && (!Raises(s, l, u) && !Compensates(s, l, u) ==> Lookup(profiles, u) == Lookup(s.db.profiles, u))
  {
    if Raises(s, l, u) {
      ProfileRaised(c, s, l, u);
    } else if Compensates(s, l, u) {
      ProfileCompensated(c, s, l, u);
      assert ReadOk(s, l.w, u);
    } else {
      ProfileUntouched(c, s, l, u);
    }
  }

  lemma ScoreReadStays(s: State, t: State, l: Label, w: nat, u: UserId)
    requires Holds(t, w, u)
    requires if l == ReadProfile(w) then t.workers[w].read == Lookup(s.db.profiles, u) && t.db == s.db
             else Holds(s, w, u) && t.workers[w] == s.workers[w] && ScoreReadOk(s, w, u)
    requires if Compensates(s, l, u)
             then u in t.db.profiles && FalsePositives(t.db, u) == FalsePositives(s.db, u) + 1
             else && FalsePositives(t.db, u) == FalsePositives(s.db, u)
                  && (u in s.db.profiles ==>
                        u in t.db.profiles && t.db.profiles[u].score == s.db.profiles[u].score)
    ensures ScoreReadOk(t, w, u)
  {
  }

  lemma {:induction false} ScoreIsLast(c: Settings, ls: seq<Label>, u: UserId)
    requires Run(c, ls) && CompensationsFresh(c, ls, u)
    ensures ScoresOk(End(c, ls), u, LastScore(c, ls, u))
  {
    if |ls| > 0 {
      var before := ls[..|ls| - 1];
      ScoreIsLast(c, before, u);
      RunInv(c, before);
      RunCounters(c, before, u);
      ScoreStep(c, End(c, before), ls[|ls| - 1], u, LastScore(c, before, u));
    }
  }

  /** No compensation of u has been committed in the run. */
  ghost predicate NoCompensation(c: Settings, ls: seq<Label>, u: UserId)
    requires Run(c, ls)
  {
    |ls| == 0 || (NoCompensation(c, ls[..|ls| - 1], u) && !Compensates(End(c, ls[..|ls| - 1]), ls[|ls| - 1], u))
  }

  /** Before the first compensation the score is zero, however many alerts there are. */
  lemma {:induction false} ScoreZeroBefore(c: Settings, ls: seq<Label>, u: UserId)
    requires Run(c, ls) && NoCompensation(c, ls, u)
    ensures u in End(c, ls).db.profiles ==> End(c, ls).db.profiles[u].score == 0
  {
    if |ls| > 0 {
      var before := ls[..|ls| - 1];
      ScoreZeroBefore(c, before, u);
      RunInv(c, before);
      RunCounters(c, before, u);
      ProfileAfter(c, End(c, before), ls[|ls| - 1], u);
    }
  }

  /** The tables' own net score at the last compensation of the run, or zero before the first. */
  ghost function NetScoreAtLast(c: Settings, ls: seq<Label>, u: UserId): int
    requires Run(c, ls)
  {
    if |ls| == 0 then 0
    else if Compensates(End(c, ls[..|ls| - 1]), ls[|ls| - 1], u) then
      NetScore(|AlertsOf(End(c, ls).db, u)|, |CompensationsOf(End(c, ls).db, u)|)
    else NetScoreAtLast(c, ls[..|ls| - 1], u)
  }

  /** No compensation of u was computed from a total that was no longer the current one. */
  ghost predicate TotalsFresh(c: Settings, ls: seq<Label>, u: UserId)
    requires Run(c, ls)
  {
    |ls| == 0
    || (TotalsFresh(c, ls[..|ls| - 1], u) && !StaleTotal(End(c, ls[..|ls| - 1]), ls[|ls| - 1], u))
  }

  ghost predicate StaleTotal(s: State, l: Label, u: UserId) {
    Compensates(s, l, u) && s.workers[l.w].Primed? && s.workers[l.w].read.Some?
    && s.workers[l.w].read.value.total != Total(s.db, u)
  }

  lemma {:induction false} LastIsNet(c: Settings, ls: seq<Label>, u: UserId)
    requires Run(c, ls) && AlertsFresh(c, ls, u) && CompensationsFresh(c, ls, u) && TotalsFresh(c, ls, u)
    ensures LastScore(c, ls, u) == NetScoreAtLast(c, ls, u)
  {
    if |ls| > 0 {
      var before, l := ls[..|ls| - 1], ls[|ls| - 1];
      LastIsNet(c, before, u);
      if Compensates(End(c, before), l, u) {
        RunInv(c, before);
        RunCounters(c, before, u);
        TotalExact(c, before, u);
        FalsePositivesExact(c, before, u);
        ProfileAfter(c, End(c, before), l, u);
        SetsGrow(c, End(c, before), l, u);
      }
    }
  }

  /**
   Without stale reads the score is the net score of the tables as they were at the last compensation; alerts raised
   since are not in it.
   */
  lemma ScoreExact(c: Settings, ls: seq<Label>, u: UserId)
    requires Run(c, ls) && AlertsFresh(c, ls, u) && CompensationsFresh(c, ls, u) && TotalsFresh(c, ls, u)
    ensures u in End(c, ls).db.profiles ==> End(c, ls).db.profiles[u].score == NetScoreAtLast(c, ls, u)
  {
    ScoreIsLast(c, ls, u);
    LastIsNet(c, ls, u);
  }

  /** End to end: at rest, without dead letters and stale writes, the profile counts every false alert. */
  lemma AtRestEveryFalseAlertCounted(c: Settings, ls: seq<Label>, u: UserId)
    requires Run(c, ls) && CompensationsFresh(c, ls, u)
    requires AtRest(End(c, ls)) && End(c, ls).db.dead == []
    ensures FalsePositives(End(c, ls).db, u) == |FalseAlertsOf(End(c, ls).db, u)|
  {
    hide LedgerInv, AtRest, Legal, Exec, CompensationsFresh;
    var db := End(c, ls).db;
    RunInv(c, ls);
    NeverTooMuch(c, ls, u);
    FalsePositivesExact(c, ls, u);
    var f := map a | a in FalseAlertsOf(db, u) :: RecalculationOf(c, db, a);
    forall a | a in FalseAlertsOf(db, u) ensures f[a] in CompensationsOf(db, u) && db.outbox[f[a]].body.alert == a {
      AtRestAllDone(c, ls, f[a], CompensationGroup);
    }
    CardInjection(FalseAlertsOf(db, u), CompensationsOf(db, u), f);
  }

  /** The event that asks for the recalculation after a false alert. */
  ghost function RecalculationOf(c: Settings, db: Db, a: AlertId): (e: EventId)
    requires LedgerInv(c, db) && a in db.alerts && db.alerts[a].status == FalsePositive
    ensures e in db.outbox && db.outbox[e].body == RiskRecalculate(db.alerts[a].user, a)
  {
    assert RiskRecalculate(db.alerts[a].user, a) in Facts(db);
    var e :| e in db.outbox && db.outbox[e].body == RiskRecalculate(db.alerts[a].user, a);
    e
  }
}
