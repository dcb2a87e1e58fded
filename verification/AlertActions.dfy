/** The gateway's alert actions: one resolution as the service runs it. */
module AlertActions {
  import opened AlertHistory
  import opened Domain
  import opened Ledger
  import opened Protocol
  import opened ProtocolInvariants
  import opened Storage

  datatype Resolution =
    | Resolved(status: AlertStatus, at: Instant)
    | InvalidTarget
    | AlertNotFound
    | InvalidTransition(current: AlertStatus)

  /** What an analyst can resolve an alert to. */
  const RESOLUTIONS: set<AlertStatus> := {Approved, Blocked, FalsePositive}

  /**
   What a resolution answers when its update finds the tables `db`, and the query after an update without a row the
   tables `later`.
   */
  function Outcome(db: Db, later: Db, a: AlertId, target: AlertStatus, now: Instant): Resolution {
    if !target.Terminal() then InvalidTarget
    else if Open(db, a) then Resolution.Resolved(target, now)
    else if a !in later.alerts then AlertNotFound
    else InvalidTransition(later.alerts[a].status)
  }

  /**
   UPDATE alerts … WHERE id = a AND status IN (the open ones) RETURNING …: the audit row and the
   events follow only when a row came back, and all of it is one transaction.  Without a row the alert is looked up
   once more, by now in the tables `later`.
   */
  method ResolveAlert(database: Database, later: Db, a: AlertId, target: AlertStatus, e: EventId, e2: EventId,
      now: Instant)
    returns (r: Resolution)
    modifies database
    ensures r == Outcome(old(database.tables), later, a, target, now)
    ensures r.InvalidTarget? <==> target !in RESOLUTIONS
    ensures database.tables ==
            if r.Resolved? then CommitResolution(old(database.tables), a, target, e, e2, now) else old(database.tables)
  {
    if !target.Terminal() {
      return InvalidTarget;
    }
    var tables := database.tables;
    if a !in tables.alerts || tables.alerts[a].status.Terminal() {
      if a !in later.alerts {
        return AlertNotFound;
      }
      return InvalidTransition(later.alerts[a].status);
    }
    var alert := tables.alerts[a];
    tables := tables.(alerts := tables.alerts[a := alert.(status := target, resolvedAt := Some(now))]);
    tables := tables.(audits := tables.audits + [Audit(a, Unresolved, target)]);
    tables := Enqueue(tables, e, AlertResolved(a, alert.user, target), now);
    if target.FalsePositive? {
      tables := Enqueue(tables, e2, RiskRecalculate(alert.user, a), now);
    }
    database.tables := tables;
    return Resolution.Resolved(target, now);
  }

  /** A resolution that goes through is one step of the protocol, and one that does not is no step at all. */
  lemma ResolvedIffStep(c: Settings, s: State, later: Db, a: AlertId, target: AlertStatus, e: EventId, e2: EventId,
      now: Instant)
    requires e !in s.db.outbox && e2 !in s.db.outbox && e != e2
    ensures Outcome(s.db, later, a, target, now).Resolved? <==> Enabled(c, s, Resolve(a, target, e, e2, now))
    ensures Enabled(c, s, Resolve(a, target, e, e2, now)) ==>
              Next(c, s, Resolve(a, target, e, e2, now)) == s.(db := CommitResolution(s.db, a, target, e, e2, now))
  {
  }

  /**
   At any moment of any run, which has gone on from step n by the time of the second query: a valid resolution of
   an alert that is there succeeds exactly when no resolution of it has been committed yet, and fails by naming the
   status that the one committed resolution has set, however the schedulers have moved the alert in between.
   */
  lemma FirstResolutionSucceeds(c: Settings, ls: seq<Label>, n: nat, a: AlertId, target: AlertStatus, now: Instant)
    requires Run(c, ls) && n <= |ls| && Run(c, ls[..n]) && a in End(c, ls[..n]).db.alerts && target in RESOLUTIONS
    ensures var outcome := Outcome(End(c, ls[..n]).db, End(c, ls).db, a, target, now);
            && (outcome.Resolved? <==> Resolutions(ls[..n], a) == 0)
            && (forall i | 0 <= i < n && ls[i].Resolve? && ls[i].a == a :: outcome == InvalidTransition(ls[i].target))
  {
    OneResolutionWins(c, ls[..n], a);
    RunGrows(c, ls, n);
    hide Run, End, Legal, Exec, Resolutions;
    forall i | 0 <= i < n && ls[i].Resolve? && ls[i].a == a
      ensures Outcome(End(c, ls[..n]).db, End(c, ls).db, a, target, now) == InvalidTransition(ls[i].target)
    {
      WinnerDecides(c, ls[..n], a, i);
      WinnerDecides(c, ls, a, i);
    }
  }

  /** A resolution does not find the alert exactly when no detection has raised it by the time of the second query. */
  lemma NotFoundIffNeverRaised(c: Settings, ls: seq<Label>, n: nat, a: AlertId, target: AlertStatus, now: Instant)
    requires Run(c, ls) && n <= |ls| && Run(c, ls[..n]) && target in RESOLUTIONS
    ensures Outcome(End(c, ls[..n]).db, End(c, ls).db, a, target, now).AlertNotFound? <==>
            forall i | 0 <= i < |ls| && ls[i].Detect? && ls[i].d.shouldAlert :: ls[i].a != a
  {
    RunGrows(c, ls, n);
    if a in End(c, ls).db.alerts {
      var i := AlertOrigin(c, ls, a);
    } else {
      forall i | 0 <= i < |ls| && ls[i].Detect? && ls[i].d.shouldAlert ensures ls[i].a != a {
        RaisedStays(c, ls, i);
      }
    }
  }

  /**
   A valid resolution can be refused although the status that it names is open: exactly when the alert was raised
   between its update and its second query, and nobody has resolved it since.
   */
  lemma OpenRefusedIffRaisedBetween(c: Settings, ls: seq<Label>, n: nat, a: AlertId, target: AlertStatus, now: Instant)
    requires Run(c, ls) && n <= |ls| && Run(c, ls[..n]) && target in RESOLUTIONS
    ensures var outcome := Outcome(End(c, ls[..n]).db, End(c, ls).db, a, target, now);
            outcome.InvalidTransition? && outcome.current in {Pending, EscalatedEmail, EscalatedSlack} <==>
              && Resolutions(ls, a) == 0
              && (exists i | n <= i < |ls| :: ls[i].Detect? && ls[i].d.shouldAlert && ls[i].a == a)
  {
    OneResolutionWins(c, ls, a);
    RunGrows(c, ls, n);
    if a in End(c, ls).db.alerts {
      var i := AlertOrigin(c, ls, a);
      if a in End(c, ls[..n]).db.alerts {
        forall j | n <= j < |ls| && ls[j].Detect? && ls[j].d.shouldAlert ensures ls[j].a != a {
          NotRaisedAgain(c, ls, n, j, a);
        }
      } else if i < n {
        assert ls[..n][i] == ls[i];
        RaisedStays(c, ls[..n], i);
      }
    } else {
      forall i | n <= i < |ls| && ls[i].Detect? && ls[i].d.shouldAlert ensures ls[i].a != a {
        RaisedStays(c, ls, i);
      }
    }
  }

  lemma NotRaisedAgain(c: Settings, ls: seq<Label>, n: nat, j: nat, a: AlertId)
    requires Run(c, ls) && n <= j < |ls| && Run(c, ls[..n]) && a in End(c, ls[..n]).db.alerts
    requires ls[j].Detect? && ls[j].d.shouldAlert
    ensures ls[j].a != a
  {
    RunStep(c, ls, j);
    assert ls[..j][..n] == ls[..n];
    RunGrows(c, ls[..j], n);
  }

  lemma RaisedStays(c: Settings, ls: seq<Label>, i: nat)
    requires Run(c, ls) && i < |ls| && ls[i].Detect? && ls[i].d.shouldAlert
    ensures ls[i].a in End(c, ls).db.alerts
  {
    RunGrows(c, ls, i + 1);
    RunStep(c, ls, i);
    NextCommits(c, End(c, ls[..i]), ls[i]);
  }
}
