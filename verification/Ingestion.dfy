/** The gateway's ingestion service: one submission as the service runs it. */
module Ingestion {
  import opened Collections
  import opened Domain
  import opened Ledger
  import opened Protocol
  import opened Storage
  import opened TransactionLifecycle

  /**
   Accepted names the transaction that stands for the key; a key with several owners makes the lookup fail, and a
   key taken at the same instant the insert.
   */
  datatype Submission = Accepted(txn: TxnId, status: TransactionStatus) | SeveralOwners | Conflict

  /** A missing or empty key is replaced by one that the server draws. */
  function KeyOf(requested: Option<string>, drawn: string): string {
    if requested.Some? && requested.value != "" then requested.value else drawn
  }

  /** The answer to a submission, and the tables it leaves. */
  datatype Served = Served(answer: Submission, tables: Db)

  /**
   `seen` are the tables that the lookup of the key finds, and `tables` the ones that the commit meets.  `t` and `e`
   are the identifiers that the service draws for a new transaction and its event, and `drawn` is the key it draws
   when it has to.
   */
  ghost function Submit(tables: Db, seen: Db, requested: Option<string>, drawn: string, user: UserId, t: TxnId,
      e: EventId, now: Instant): Served
  {
    var key := KeyOf(requested, drawn);
    var owners := WithKey(seen, key);
    if |owners| > 1 then Served(SeveralOwners, tables)
    else if owners != {} then
      var owner :| owner in owners;
      Served(Accepted(owner, seen.txns[owner].status), tables)
    else if KeyUsedAt(tables.txns, key, now) then Served(Conflict, tables)
    else Served(Accepted(t, Submitted), InsertTransaction(tables, t, e, key, user, now))
  }

  method SubmitTransaction(database: Database, seen: Db, requested: Option<string>, drawn: string, user: UserId,
      t: TxnId, e: EventId, now: Instant)
    returns (r: Submission)
    modifies database
    ensures Served(r, database.tables) == Submit(old(database.tables), seen, requested, drawn, user, t, e, now)
    ensures var key := if requested.None? || requested.value == "" then drawn else requested.value;
            var owners := set x | x in seen.txns && seen.txns[x].key == key;
            && (r.Accepted? && owners != {} ==>
                  owners == {r.txn} && r.status == seen.txns[r.txn].status && database.tables == old(database.tables))
            && (r.Accepted? && owners == {} ==>
                  && r.txn == t && t in database.tables.txns
                  && database.tables.txns[t] == Txn(key, user, now, Submitted, None)
                  && e in database.tables.outbox
                  && database.tables.outbox[e] == OutboxRow(TransactionCreated(t, user, now), Waiting, 0, now, None))
            && (!r.Accepted? ==> database.tables == old(database.tables))
            && (r.SeveralOwners? <==> |owners| > 1)
  {
    var key := KeyOf(requested, drawn);
    var owners := set x | x in seen.txns && seen.txns[x].key == key;
    assert owners == WithKey(seen, key);
    if |owners| > 1 {
      return SeveralOwners;
    }
    if owners != {} {
      var owner :| owner in owners;
      Sole(owners, owner);
      return Accepted(owner, seen.txns[owner].status);
    }
    var tables := database.tables;
    if KeyUsedAt(tables.txns, key, now) {
      return Conflict;
    }
    tables := tables.(txns := tables.txns[t := Txn(key, user, now, Submitted, None)]);
    tables := Enqueue(tables, e, TransactionCreated(t, user, now), now);
    database.tables := tables;
    return Accepted(t, Submitted);
  }

  /**
   A request with a key of its own: whatever key the server draws, the transaction that alone has the key answers and
   nothing is written; if none has it, the new one is inserted under it, unless the key has been taken at the same
   instant.
   */
  lemma RequestedKeyDecides(tables: Db, seen: Db, k: string, drawn: string, user: UserId, t: TxnId, e: EventId,
      now: Instant)
    requires k != ""
    ensures var r := Submit(tables, seen, Some(k), drawn, user, t, e, now);
            && (forall owner | owner in seen.txns && seen.txns[owner].key == k
                               && (forall x | x in seen.txns && seen.txns[x].key == k :: x == owner) ::
                  r == Served(Accepted(owner, seen.txns[owner].status), tables))
            && ((forall x | x in seen.txns :: seen.txns[x].key != k) ==>
                  if exists x | x in tables.txns :: tables.txns[x].key == k && tables.txns[x].createdAt == now
                  then r == Served(Conflict, tables)
                  else && r.answer == Accepted(t, Submitted)
                       && r.tables.txns == tables.txns[t := Txn(k, user, now, Submitted, None)]
                       && r.tables.outbox
                          == tables.outbox[e := OutboxRow(TransactionCreated(t, user, now), Waiting, 0, now, None)])
  {
    forall owner | owner in seen.txns && seen.txns[owner].key == k
                   && (forall x | x in seen.txns && seen.txns[x].key == k :: x == owner)
      ensures WithKey(seen, k) == {owner}
    {
    }
    if forall x | x in seen.txns :: seen.txns[x].key != k {
      assert WithKey(seen, k) == {};
    }
  }

  /** Without a key, or with an empty one, the key that the server draws stands in, whatever else was requested. */
  lemma DrawnKeyDecides(tables: Db, seen: Db, requested: Option<string>, drawn: string, user: UserId, t: TxnId,
      e: EventId, now: Instant)
    requires (requested.None? || requested.value == "") && drawn != ""
    ensures Submit(tables, seen, requested, drawn, user, t, e, now)
            == Submit(tables, seen, Some(drawn), "", user, t, e, now)
  {
    Deterministic(seen, drawn);
  }

  lemma Deterministic(seen: Db, key: string)
    ensures forall x, y | |WithKey(seen, key)| <= 1 && x in WithKey(seen, key) && y in WithKey(seen, key) :: x == y
  {
    forall x, y | |WithKey(seen, key)| <= 1 && x in WithKey(seen, key) && y in WithKey(seen, key) ensures x == y {
      Sole(WithKey(seen, key), x);
    }
  }

  /**
   The repeat law: once a request with key k has gone through as transaction t at some moment of a run, every later
   request with that key is answered with t and writes nothing, whatever the server draws, while nobody looks the
   key up during another submission of it.
   */
  lemma RepeatReturnsOriginal(c: Settings, ls: seq<Label>, n: nat, k: string, t: TxnId, tables: Db, drawn: string,
      user: UserId, t': TxnId, e: EventId, now: Instant)
    requires Run(c, ls) && n <= |ls| && Run(c, ls[..n]) && Serialized(c, ls, k) && k != ""
    requires t in End(c, ls[..n]).db.txns && End(c, ls[..n]).db.txns[t].key == k
    ensures t in End(c, ls).db.txns
    ensures Submit(tables, End(c, ls).db, Some(k), drawn, user, t', e, now)
            == Served(Accepted(t, End(c, ls).db.txns[t].status), tables)
  {
    RepeatFindsOriginal(c, ls, n, k, t);
    var seen := End(c, ls).db;
    assert t in WithKey(seen, k);
    forall x | x in seen.txns && seen.txns[x].key == k ensures x == t {
      assert x in WithKey(seen, k);
    }
    hide Run, Legal, Exec, End, Serialized;
    RequestedKeyDecides(tables, seen, k, drawn, user, t', e, now);
  }

  /**
   The last step of a submission that has found its key free: the insert, or the failure when the index refuses it.
   */
  function LastLabel(s: State, client: nat, key: string, t: TxnId, e: EventId, user: UserId, now: Instant): Label {
    if KeyUsedAt(s.db.txns, key, now) then GiveUp(client) else Insert(client, t, e, user, now)
  }

  /**
   A submission that finds its key free in state s is the protocol's check there and, once the others have taken
   their own steps to state u, its insert or its failure.  The key is the requested one, or the drawn one without it.
   */
  lemma SubmitIsRun(c: Settings, s: State, client: nat, requested: Option<string>, drawn: string, between: seq<Label>,
      u: State, user: UserId, t: TxnId, e: EventId, now: Instant)
    requires client !in s.clients && WithKey(s.db, KeyOf(requested, drawn)) == {}
    requires var checked := s.(clients := s.clients[client := KeyOf(requested, drawn)]);
             Legal(c, checked, between) && Exec(c, checked, between) == u
    requires client in u.clients && u.clients[client] == KeyOf(requested, drawn)
    requires t !in u.db.txns && e !in u.db.outbox
    ensures var key := KeyOf(requested, drawn);
            var ls := [CheckKey(client, key)] + between + [LastLabel(u, client, key, t, e, user, now)];
            && Legal(c, s, ls)
            && Exec(c, s, ls) == u.(db := Submit(u.db, s.db, requested, drawn, user, t, e, now).tables,
                                    clients := Without(u.clients, client))
  {
    var key := KeyOf(requested, drawn);
    var checked := s.(clients := s.clients[client := key]);
    CheckStep(c, s, client, key);
    var last := LastLabel(u, client, key, t, e, user, now);
    var db := if KeyUsedAt(u.db.txns, key, now) then u.db else InsertTransaction(u.db, t, e, key, user, now);
    LastStep(c, u, client, key, t, e, user, now);
    hide Enabled, Next, InsertTransaction, LastLabel;
    assert Legal(c, s, []) && Exec(c, s, []) == s;
    ExtendTo(c, s, [], s, CheckKey(client, key), checked);
    assert [] + [CheckKey(client, key)] == [CheckKey(client, key)];
    Concat(c, s, [CheckKey(client, key)], between);
    ExtendTo(c, s, [CheckKey(client, key)] + between, u, last, u.(db := db, clients := Without(u.clients, client)));
  }

  lemma CheckStep(c: Settings, s: State, client: nat, key: string)
    requires client !in s.clients && WithKey(s.db, key) == {}
    ensures Enabled(c, s, CheckKey(client, key))
    ensures Next(c, s, CheckKey(client, key)) == s.(clients := s.clients[client := key])
  {
    KnownIffCounted(s.db, key);
  }

  lemma LastStep(c: Settings, u: State, client: nat, key: string, t: TxnId, e: EventId, user: UserId, now: Instant)
    requires client in u.clients && u.clients[client] == key && t !in u.db.txns && e !in u.db.outbox
    ensures var last := LastLabel(u, client, key, t, e, user, now);
            && Enabled(c, u, last)
            && var db := if KeyUsedAt(u.db.txns, key, now) then u.db else InsertTransaction(u.db, t, e, key, user, now);
               Next(c, u, last) == u.(db := db, clients := Without(u.clients, client))
  {
  }
}
