/**
 A submitted transaction over whole runs: its event, its status, its alert, and the idempotency
 key, which is checked before the insert and so protects serialized submissions only.
 */
module TransactionLifecycle {
  import opened Collections
  import opened Domain
  import opened Ledger
  import opened LedgerInvariants
  import opened Protocol
  import opened ProtocolInvariants
  import opened Delivery
  import opened AlertHistory

  /**
   One event announces a transaction, it is PROCESSED once that event is in the inbox, and it has one alert at
   the most.
   */
  lemma Lifecycle(c: Settings, ls: seq<Label>, t: TxnId)
    requires Run(c, ls) && t in End(c, ls).db.txns
    ensures var db := End(c, ls).db;
            var txn := db.txns[t];
            && (exists e: EventId :: OnlyEvent(db, e, TransactionCreated(t, txn.user, txn.createdAt))
                            && (txn.status.Processed? <==> (e, ProcessorGroup) in db.inbox))
            && (!txn.status.Processed? ==> txn.status.Submitted?)
            && (forall a, b | a in db.alerts && b in db.alerts && db.alerts[a].txn == t && db.alerts[b].txn == t ::
                a == b)
            && (forall a | a in db.alerts && db.alerts[a].txn == t ::
                txn.status.Processed? && db.alerts[a].user == txn.user)
  {
    var db := End(c, ls).db;
    RunInv(c, ls);
    var e := CreatedEvent(c, db, t);
    assert OnlyEvent(db, e, TransactionCreated(t, db.txns[t].user, db.txns[t].createdAt));
  }

  ghost function WithKey(db: Db, key: string): set<TxnId> {
    set t | t in db.txns && db.txns[t].key == key
  }

  lemma WithKeyCommit(c: Settings, s: State, l: Label, db': Db, key: string)
    requires Commits(c, s, l, db')
    ensures WithKey(db', key) == WithKey(s.db, key) + if l.Insert? && s.clients[l.client] == key then {l.t} else {}
    ensures l.Insert? ==> l.t !in WithKey(s.db, key)
  {
    if l.CommitBatch? {
      var pub := s.publishers[l.p];
      SettleSameBusiness(c.maxRetries, s.db, pub.batch, pub.outcomes, |pub.batch|, pub.now);
    }
  }

  lemma WithKeyStep(c: Settings, s: State, l: Label, key: string)
    requires Enabled(c, s, l)
    ensures WithKey(Next(c, s, l).db, key) ==
            WithKey(s.db, key) + if l.Insert? && s.clients[l.client] == key then {l.t} else {}
    ensures l.Insert? ==> l.t !in WithKey(s.db, key)
  {
    hide Commits;
    NextCommits(c, s, l);
    WithKeyCommit(c, s, l, Next(c, s, l).db, key);
  }

  lemma KnownIffCounted(db: Db, key: string)
    ensures KeyKnown(db.txns, key) <==> |WithKey(db, key)| >= 1
  {
    if KeyKnown(db.txns, key) {
      var t :| t in db.txns && db.txns[t].key == key;
      assert t in WithKey(db, key);
    } else {
      assert WithKey(db, key) == {};
    }
  }

  lemma {:induction false} OwnerStays(c: Settings, ls: seq<Label>, n: nat, key: string, t: TxnId)
    requires Run(c, ls) && n <= |ls| && Run(c, ls[..n]) && t in WithKey(End(c, ls[..n]).db, key)
    ensures t in WithKey(End(c, ls).db, key)
  {
    if n < |ls| {
      var before := ls[..|ls| - 1];
      assert before[..n] == ls[..n];
      OwnerStays(c, before, n, key, t);
      WithKeyStep(c, End(c, before), ls[|ls| - 1], key);
    } else {
      assert ls[..n] == ls;
    }
  }

  // ---------------------------------------------------------------- serialized submissions

  /** A submission of the key is between its check and its insert. */
  predicate Held(s: State, key: string) {
    exists k | k in s.clients :: s.clients[k] == key
  }

  /** Nobody checked the key while another submission of it was under way. */
  ghost predicate Serialized(c: Settings, ls: seq<Label>, key: string)
    requires Run(c, ls)
  {
    |ls| == 0
    || (Serialized(c, ls[..|ls| - 1], key)
        && !(ls[|ls| - 1].CheckKey? && ls[|ls| - 1].key == key && Held(End(c, ls[..|ls| - 1]), key)))
  }

  /** One submission holds the key at the most, and a held key names no transaction yet. */
  ghost predicate HeldOnce(s: State, key: string) {
    && (forall k, l | k in s.clients && l in s.clients && s.clients[k] == key && s.clients[l] == key :: k == l)
    && (Held(s, key) ==> !KeyKnown(s.db.txns, key))
    && |WithKey(s.db, key)| <= 1
  }

  /** The clients after a step. */
  lemma ClientsStep(c: Settings, s: State, l: Label)
    requires Enabled(c, s, l)
    ensures Next(c, s, l).clients ==
            if l.CheckKey? then s.clients[l.client := l.key]
            else if l.Insert? || l.GiveUp? then Without(s.clients, l.client)
            else s.clients
    ensures l.CheckKey? ==> !KeyKnown(s.db.txns, l.key) && l.client !in s.clients
    ensures l.Insert? ==> l.client in s.clients
  {
  }

  lemma HeldOnceStep(c: Settings, s: State, l: Label, key: string)
    requires Enabled(c, s, l) && HeldOnce(s, key) && !(l.CheckKey? && l.key == key && Held(s, key))
    ensures HeldOnce(Next(c, s, l), key)
  {
    ClientsStep(c, s, l);
    WithKeyStep(c, s, l, key);
    KnownIffCounted(s.db, key);
    KnownIffCounted(Next(c, s, l).db, key);
    hide Enabled, Next, KeyKnown, WithKey;
  }

  /**
   While nobody checks a key that another submission holds, the key is held once and names one transaction at the
   most.
   */
  lemma {:induction false} SerializedHeldOnce(c: Settings, ls: seq<Label>, key: string)
    requires Run(c, ls) && Serialized(c, ls, key)
    ensures HeldOnce(End(c, ls), key)
  {
    if |ls| == 0 {
      assert WithKey(START.db, key) == {};
    } else {
      SerializedHeldOnce(c, ls[..|ls| - 1], key);
      HeldOnceStep(c, End(c, ls[..|ls| - 1]), ls[|ls| - 1], key);
    }
  }

  /**
   While submissions of a key are serialized, every later lookup of the key finds the transaction that took it
   first, alone.
   */
  lemma RepeatFindsOriginal(c: Settings, ls: seq<Label>, n: nat, key: string, t: TxnId)
    requires Run(c, ls) && n <= |ls| && Run(c, ls[..n]) && t in WithKey(End(c, ls[..n]).db, key)
    requires Serialized(c, ls, key)
    ensures WithKey(End(c, ls).db, key) == {t}
  {
    OwnerStays(c, ls, n, key, t);
    SerializedHeldOnce(c, ls, key);
    Sole(WithKey(End(c, ls).db, key), t);
  }

  // ---------------------------------------------------------------- overlapping submissions

  /** The label is one that a client takes in a submission. */
  predicate Submits(l: Label, client: nat) {
    (l.CheckKey? || l.Insert? || l.GiveUp?) && l.client == client
  }

  /** A submission of the key that went through: checked as step i, inserted as step k. */
  predicate Window(ls: seq<Label>, i: nat, k: nat, key: string) {
    && i < k < |ls| && ls[k].Insert? && ls[i] == CheckKey(ls[k].client, key)
    && forall x | i < x < k :: !Submits(ls[x], ls[k].client)
  }

  ghost predicate Inserts(ls: seq<Label>, j: nat, key: string) {
    exists i :: Window(ls, i, j, key)
  }

  /** A submission of the key was inserted between the check and the insert of another one. */
  ghost predicate Overtaken(ls: seq<Label>, key: string) {
    exists i: nat, j: nat, k: nat :: Window(ls, i, k, key) && i < j < k && Inserts(ls, j, key)
  }

  /** Behind every key that a client holds there is its check, and nothing of the client's since. */
  lemma {:induction false} HeldSince(c: Settings, ls: seq<Label>, client: nat) returns (i: nat)
    requires Run(c, ls) && client in End(c, ls).clients
    ensures i < |ls| && ls[i] == CheckKey(client, End(c, ls).clients[client])
    ensures forall x | i < x < |ls| :: !Submits(ls[x], client)
  {
    var n := |ls| - 1;
    var s := End(c, ls[..n]);
    ClientsStep(c, s, ls[n]);
    if Submits(ls[n], client) {
      i := n;
    } else {
      i := HeldSince(c, ls[..n], client);
    }
  }

  /** The insert of a key is the end of a submission of it. */
  lemma InsertHasWindow(c: Settings, ls: seq<Label>, n: nat, key: string) returns (i: nat)
    requires Run(c, ls) && n < |ls| && Run(c, ls[..n]) && ls[n].Insert? && Enabled(c, End(c, ls[..n]), ls[n])
    requires End(c, ls[..n]).clients[ls[n].client] == key
    ensures Window(ls, i, n, key)
  {
    i := HeldSince(c, ls[..n], ls[n].client);
  }

  /** And a submission that went through was the insert of its key. */
  lemma {:induction false} WindowHolds(c: Settings, ls: seq<Label>, client: nat, i: nat, key: string)
    requires Run(c, ls) && i < |ls| && ls[i] == CheckKey(client, key)
    requires forall x | i < x < |ls| :: !Submits(ls[x], client)
    ensures client in End(c, ls).clients && End(c, ls).clients[client] == key
  {
    var n := |ls| - 1;
    ClientsStep(c, End(c, ls[..n]), ls[n]);
    if i < n {
      WindowHolds(c, ls[..n], client, i, key);
    }
  }

  /** A key that has become known was inserted on the way. */
  lemma {:induction false} InsertedBetween(c: Settings, ls: seq<Label>, n: nat, key: string) returns (j: nat)
    requires Run(c, ls) && n <= |ls| && Run(c, ls[..n])
    requires WithKey(End(c, ls[..n]).db, key) == {} && WithKey(End(c, ls).db, key) != {}
    ensures n <= j < |ls| && Inserts(ls, j, key)
    decreases |ls|
  {
    assert ls[..|ls|] == ls;
    j := n;
    if n < |ls| {
      var m := |ls| - 1;
      var before := ls[..m];
      RunStep(c, ls, m);
      WithKeyStep(c, End(c, before), ls[m], key);
      if WithKey(End(c, before).db, key) == {} {
        j := m;
        var i := InsertHasWindow(c, ls, m, key);
      } else {
        assert before[..n] == ls[..n];
        j := InsertedBetween(c, before, n, key);
        InsertsExtend(ls, m, j, key);
      }
    }
  }

  lemma InsertsExtend(ls: seq<Label>, m: nat, j: nat, key: string)
    requires m <= |ls| && j < m
    ensures Inserts(ls[..m], j, key) <==> Inserts(ls, j, key)
  {
    forall i ensures Window(ls[..m], i, j, key) <==> Window(ls, i, j, key) {
      WindowExtends(ls, m, i, j, key);
    }
    if Inserts(ls, j, key) {
      var i :| Window(ls, i, j, key);
      assert Window(ls[..m], i, j, key);
    }
  }

  lemma WindowExtends(ls: seq<Label>, m: nat, i: nat, k: nat, key: string)
    requires m <= |ls| && k < m
    ensures Window(ls[..m], i, k, key) <==> Window(ls, i, k, key)
  {
  }

  /** Once inserted, a key stays known. */
  lemma InsertedIsKnown(c: Settings, ls: seq<Label>, j: nat, key: string)
    requires Run(c, ls) && j < |ls| && Inserts(ls, j, key)
    ensures WithKey(End(c, ls).db, key) != {}
  {
    var i :| Window(ls, i, j, key);
    RunStep(c, ls, j);
    WindowHolds(c, ls[..j], ls[j].client, i, key);
    WithKeyStep(c, End(c, ls[..j]), ls[j], key);
    OwnerStays(c, ls, j + 1, key, ls[j].t);
  }

  /** With the last step left out, a run is overtaken unless that step overtakes or is overtaken. */
  lemma OvertakenBefore(ls: seq<Label>, key: string)
    requires |ls| > 0 && !(ls[|ls| - 1].Insert? && Inserts(ls, |ls| - 1, key))
    ensures Overtaken(ls, key) <==> Overtaken(ls[..|ls| - 1], key)
  {
    var m := |ls| - 1;
    if Overtaken(ls, key) {
      var i: nat, j: nat, k: nat :| Window(ls, i, k, key) && i < j < k && Inserts(ls, j, key);
      WindowExtends(ls, m, i, k, key);
      InsertsExtend(ls, m, j, key);
    }
    if Overtaken(ls[..m], key) {
      var i: nat, j: nat, k: nat :| Window(ls[..m], i, k, key) && i < j < k && Inserts(ls[..m], j, key);
      WindowExtends(ls, m, i, k, key);
      InsertsExtend(ls, m, j, key);
    }
  }

  /** The last step inserts the key: it was overtaken exactly if the key had become known since its check. */
  lemma LastInsert(c: Settings, ls: seq<Label>, key: string)
    requires Run(c, ls) && |ls| > 0
    requires ls[|ls| - 1].Insert? && End(c, ls[..|ls| - 1]).clients[ls[|ls| - 1].client] == key
    ensures WithKey(End(c, ls[..|ls| - 1]).db, key) == {} ==> !Overtaken(ls, key)
    ensures WithKey(End(c, ls[..|ls| - 1]).db, key) != {} ==> Overtaken(ls, key)
  {
    var m := |ls| - 1;
    var before := ls[..m];
    RunStep(c, ls, m);
    if WithKey(End(c, before).db, key) == {} {
      forall i: nat, j: nat, k: nat | Window(ls, i, k, key) && i < j < k ensures !Inserts(ls, j, key) {
        InsertsExtend(ls, m, j, key);
        if Inserts(ls, j, key) {
          InsertedIsKnown(c, before, j, key);
        }
      }
    } else {
      var i := InsertHasWindow(c, ls, m, key);
      RunStep(c, ls, i);
      assert before[..i] == ls[..i];
      ClientsStep(c, End(c, ls[..i]), ls[i]);
      KnownIffCounted(End(c, ls[..i]).db, key);
      var j := InsertedBetween(c, before, i, key);
      assert j != i by {
        assert before[i].CheckKey?;
      }
      InsertsExtend(ls, m, j, key);
    }
  }

  /**
   A key names one transaction at the most exactly when no submission of it was inserted between the check and
   the insert of another.
   */
  lemma {:induction false} KeyUniqueIffNotOvertaken(c: Settings, ls: seq<Label>, key: string)
    requires Run(c, ls)
    ensures |WithKey(End(c, ls).db, key)| <= 1 <==> !Overtaken(ls, key)
  {
    if |ls| == 0 {
      assert WithKey(START.db, key) == {};
    } else {
      var m := |ls| - 1;
      var before := ls[..m];
      RunStep(c, ls, m);
      KeyUniqueIffNotOvertaken(c, before, key);
      WithKeyStep(c, End(c, before), ls[m], key);
      if ls[m].Insert? && End(c, before).clients[ls[m].client] == key {
        LastInsert(c, ls, key);
        GrownByOne(WithKey(End(c, before).db, key), ls[m].t);
      } else {
        NotTheLast(c, ls, key);
        OvertakenBefore(ls, key);
      }
    }
  }

  lemma GrownByOne(xs: set<TxnId>, x: TxnId)
    requires x !in xs
    ensures |xs + {x}| <= 1 <==> xs == {}
  {
  }

  /** A last step that inserts another key, or nothing, is no insert of this one. */
  lemma NotTheLast(c: Settings, ls: seq<Label>, key: string)
    requires Run(c, ls) && |ls| > 0
    requires ls[|ls| - 1].Insert? ==> End(c, ls[..|ls| - 1]).clients[ls[|ls| - 1].client] != key
    ensures !Inserts(ls, |ls| - 1, key)
  {
    var m := |ls| - 1;
    if Inserts(ls, m, key) {
      var i :| Window(ls, i, m, key);
      WindowHolds(c, ls[..m], ls[m].client, i, key);
    }
  }

  // ---------------------------------------------------------------- the unique index

  /** No two transactions share key and instant, however submissions overlap. */
  ghost predicate IndexUnique(txns: map<TxnId, Txn>) {
    forall t, u | t in txns && u in txns && txns[t].key == txns[u].key && txns[t].createdAt == txns[u].createdAt ::
      t == u
  }

  lemma {:induction false} KeyAndInstantUnique(c: Settings, ls: seq<Label>)
    requires Run(c, ls)
    ensures IndexUnique(End(c, ls).db.txns)
  {
    if |ls| > 0 {
      KeyAndInstantUnique(c, ls[..|ls| - 1]);
      IndexStep(c, End(c, ls[..|ls| - 1]), ls[|ls| - 1]);
    }
  }

  /** What identifies a transaction for the index changes in no step. */
  predicate SameKeys(xs: map<TxnId, Txn>, ys: map<TxnId, Txn>) {
    xs.Keys == ys.Keys && forall t | t in xs :: ys[t].key == xs[t].key && ys[t].createdAt == xs[t].createdAt
  }

  lemma IndexCommit(c: Settings, s: State, l: Label, db': Db)
    requires Commits(c, s, l, db') && !l.Insert?
    ensures SameKeys(s.db.txns, db'.txns)
  {
    if l.CommitBatch? {
      var pub := s.publishers[l.p];
      SettleSameBusiness(c.maxRetries, s.db, pub.batch, pub.outcomes, |pub.batch|, pub.now);
    }
  }

  lemma IndexStep(c: Settings, s: State, l: Label)
    requires Enabled(c, s, l) && IndexUnique(s.db.txns)
    ensures IndexUnique(Next(c, s, l).db.txns)
  {
    if l.Insert? {
      var key := s.clients[l.client];
      assert Next(c, s, l).db.txns == s.db.txns[l.t := Txn(key, l.user, l.now, Submitted, None)];
      assert !KeyUsedAt(s.db.txns, key, l.now);
    } else {
      hide Commits;
      NextCommits(c, s, l);
      IndexCommit(c, s, l, Next(c, s, l).db);
    }
  }

  /** Two overlapping submissions of one key both go through. */
  lemma OverlappingSubmissions(c: Settings) returns (ls: seq<Label>)
    requires c.Valid()
    ensures Run(c, ls) && WithKey(End(c, ls).db, "key") == {0, 1}
  {
    Extend(c, [], CheckKey(0, "key"));
    ls := [] + [CheckKey(0, "key")];
    hide Run, End, Legal, Exec;
    Extend(c, ls, CheckKey(1, "key"));
    ls := ls + [CheckKey(1, "key")];
    Extend(c, ls, Insert(0, 0, 0, 0, 0));
    ls := ls + [Insert(0, 0, 0, 0, 0)];
    Extend(c, ls, Insert(1, 1, 1, 0, 1));
    ls := ls + [Insert(1, 1, 1, 0, 1)];
  }
}
