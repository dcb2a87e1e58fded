/** The stores that the services share: the PostgreSQL tables as last committed, and Redis. */
module Storage {
  import opened Domain
  import opened Ledger
  import opened Protocol

  class Database {
    var tables: Db

    constructor ()
      ensures tables == EMPTY
    {
      tables := EMPTY;
    }
  }

  class Redis {
    var log: seq<Entry>
    var groups: map<Group, GroupState>

    constructor ()
      ensures log == START.log && groups == START.groups
    {
      log, groups := START.log, START.groups;
    }
  }
}
