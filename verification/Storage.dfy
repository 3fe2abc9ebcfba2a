/** The database tables as one caller at a time sees them. A database
    transaction saves the tables when it begins and restores them when it rolls
    back; how transactions of several callers interleave is the business of the
    Protocol module. */
module Storage {
  import opened Types

  class Database {
    var accounts: map<AccountId, Account>
    var journal: seq<Entry>
    var rows: map<TxId, Row>

    constructor (accounts: map<AccountId, Account>)
      ensures this.accounts == accounts && journal == [] && rows == map[]
    {
      this.accounts := accounts;
      journal := [];
      rows := map[];
    }
  }
}
