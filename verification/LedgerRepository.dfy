/** The ledger package: the repository that locks, checks and posts an entry,
    and the service that checks its balance first. */
module LedgerRepository {
  import opened Types
  import opened Ledger
  import opened Sums
  import opened Storage

  datatype LedgerError =
    | DescriptionRequired | CurrencyRequired | PostedByRequired | NoLines
    | AccountNotFound | AccountNotActive | CurrencyMismatch | InsufficientFunds
    | AmountNotPositive | InvalidLineType | UnbalancedEntry

  datatype Loaded = Loaded(types: map<AccountId, AccountType>, balances: map<AccountId, int>)

  datatype TrialBalanceLine = TrialBalanceLine(account: AccountId, debits: int, credits: int, net: int)

  datatype TrialBalance = TrialBalance(
    currency: Currency, rows: seq<TrialBalanceLine>, balanced: bool, netTotal: int)

  /** Every account of the entry exists, is ACTIVE and holds its currency. */
  predicate Fit(m: map<AccountId, Account>, e: Entry) {
    forall l :: l in e.lines ==>
      l.account in m && m[l.account].status == Active && m[l.account].currency == e.currency
  }

  /** The one refusal that a transfer reports by its own name: every account is
      fit to post to, but one does not hold enough. */
  predicate RunsShort(m: map<AccountId, Account>, e: Entry) {
    && HeaderOk(e) && Fit(m, e)
    && exists a :: a in Touched(e.lines) && a in m && m[a].balance + NetDelta(e.lines, a, m[a].kind) < 0
  }

  /** An entry whose only fault is the amount of some line. */
  predicate OnlyAmounts(m: map<AccountId, Account>, e: Entry) {
    HeaderOk(e) && Fit(m, e) && !RunsShort(m, e) && exists l :: l in e.lines && l.amount <= 0
  }

  class Repository {
    const db: Database

    constructor (db: Database)
      ensures this.db == db
    {
      this.db := db;
    }

    /** Each account of the entry's lines, once, in no particular order. */
    method CollectAccountIDs(entry: Entry) returns (ids: seq<AccountId>)
      ensures forall a :: a in ids <==> a in Touched(entry.lines)
      ensures |ids| == |Touched(entry.lines)|
    {
      var found: set<AccountId> := {};
      for i := 0 to |entry.lines|
        invariant found == Touched(entry.lines[..i])
      {
        TouchedSnoc(entry.lines, i);
        found := found + {entry.lines[i].account};
      }
      assert entry.lines[..|entry.lines|] == entry.lines;
      ids := [];
      var todo := found;
      while todo != {}
        invariant todo <= found
        invariant forall a :: a in ids <==> a in found && a !in todo
        invariant |ids| + |todo| == |found|
      {
        var id :| id in todo;
        todo := todo - {id};
        ids := ids + [id];
      }
    }

    /** Locks the accounts in ascending id order and loads their types and
        balances, if they all exist, are ACTIVE and hold the expected currency. */
    method LoadAndLockAccounts(ids: seq<AccountId>, currency: Currency) returns (r: Result<Loaded, LedgerError>)
      ensures r.Ok? <==> forall a :: a in ids ==>
        a in db.accounts && db.accounts[a].status == Active && db.accounts[a].currency == currency
      ensures r == Err(AccountNotFound) <==> exists a :: a in ids && a !in db.accounts
      ensures r.Err? ==> r.error in {AccountNotFound, AccountNotActive, CurrencyMismatch}
      ensures r == Err(AccountNotActive) ==> exists a :: a in ids && a in db.accounts && db.accounts[a].status != Active
      ensures r == Err(CurrencyMismatch) ==> exists a :: a in ids && a in db.accounts && db.accounts[a].currency != currency
      ensures r.Ok? ==>
        && r.value.types.Keys == r.value.balances.Keys == (set a | a in ids)
        && forall a :: a in ids ==>
             r.value.types[a] == db.accounts[a].kind && r.value.balances[a] == db.accounts[a].balance
    {
      var types: map<AccountId, AccountType>, balances: map<AccountId, int> := map[], map[];
      var statuses: map<AccountId, AccountStatus>, currencies: map<AccountId, Currency> := map[], map[];
      var wanted := set a | a in ids;
      var found := set a | a in ids && a in db.accounts;
      var todo := found;
      while todo != {}
        invariant todo <= found
        invariant types.Keys == balances.Keys == statuses.Keys == currencies.Keys == found - todo
        invariant forall a :: a in types ==>
          && types[a] == db.accounts[a].kind && balances[a] == db.accounts[a].balance
          && statuses[a] == db.accounts[a].status && currencies[a] == db.accounts[a].currency
      {
        var id := Min(todo);
        todo := todo - {id};
        var row := db.accounts[id];
        types := types[id := row.kind];
        balances := balances[id := row.balance];
        statuses := statuses[id := row.status];
        currencies := currencies[id := row.currency];
      }
      if types.Keys != wanted {
        return Err(AccountNotFound);
      }
      assert forall a :: a in ids ==> a in types.Keys;
      for i := 0 to |ids|
        invariant forall j :: 0 <= j < i ==> statuses[ids[j]] == Active && currencies[ids[j]] == currency
      {
        assert ids[i] in ids;
        if statuses[ids[i]] != Active {
          return Err(AccountNotActive);
        }
        if currencies[ids[i]] != currency {
          return Err(CurrencyMismatch);
        }
      }
      r := Ok(Loaded(types, balances));
    }

    method ComputeNetDeltas(lines: seq<Line>, types: map<AccountId, AccountType>) returns (netDelta: map<AccountId, int>)
      requires Touched(lines) <= types.Keys
      ensures netDelta.Keys == Touched(lines)
      ensures forall a :: a in netDelta ==> netDelta[a] == NetDelta(lines, a, types[a])
      ensures forall a :: a in netDelta && (types[a] == Asset || types[a] == Expense) ==>
        netDelta[a] == AccountLines(lines, a, Debit) - AccountLines(lines, a, Credit)
      ensures forall a :: a in netDelta && (types[a] == Liability || types[a] == Equity || types[a] == Income) ==>
        netDelta[a] == AccountLines(lines, a, Credit) - AccountLines(lines, a, Debit)
    {
      netDelta := map[];
      for i := 0 to |lines|
        invariant netDelta.Keys == Touched(lines[..i])
        invariant forall a :: a in types ==>
          (if a in netDelta then netDelta[a] else 0) == NetDelta(lines[..i], a, types[a])
      {
        var line := lines[i];
        TouchedSnoc(lines, i);
        assert line in lines && line.account in Touched(lines);
        assert lines[..i + 1][..i] == lines[..i];
        var delta := 0;
        match line.kind {
          case Debit =>
            delta := if types[line.account] in {Asset, Expense} then line.amount else -line.amount;
          case Credit =>
            delta := if types[line.account] in {Liability, Equity, Income} then line.amount else -line.amount;
          case Other =>
        }
        netDelta := netDelta[line.account := (if line.account in netDelta then netDelta[line.account] else 0) + delta];
      }
      assert lines[..|lines|] == lines;
      forall a | a in netDelta ensures netDelta[a] ==
        if types[a] == Asset || types[a] == Expense
        then AccountLines(lines, a, Debit) - AccountLines(lines, a, Credit)
        else AccountLines(lines, a, Credit) - AccountLines(lines, a, Debit)
      {
        NetDeltaIs(lines, a, types[a]);
      }
    }

    /** Visits the deltas in any order. */
    method CheckSufficientBalances(balances: map<AccountId, int>, netDelta: map<AccountId, int>) returns (ok: bool)
      requires netDelta.Keys <= balances.Keys
      ensures ok <==> forall a :: a in netDelta ==> balances[a] + netDelta[a] >= 0
    {
      var todo := netDelta.Keys;
      while todo != {}
        invariant todo <= netDelta.Keys
        invariant forall a :: a in netDelta && a !in todo ==> balances[a] + netDelta[a] >= 0
      {
        var id :| id in todo;
        todo := todo - {id};
        if balances[id] + netDelta[id] < 0 {
          return false;
        }
      }
      ok := true;
    }

    /** Inserts the header and then the lines one by one; an invalid line stops
        the insertion and leaves the entry unfinished, for the caller to roll back. */
    method InsertHeaderAndLines(entry: Entry) returns (r: Result<(), LedgerError>)
      modifies db`journal
      ensures r.Ok? <==> LinesOk(entry.lines)
      ensures r.Ok? <==> forall l :: l in entry.lines ==> (l.kind == Debit || l.kind == Credit) && l.amount > 0
      ensures r.Err? ==> r.error in {AmountNotPositive, InvalidLineType}
      ensures r == Err(AmountNotPositive) ==> exists l :: l in entry.lines && l.amount <= 0
      ensures r == Err(InvalidLineType) ==> exists l :: l in entry.lines && l.kind == Other
      ensures r.Ok? ==> db.journal == old(db.journal) + [entry]
    {
      var n := |db.journal|;
      db.journal := db.journal + [entry.(lines := [])];
      for i := 0 to |entry.lines|
        invariant db.journal == old(db.journal) + [entry.(lines := entry.lines[..i])]
        invariant LinesOk(entry.lines[..i])
      {
        var line := entry.lines[i];
        assert line in entry.lines;
        if line.amount <= 0 {
          return Err(AmountNotPositive);
        }
        if line.kind == Other {
          return Err(InvalidLineType);
        }
        assert entry.lines[..i + 1] == entry.lines[..i] + [line];
        db.journal := db.journal[n := entry.(lines := entry.lines[..i] + [line])];
      }
      assert entry.lines[..|entry.lines|] == entry.lines;
      r := Ok(());
    }

    /** UPDATE ... SET balance = balance + delta, version = version + 1, account
        by account in any order. */
    method ApplyBalanceUpdates(deltas: map<AccountId, int>)
      requires deltas.Keys <= db.accounts.Keys
      modifies db`accounts
      ensures db.accounts == map a | a in old(db.accounts) ::
        var acct := old(db.accounts)[a];
        if a in deltas then acct.(balance := acct.balance + deltas[a], version := acct.version + 1) else acct
    {
      var todo := deltas.Keys;
      while todo != {}
        invariant todo <= deltas.Keys
        invariant db.accounts.Keys == old(db.accounts).Keys
        invariant forall a :: a in db.accounts ==>
          var acct := old(db.accounts)[a];
          db.accounts[a] ==
            if a in deltas && a !in todo
            then acct.(balance := acct.balance + deltas[a], version := acct.version + 1) else acct
      {
        var id :| id in todo;
        todo := todo - {id};
        var acct := db.accounts[id];
        db.accounts := db.accounts[id := acct.(balance := acct.balance + deltas[id], version := acct.version + 1)];
      }
    }

    /** Posts an entry inside the caller's transaction: exactly when InsertOk
        holds, the accounts move by one grouped delta each and the entry joins
        the journal; otherwise no account has moved. */
    method InsertJournalEntryTx(entry: Entry) returns (r: Result<(), LedgerError>)
      modifies db`accounts, db`journal
      ensures r.Ok? <==> InsertOk(old(db.accounts), entry)
      ensures r.Ok? ==> db.accounts == Apply(old(db.accounts), entry) && db.journal == old(db.journal) + [entry]
      ensures r.Err? ==> db.accounts == old(db.accounts)
      ensures HeaderOk(entry) ==>
        (r == Err(AccountNotFound) <==> exists a :: a in Touched(entry.lines) && a !in old(db.accounts))
      ensures r == Err(InsufficientFunds) <==> RunsShort(old(db.accounts), entry)
      ensures r.Ok? ==> forall l :: l in entry.lines ==> (l.kind == Debit || l.kind == Credit) && l.amount > 0
      ensures r == Err(AmountNotPositive) || r == Err(InvalidLineType) <==>
        && HeaderOk(entry) && Fit(old(db.accounts), entry) && !RunsShort(old(db.accounts), entry)
        && exists l :: l in entry.lines && (l.kind == Other || l.amount <= 0)
      ensures (forall l :: l in entry.lines ==> l.kind != Other) ==>
        (r == Err(AmountNotPositive) <==> OnlyAmounts(old(db.accounts), entry))
      ensures r == Err(AmountNotPositive) ==> exists l :: l in entry.lines && l.amount <= 0
      ensures r == Err(InvalidLineType) ==> exists l :: l in entry.lines && l.kind == Other
      ensures r == Err(AccountNotActive) ==>
        exists l :: l in entry.lines && l.account in old(db.accounts) && old(db.accounts)[l.account].status != Active
      ensures r == Err(CurrencyMismatch) ==>
        exists l :: l in entry.lines && l.account in old(db.accounts) && old(db.accounts)[l.account].currency != entry.currency
      ensures r == Err(DescriptionRequired) <==> entry.description == ""
      ensures r == Err(CurrencyRequired) <==> entry.description != "" && entry.currency == ""
      ensures r == Err(PostedByRequired) <==> entry.description != "" && entry.currency != "" && entry.postedBy == ""
      ensures r == Err(NoLines) <==>
        entry.description != "" && entry.currency != "" && entry.postedBy != "" && |entry.lines| == 0
      ensures r != Err(UnbalancedEntry)
    {
      Unfit(db.accounts, entry);
      hide NetDelta, AccountLines, InsertOk, RunsShort, LinesOk, Apply, Fit, OnlyAmounts;
      r := ValidateEntryHeader(entry);
      if r.Err? {
        return;
      }
      var assessed := Assess(entry);
      if assessed.Err? {
        return Err(assessed.error);
      }
      Verdict(db.accounts, entry, assessed.value);
      r := InsertHeaderAndLines(entry);
      if r.Ok? {
        ApplyBalanceUpdates(assessed.value);
      }
    }

    method ValidateEntryHeader(entry: Entry) returns (r: Result<(), LedgerError>)
      ensures r.Ok? <==> HeaderOk(entry)
      ensures r.Ok? <==> entry.description != "" && entry.currency != "" && entry.postedBy != "" && |entry.lines| > 0
      ensures r.Err? ==> r.error in {DescriptionRequired, CurrencyRequired, PostedByRequired, NoLines}
      ensures r == Err(DescriptionRequired) <==> entry.description == ""
      ensures r == Err(CurrencyRequired) <==> entry.description != "" && entry.currency == ""
      ensures r == Err(PostedByRequired) <==> entry.description != "" && entry.currency != "" && entry.postedBy == ""
    {
      if entry.description == "" {
        return Err(DescriptionRequired);
      }
      if entry.currency == "" {
        return Err(CurrencyRequired);
      }
      if entry.postedBy == "" {
        return Err(PostedByRequired);
      }
      if entry.lines == [] {
        return Err(NoLines);
      }
      r := Ok(());
    }

    /** Locks the accounts of an entry and computes its deltas, unless an account
        is unfit or would run short. */
    method Assess(entry: Entry) returns (r: Result<map<AccountId, int>, LedgerError>)
      requires HeaderOk(entry)
      ensures r.Ok? <==> Fit(db.accounts, entry) && !RunsShort(db.accounts, entry)
      ensures r == Err(InsufficientFunds) <==> RunsShort(db.accounts, entry)
      ensures r.Ok? ==>
        && r.value.Keys == Touched(entry.lines) <= db.accounts.Keys
        && forall a :: a in r.value ==> r.value[a] == NetDelta(entry.lines, a, db.accounts[a].kind)
      ensures r == Err(AccountNotFound) <==> exists a :: a in Touched(entry.lines) && a !in db.accounts
      ensures r == Err(AccountNotActive) ==>
        exists l :: l in entry.lines && l.account in db.accounts && db.accounts[l.account].status != Active
      ensures r == Err(CurrencyMismatch) ==>
        exists l :: l in entry.lines && l.account in db.accounts && db.accounts[l.account].currency != entry.currency
      ensures r.Err? ==> r.error in {AccountNotFound, AccountNotActive, CurrencyMismatch, InsufficientFunds}
    {
      Unfit(db.accounts, entry);
      hide NetDelta, AccountLines, InsertOk, RunsShort, LinesOk, Apply, Fit, OnlyAmounts;
      var ids := CollectAccountIDs(entry);
      var loaded := LoadAndLockAccounts(ids, entry.currency);
      FitIds(db.accounts, entry, ids);
      if loaded.Err? {
        return Err(loaded.error);
      }
      var netDelta := ComputeNetDeltas(entry.lines, loaded.value.types);
      var sufficient := CheckSufficientBalances(loaded.value.balances, netDelta);
      Verdict(db.accounts, entry, netDelta);
      if !sufficient {
        return Err(InsufficientFunds);
      }
      r := Ok(netDelta);
    }

    /** The same in a transaction of its own: all of the entry or nothing. */
    method InsertJournalEntry(entry: Entry) returns (r: Result<(), LedgerError>)
      modifies db`accounts, db`journal
      ensures r.Ok? <==> InsertOk(old(db.accounts), entry)
      ensures r.Ok? ==> forall l :: l in entry.lines ==> (l.kind == Debit || l.kind == Credit) && l.amount > 0
      ensures r.Ok? ==> db.accounts == Apply(old(db.accounts), entry) && db.journal == old(db.journal) + [entry]
      ensures r.Err? ==> db.accounts == old(db.accounts) && db.journal == old(db.journal)
      ensures r == Err(AmountNotPositive) || r == Err(InvalidLineType) <==>
        && HeaderOk(entry) && Fit(old(db.accounts), entry) && !RunsShort(old(db.accounts), entry)
        && exists l :: l in entry.lines && (l.kind == Other || l.amount <= 0)
      ensures (forall l :: l in entry.lines ==> l.kind != Other) ==>
        (r == Err(AmountNotPositive) <==> OnlyAmounts(old(db.accounts), entry))
      ensures r == Err(AmountNotPositive) ==> exists l :: l in entry.lines && l.amount <= 0
      ensures r == Err(InvalidLineType) ==> exists l :: l in entry.lines && l.kind == Other
      ensures r == Err(InsufficientFunds) <==> RunsShort(old(db.accounts), entry)
      ensures r != Err(UnbalancedEntry)
    {
      var accounts, journal := db.accounts, db.journal;
      r := InsertJournalEntryTx(entry);
      if r.Err? {
        db.accounts, db.journal := accounts, journal;
      }
    }

    /** One line for each account with a counted journal line, with its totals;
        the nets add up to total debits minus total credits over the POSTED
        entries of the currency, so the ledger is reported balanced exactly
        when these are equal. */
    method GetTrialBalance(currency: Currency) returns (tb: TrialBalance)
      ensures tb.currency == currency && tb.netTotal == TrialNet(db.journal, currency)
      ensures tb.balanced <==> TrialNet(db.journal, currency) == 0
      ensures forall a :: a in CountedAccounts(db.journal, currency) <==> exists l :: l in tb.rows && l.account == a
      ensures forall l :: l in tb.rows ==>
        && l.debits == AccountTotal(db.journal, l.account, Debit, currency)
        && l.credits == AccountTotal(db.journal, l.account, Credit, currency)
        && l.net == l.debits - l.credits
      ensures |tb.rows| == |CountedAccounts(db.journal, currency)|
      ensures forall l :: l in tb.rows ==> HasLine(db.journal, l.account, currency)
      ensures forall a :: HasLine(db.journal, a, currency) ==> exists l :: l in tb.rows && l.account == a
      ensures tb.netTotal == Sum(Nets(tb.rows))
    {
      hide AccountTotal, TrialNet, Sum, HasLine;
      var rows: seq<TrialBalanceLine> := [];
      SumSnoc([], 0);
      var netSum := 0;
      var counted := CountedAccounts(db.journal, currency);
      var todo := counted;
      while todo != {}
        invariant todo <= counted
        invariant netSum + NetsOver(db.journal, todo, currency) == NetsOver(db.journal, counted, currency)
        invariant forall a :: a in counted && a !in todo <==> exists l :: l in rows && l.account == a
        invariant forall l :: l in rows ==>
          && l.debits == AccountTotal(db.journal, l.account, Debit, currency)
          && l.credits == AccountTotal(db.journal, l.account, Credit, currency)
          && l.net == l.debits - l.credits
        invariant |rows| + |todo| == |counted|
        invariant netSum == Sum(Nets(rows))
      {
        var id := Min(todo);
        var debits := AccountTotal(db.journal, id, Debit, currency);
        var credits := AccountTotal(db.journal, id, Credit, currency);
        var line := TrialBalanceLine(id, debits, credits, debits - credits);
        netSum := netSum + line.net;
        ghost var before := rows;
        rows := rows + [line];
        assert Nets(rows) == Nets(before) + [line.net];
        SumSnoc(Nets(before), line.net);
        assert line in rows && forall l :: l in before ==> l in rows;
        todo := todo - {id};
        assert forall a :: a in counted && a !in todo ==> a == id || exists l :: l in before && l.account == a;
      }
      TrialBalanceByAccount(db.journal, counted, currency);
      tb := TrialBalance(currency, rows, netSum == 0, netSum);
      ListedAre(db.journal, currency, rows);
    }
  }

  lemma FitIds(m: map<AccountId, Account>, e: Entry, ids: seq<AccountId>)
    requires forall a :: a in ids <==> a in Touched(e.lines)
    ensures Fit(m, e) <==> forall a :: a in ids ==> a in m && m[a].status == Active && m[a].currency == e.currency
  {
    assert forall l :: l in e.lines ==> l.account in ids;
  }

  /** An entry with an incomplete header or an unfit account is refused for that. */
  lemma Unfit(m: map<AccountId, Account>, e: Entry)
    ensures !HeaderOk(e) || !Fit(m, e) ==> !InsertOk(m, e) && !RunsShort(m, e) && !OnlyAmounts(m, e)
    ensures InsertOk(m, e) ==> forall l :: l in e.lines ==> (l.kind == Debit || l.kind == Credit) && l.amount > 0
    ensures RunsShort(m, e) ==> !OnlyAmounts(m, e)
    ensures OnlyAmounts(m, e) <==>
      HeaderOk(e) && Fit(m, e) && !RunsShort(m, e) && exists l :: l in e.lines && l.amount <= 0
    ensures LinesOk(e.lines) <==> forall l :: l in e.lines ==> (l.kind == Debit || l.kind == Credit) && l.amount > 0
  {}

  /** What the deltas of an entry between fit accounts decide and do. */
  lemma Verdict(m: map<AccountId, Account>, e: Entry, netDelta: map<AccountId, int>)
    requires HeaderOk(e) && Fit(m, e) && netDelta.Keys == Touched(e.lines) <= m.Keys
    requires forall a :: a in netDelta ==> netDelta[a] == NetDelta(e.lines, a, m[a].kind)
    ensures RunsShort(m, e) <==> !forall a :: a in netDelta ==> m[a].balance + netDelta[a] >= 0
    ensures InsertOk(m, e) <==> LinesOk(e.lines) && !RunsShort(m, e)
    ensures Apply(m, e) == map a | a in m ::
      var acct := m[a];
      if a in netDelta then acct.(balance := acct.balance + netDelta[a], version := acct.version + 1) else acct
  {
    hide NetDelta, LinesOk;
  }

  function Nets(rows: seq<TrialBalanceLine>): (r: seq<int>)
    ensures |r| == |rows| && forall i :: 0 <= i < |rows| ==> r[i] == rows[i].net
  {
    seq(|rows|, i requires 0 <= i < |rows| => rows[i].net)
  }

  /** Account a has a line in some POSTED entry of the currency. */
  ghost predicate HasLine(journal: seq<Entry>, a: AccountId, c: Currency) {
    exists e, k :: e in journal && e.currency == c && e.status == Posted && k in e.lines && k.account == a
  }

  lemma ListedAre(journal: seq<Entry>, c: Currency, rows: seq<TrialBalanceLine>)
    requires forall a :: a in CountedAccounts(journal, c) <==> exists l :: l in rows && l.account == a
    ensures forall l :: l in rows ==> HasLine(journal, l.account, c)
    ensures forall a :: HasLine(journal, a, c) ==> exists l :: l in rows && l.account == a
  {
    forall l | l in rows ensures HasLine(journal, l.account, c) {
      assert l.account in CountedAccounts(journal, c);
    }
    forall a | HasLine(journal, a, c) ensures a in CountedAccounts(journal, c) {}
  }

  lemma TouchedSnoc(lines: seq<Line>, i: nat)
    requires i < |lines|
    ensures Touched(lines[..i + 1]) == Touched(lines[..i]) + {lines[i].account}
  {
    assert lines[..i + 1] == lines[..i] + [lines[i]];
  }

  /** The ledger service: the double-entry check in front of the repository. */
  class Service {
    const repo: Repository

    constructor (repo: Repository)
      ensures this.repo == repo
    {
      this.repo := repo;
    }

    method CheckBalanced(lines: seq<Line>) returns (r: Result<(), LedgerError>)
      ensures r.Ok? <==> Balanced(lines)
      ensures r.Ok? <==>
        (forall l :: l in lines ==> l.kind == Debit || l.kind == Credit) && Total(lines, Debit) == Total(lines, Credit)
      ensures r == Err(InvalidLineType) <==> !TypesValid(lines)
      ensures r == Err(UnbalancedEntry) <==> TypesValid(lines) && !Balanced(lines)
      ensures r.Err? ==> r.error in {InvalidLineType, UnbalancedEntry}
    {
      var totalDebits, totalCredits := 0, 0;
      for i := 0 to |lines|
        invariant TypesValid(lines[..i])
        invariant totalDebits == Total(lines[..i], Debit) && totalCredits == Total(lines[..i], Credit)
      {
        var line := lines[i];
        assert line in lines;
        assert lines[..i + 1] == lines[..i] + [line];
        assert lines[..i + 1][..i] == lines[..i];
        match line.kind {
          case Debit => totalDebits := totalDebits + line.amount;
          case Credit => totalCredits := totalCredits + line.amount;
          case Other => return Err(InvalidLineType);
        }
      }
      assert lines[..|lines|] == lines;
      if totalDebits != totalCredits {
        return Err(UnbalancedEntry);
      }
      r := Ok(());
    }

    method PostJournalEntryTx(entry: Entry) returns (r: Result<(), LedgerError>)
      modifies repo.db`accounts, repo.db`journal
      ensures r.Ok? <==> PostOk(old(repo.db.accounts), entry)
      ensures r.Ok? ==>
        repo.db.accounts == Apply(old(repo.db.accounts), entry) && repo.db.journal == old(repo.db.journal) + [entry]
      ensures r.Err? ==> repo.db.accounts == old(repo.db.accounts)
      ensures r.Ok? ==> forall l :: l in entry.lines ==> (l.kind == Debit || l.kind == Credit) && l.amount > 0
      ensures r == Err(InsufficientFunds) <==> Balanced(entry.lines) && RunsShort(old(repo.db.accounts), entry)
      ensures r == Err(InvalidLineType) <==> exists l :: l in entry.lines && l.kind == Other
      ensures r == Err(UnbalancedEntry) <==>
        (forall l :: l in entry.lines ==> l.kind != Other) && Total(entry.lines, Debit) != Total(entry.lines, Credit)
    {
      r := CheckBalanced(entry.lines);
      if r.Ok? {
        r := repo.InsertJournalEntryTx(entry);
      }
    }

    /** Accepts exactly the balanced entries of positive lines between ACTIVE
        accounts of their currency that leave no balance negative; moves each
        account by its own lines; anything else leaves the tables as they were. */
    method PostJournalEntry(entry: Entry) returns (r: Result<(), LedgerError>)
      modifies repo.db`accounts, repo.db`journal
      ensures r.Ok? <==> PostOk(old(repo.db.accounts), entry)
      ensures r.Ok? <==>
        && entry.description != "" && entry.currency != "" && entry.postedBy != "" && |entry.lines| > 0
        && (forall l :: l in entry.lines ==> (l.kind == Debit || l.kind == Credit) && l.amount > 0)
        && Total(entry.lines, Debit) == Total(entry.lines, Credit)
        && (forall l :: l in entry.lines ==>
              var m := old(repo.db.accounts);
              && l.account in m && m[l.account].status == Active && m[l.account].currency == entry.currency
              && m[l.account].balance +
                   (if m[l.account].kind == Asset || m[l.account].kind == Expense
                    then AccountLines(entry.lines, l.account, Debit) - AccountLines(entry.lines, l.account, Credit)
                    else AccountLines(entry.lines, l.account, Credit) - AccountLines(entry.lines, l.account, Debit)) >= 0)
      ensures r.Ok? ==>
        repo.db.accounts == Apply(old(repo.db.accounts), entry) && repo.db.journal == old(repo.db.journal) + [entry]
      ensures r.Ok? ==> forall a :: a in repo.db.accounts ==>
        var acct := old(repo.db.accounts)[a];
        repo.db.accounts[a] == acct.(
          balance := acct.balance +
            (if acct.kind == Asset || acct.kind == Expense
             then AccountLines(entry.lines, a, Debit) - AccountLines(entry.lines, a, Credit)
             else AccountLines(entry.lines, a, Credit) - AccountLines(entry.lines, a, Debit)),
          version := acct.version + if exists l :: l in entry.lines && l.account == a then 1 else 0)
      ensures r.Err? ==> repo.db.accounts == old(repo.db.accounts) && repo.db.journal == old(repo.db.journal)
      ensures r == Err(InvalidLineType) <==> exists l :: l in entry.lines && l.kind == Other
      ensures r == Err(UnbalancedEntry) <==>
        (forall l :: l in entry.lines ==> l.kind != Other) && Total(entry.lines, Debit) != Total(entry.lines, Credit)
      ensures r == Err(AmountNotPositive) <==>
        && (forall l :: l in entry.lines ==> l.kind != Other) && Total(entry.lines, Debit) == Total(entry.lines, Credit)
        && OnlyAmounts(old(repo.db.accounts), entry)
    {
      hide PostOk, InsertOk, Apply, AccountLines, RunsShort, Total, Fit, HeaderOk, OnlyAmounts, NetDelta;
      BalancedThenInserted(repo.db.accounts, entry);
      r := CheckBalanced(entry.lines);
      if r.Ok? {
        r := repo.InsertJournalEntry(entry);
      }
      AcceptedExactly(old(repo.db.accounts), entry);
      AppliedExactly(old(repo.db.accounts), entry);
    }
  }

  lemma BalancedThenInserted(m: map<AccountId, Account>, e: Entry)
    ensures PostOk(m, e) <==> Balanced(e.lines) && InsertOk(m, e)
  {}

  /** Short funds and unfit accounts, spelled out. */
  lemma RunsShortExactly(m: map<AccountId, Account>, e: Entry)
    ensures RunsShort(m, e) <==>
      && e.description != "" && e.currency != "" && e.postedBy != "" && |e.lines| > 0
      && (forall l :: l in e.lines ==>
            l.account in m && m[l.account].status == Active && m[l.account].currency == e.currency)
      && exists l :: l in e.lines && l.account in m && m[l.account].balance +
           (if m[l.account].kind == Asset || m[l.account].kind == Expense
            then AccountLines(e.lines, l.account, Debit) - AccountLines(e.lines, l.account, Credit)
            else AccountLines(e.lines, l.account, Credit) - AccountLines(e.lines, l.account, Debit)) < 0
  {
    forall a | a in m
      ensures NetDelta(e.lines, a, m[a].kind) ==
        if m[a].kind == Asset || m[a].kind == Expense
        then AccountLines(e.lines, a, Debit) - AccountLines(e.lines, a, Credit)
        else AccountLines(e.lines, a, Credit) - AccountLines(e.lines, a, Debit)
    {
      NetDeltaIs(e.lines, a, m[a].kind);
    }
    hide NetDelta, AccountLines;
  }
}
