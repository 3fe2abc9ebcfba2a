/** The values the payments engine stores: accounts, journal entries and
    transaction rows. Amounts and balances are integers that count 0.0001 of a
    currency unit, the scale of every NUMERIC(18,4) column; account ids are
    totally ordered, as UUIDs are. */
module Types {

  datatype Option<+T> = None | Some(value: T)

  datatype Result<+T, +E> = Ok(value: T) | Err(error: E)

  type AccountId = nat
  type TxId = nat
  type Pid = nat
  type Key = string
  type Currency = string

  // uuid.Nil
  const NIL_ACCOUNT: AccountId := 0

  datatype AccountType = Asset | Liability | Equity | Income | Expense
  datatype AccountStatus = Active | Frozen | Closed

  datatype Account = Account(
    kind: AccountType, currency: Currency, balance: int, status: AccountStatus, version: nat)

  // Other stands for any text that is neither DEBIT nor CREDIT.
  datatype LineType = Debit | Credit | Other

  datatype Line = Line(account: AccountId, kind: LineType, amount: int)

  datatype EntryStatus = Posted | Reversed

  // origin is the transaction the entry belongs to, if any.
  datatype Entry = Entry(
    origin: Option<TxId>, description: string, currency: Currency, status: EntryStatus,
    postedBy: string, lines: seq<Line>)

  datatype TxStatus =
    Pending | Processing | Settled | Failed | Reversed | OnHold | Expired | Reconciled

  datatype Row = Row(
    key: Key, from: AccountId, to: AccountId, amount: int, currency: Currency,
    status: TxStatus, settledAt: Option<int>)

  // A transfer request, with the clearing account its service is configured
  // with and whether that service has an idempotency store.
  datatype Request = Request(
    key: Key, from: AccountId, to: AccountId, amount: int, currency: Currency,
    clearing: AccountId, cached: bool)

  predicate IsMin(s: set<AccountId>, m: AccountId) {
    m in s && forall a :: a in s ==> m <= a
  }

  lemma MinExists(s: set<AccountId>)
    requires s != {}
    ensures exists m :: IsMin(s, m)
  {
    var x :| x in s;
    var rest := s - {x};
    if rest == {} {
      assert s == {x};
      assert IsMin(s, x);
    } else {
      MinExists(rest);
      var m :| IsMin(rest, m);
      assert s == rest + {x};
      assert IsMin(s, if x < m then x else m);
    }
  }

  function Min(s: set<AccountId>): (m: AccountId)
    requires s != {}
    ensures IsMin(s, m)
  {
    MinExists(s);
    var m :| IsMin(s, m);
    m
  }
}
