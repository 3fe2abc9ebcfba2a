/** What posting a journal entry means: the conditions under which an entry is
    accepted, the one net delta per account it applies, and the facts that
    follow for any history of accepted entries and status changes. */
module Ledger {
  import opened Types
  import opened Sums

  // ---------------------------------------------------------------- one entry

  function Touched(lines: seq<Line>): set<AccountId> {
    set l | l in lines :: l.account
  }

  predicate DebitNormal(kind: AccountType) {
    kind.Asset? || kind.Expense?
  }

  /** The effect of one line on the balance of an account of type kind. */
  function SignedAmount(kind: AccountType, l: Line): int {
    match l.kind
    case Debit => if kind.Asset? || kind.Expense? then l.amount else -l.amount
    case Credit => if kind.Liability? || kind.Equity? || kind.Income? then l.amount else -l.amount
    case Other => 0
  }

  function NetDelta(lines: seq<Line>, a: AccountId, kind: AccountType): int {
    if lines == [] then 0
    else
      var l := lines[|lines| - 1];
      NetDelta(lines[..|lines| - 1], a, kind) + if l.account == a then SignedAmount(kind, l) else 0
  }

  function Total(lines: seq<Line>, kind: LineType): int {
    if lines == [] then 0
    else
      var l := lines[|lines| - 1];
      Total(lines[..|lines| - 1], kind) + if l.kind == kind then l.amount else 0
  }

  predicate TypesValid(lines: seq<Line>) {
    forall l :: l in lines ==> !l.kind.Other?
  }

  predicate Balanced(lines: seq<Line>) {
    TypesValid(lines) && Total(lines, Debit) == Total(lines, Credit)
  }

  predicate HeaderOk(e: Entry) {
    e.description != "" && e.currency != "" && e.postedBy != "" && e.lines != []
  }

  predicate LinesOk(lines: seq<Line>) {
    TypesValid(lines) && forall l :: l in lines ==> l.amount > 0
  }

  /** The checks made on one locked account. */
  predicate AccountOk(a: AccountId, acct: Account, e: Entry) {
    && acct.status == Active
    && acct.currency == e.currency
    && acct.balance + NetDelta(e.lines, a, acct.kind) >= 0
  }

  /** The exact condition under which the repository accepts an entry ... */
  predicate InsertOk(m: map<AccountId, Account>, e: Entry) {
    && HeaderOk(e)
    && LinesOk(e.lines)
    && forall a :: a in Touched(e.lines) ==> a in m && AccountOk(a, m[a], e)
  }

  /** ... and under which the ledger service, which checks the balance first, does. */
  predicate PostOk(m: map<AccountId, Account>, e: Entry) {
    Balanced(e.lines) && InsertOk(m, e)
  }

  function ApplyTo(a: AccountId, acct: Account, e: Entry): Account {
    if a in Touched(e.lines)
    then acct.(balance := acct.balance + NetDelta(e.lines, a, acct.kind), version := acct.version + 1)
    else acct
  }

  function Apply(m: map<AccountId, Account>, e: Entry): map<AccountId, Account> {
    map a | a in m :: ApplyTo(a, m[a], e)
  }

  /** The simple form the grouped update is compared with: one line at a time. */
  function ApplyLine(m: map<AccountId, Account>, l: Line): map<AccountId, Account> {
    if l.account in m
    then m[l.account := m[l.account].(balance := m[l.account].balance + SignedAmount(m[l.account].kind, l))]
    else m
  }

  function ApplyLines(m: map<AccountId, Account>, lines: seq<Line>): map<AccountId, Account> {
    if lines == [] then m
    else ApplyLine(ApplyLines(m, lines[..|lines| - 1]), lines[|lines| - 1])
  }

  lemma {:induction false} NetDeltaUntouched(lines: seq<Line>, a: AccountId, kind: AccountType)
    requires a !in Touched(lines)
    ensures NetDelta(lines, a, kind) == 0
  {
    if lines != [] {
      var init := lines[..|lines| - 1];
      assert lines[|lines| - 1] in lines;
      assert forall l :: l in init ==> l in lines;
      NetDeltaUntouched(init, a, kind);
    }
  }

  /** One grouped delta per account gives the balances that the lines give one
      by one; each touched account's version rises by exactly one, whatever the
      number of its lines, and nothing else about any account changes. */
  lemma {:induction false} GroupedRefinesLineByLine(m: map<AccountId, Account>, e: Entry)
    ensures Apply(m, e).Keys == m.Keys == ApplyLines(m, e.lines).Keys
    ensures forall a :: a in m ==>
      Apply(m, e)[a] == ApplyLines(m, e.lines)[a].(
        version := m[a].version + if a in Touched(e.lines) then 1 else 0)
  {
    LineByLine(m, e.lines);
    forall a | a in m && a !in Touched(e.lines)
      ensures NetDelta(e.lines, a, m[a].kind) == 0
    {
      NetDeltaUntouched(e.lines, a, m[a].kind);
    }
  }

  lemma {:induction false} LineByLine(m: map<AccountId, Account>, lines: seq<Line>)
    ensures ApplyLines(m, lines).Keys == m.Keys
    ensures forall a :: a in m ==>
      ApplyLines(m, lines)[a] == m[a].(balance := m[a].balance + NetDelta(lines, a, m[a].kind))
  {
    if lines != [] {
      LineByLine(m, lines[..|lines| - 1]);
    }
  }

  // ------------------------------------------------------------ many entries

  /** Entries posted one after the other, each checked in the state its
      predecessors left; None when one of them is refused. */
  function PostAll(m: map<AccountId, Account>, es: seq<Entry>): Option<map<AccountId, Account>> {
    if es == [] then Some(m)
    else
      var before := PostAll(m, es[..|es| - 1]);
      var e := es[|es| - 1];
      if before.Some? && PostOk(before.value, e) then Some(Apply(before.value, e)) else None
  }

  function JournalDelta(es: seq<Entry>, a: AccountId, kind: AccountType): int {
    if es == [] then 0
    else JournalDelta(es[..|es| - 1], a, kind) + NetDelta(es[|es| - 1].lines, a, kind)
  }

  function TouchCount(es: seq<Entry>, a: AccountId): nat {
    if es == [] then 0
    else TouchCount(es[..|es| - 1], a) + if a in Touched(es[|es| - 1].lines) then 1 else 0
  }

  function TouchedBy(es: seq<Entry>): set<AccountId> {
    set e, l | e in es && l in e.lines :: l.account
  }

  /** An account after the entries es, in closed form. */
  function AfterPosts(a: AccountId, acct: Account, es: seq<Entry>): Account {
    acct.(balance := acct.balance + JournalDelta(es, a, acct.kind),
          version := acct.version + TouchCount(es, a))
  }

  lemma {:induction false} AfterUntouched(a: AccountId, acct: Account, es: seq<Entry>)
    requires a !in TouchedBy(es)
    ensures AfterPosts(a, acct, es) == acct
  {
    if es != [] {
      var e := es[|es| - 1];
      assert e in es;
      assert a !in Touched(e.lines);
      NetDeltaUntouched(e.lines, a, acct.kind);
      AfterUntouched(a, acct, es[..|es| - 1]);
    }
  }

  lemma AfterSnoc(a: AccountId, acct: Account, es: seq<Entry>, e: Entry)
    ensures AfterPosts(a, acct, es + [e]) == ApplyTo(a, AfterPosts(a, acct, es), e)
  {
    assert (es + [e])[..|es|] == es;
    if a !in Touched(e.lines) {
      NetDeltaUntouched(e.lines, a, acct.kind);
    }
  }

  lemma {:induction false} PostAllIsAfterPosts(m: map<AccountId, Account>, es: seq<Entry>)
    ensures PostAll(m, es).Some? ==>
      && PostAll(m, es).value.Keys == m.Keys
      && (forall a :: a in m ==> PostAll(m, es).value[a] == AfterPosts(a, m[a], es))
      && (forall a :: a in TouchedBy(es) ==> a in m && m[a].status == Active)
  {
    if es != [] {
      var init, e := es[..|es| - 1], es[|es| - 1];
      assert es == init + [e];
      PostAllIsAfterPosts(m, init);
      forall a | a in m {
        AfterSnoc(a, m[a], init, e);
      }
      if PostAll(m, es).Some? {
        forall a | a in TouchedBy(es) ensures a in m && m[a].status == Active {
          if a !in TouchedBy(init) {
            assert a in Touched(e.lines);
          }
        }
      }
    }
  }

  /** Acceptance depends only on the accounts the entries touch. */
  lemma {:induction false} PostAllFrame(m: map<AccountId, Account>, m': map<AccountId, Account>, es: seq<Entry>)
    requires PostAll(m, es).Some?
    requires forall a :: a in TouchedBy(es) ==> a in m && a in m' && m[a] == m'[a]
    ensures PostAll(m', es).Some?
  {
    if es != [] {
      var init, e := es[..|es| - 1], es[|es| - 1];
      assert es == init + [e];
      assert TouchedBy(init) <= TouchedBy(es) && Touched(e.lines) <= TouchedBy(es);
      PostAllFrame(m, m', init);
      PostAllIsAfterPosts(m, init);
      PostAllIsAfterPosts(m', init);
    }
  }

  // --------------------------------------------------------------- histories

  datatype Event = Posting(entries: seq<Entry>) | StatusSet(account: AccountId, status: AccountStatus)

  function ApplyEvent(m: map<AccountId, Account>, ev: Event): Option<map<AccountId, Account>> {
    match ev
    case Posting(es) => PostAll(m, es)
    case StatusSet(a, st) =>
      if a in m then Some(m[a := m[a].(status := st, version := m[a].version + 1)]) else None
  }

  /** A history replayed one event at a time from the opening accounts. */
  function Replay(opening: map<AccountId, Account>, evs: seq<Event>): Option<map<AccountId, Account>> {
    if evs == [] then Some(opening)
    else
      var before := Replay(opening, evs[..|evs| - 1]);
      if before.Some? then ApplyEvent(before.value, evs[|evs| - 1]) else None
  }

  function EntriesOf(ev: Event): seq<Entry> {
    if ev.Posting? then ev.entries else []
  }

  function JournalOf(evs: seq<Event>): seq<Entry> {
    if evs == [] then [] else JournalOf(evs[..|evs| - 1]) + EntriesOf(evs[|evs| - 1])
  }

  function StatusChanges(evs: seq<Event>, a: AccountId): nat {
    if evs == [] then 0
    else
      var ev := evs[|evs| - 1];
      StatusChanges(evs[..|evs| - 1], a) + if ev.StatusSet? && ev.account == a then 1 else 0
  }

  lemma {:induction false} JournalDeltaConcat(es: seq<Entry>, fs: seq<Entry>, a: AccountId, kind: AccountType)
    ensures JournalDelta(es + fs, a, kind) == JournalDelta(es, a, kind) + JournalDelta(fs, a, kind)
    ensures TouchCount(es + fs, a) == TouchCount(es, a) + TouchCount(fs, a)
  {
    if fs == [] {
      assert es + fs == es;
    } else {
      var init, f := fs[..|fs| - 1], fs[|fs| - 1];
      assert (es + fs)[..|es + fs| - 1] == es + init;
      JournalDeltaConcat(es, init, a, kind);
    }
  }

  /** The stored balance is a cache of the journal: opening balance plus every
      line signed by account type; the version counts the entries that touch
      the account plus its status changes; type and currency never change. */
  lemma {:induction false} BalanceAgreesWithJournal(opening: map<AccountId, Account>, evs: seq<Event>)
    requires Replay(opening, evs).Some?
    ensures Replay(opening, evs).value.Keys == opening.Keys
    ensures forall a :: a in opening ==>
      var now := Replay(opening, evs).value[a];
      && now.kind == opening[a].kind && now.currency == opening[a].currency
      && now.balance == opening[a].balance + JournalDelta(JournalOf(evs), a, opening[a].kind)
      && now.version == opening[a].version + TouchCount(JournalOf(evs), a) + StatusChanges(evs, a)
  {
    if evs != [] {
      var init, ev := evs[..|evs| - 1], evs[|evs| - 1];
      var m := Replay(opening, init).value;
      BalanceAgreesWithJournal(opening, init);
      match ev
      case Posting(es) =>
        PostAllIsAfterPosts(m, es);
        forall a | a in opening {
          JournalDeltaConcat(JournalOf(init), es, a, opening[a].kind);
        }
      case StatusSet(_, _) =>
        assert JournalOf(evs) == JournalOf(init);
    }
  }

  ghost predicate NonNegative(m: map<AccountId, Account>) {
    forall a :: a in m ==> m[a].balance >= 0
  }

  lemma {:induction false} PostAllNonNegative(m: map<AccountId, Account>, es: seq<Entry>)
    requires NonNegative(m) && PostAll(m, es).Some?
    ensures NonNegative(PostAll(m, es).value)
  {
    if es != [] {
      PostAllNonNegative(m, es[..|es| - 1]);
    }
  }

  lemma {:induction false} NeverOverdrawn(opening: map<AccountId, Account>, evs: seq<Event>)
    requires NonNegative(opening) && Replay(opening, evs).Some?
    ensures NonNegative(Replay(opening, evs).value)
  {
    if evs != [] {
      var init, ev := evs[..|evs| - 1], evs[|evs| - 1];
      NeverOverdrawn(opening, init);
      if ev.Posting? {
        PostAllNonNegative(Replay(opening, init).value, ev.entries);
      }
    }
  }

  // ------------------------------------------------------ accounting equation

  /** A line seen from the debit side. */
  function DebitSide(l: Line): int {
    match l.kind
    case Debit => l.amount
    case Credit => -l.amount
    case Other => 0
  }

  function DebitNet(lines: seq<Line>, a: AccountId): int {
    if lines == [] then 0
    else
      var l := lines[|lines| - 1];
      DebitNet(lines[..|lines| - 1], a) + if l.account == a then DebitSide(l) else 0
  }

  function DebitBalance(acct: Account): int {
    if DebitNormal(acct.kind) then acct.balance else -acct.balance
  }

  lemma {:induction false} NetDeltaIsDebitNet(lines: seq<Line>, a: AccountId, kind: AccountType)
    ensures NetDelta(lines, a, kind) == if DebitNormal(kind) then DebitNet(lines, a) else -DebitNet(lines, a)
  {
    if lines != [] {
      NetDeltaIsDebitNet(lines[..|lines| - 1], a, kind);
    }
  }

  /** Debit-normal balances minus credit-normal balances, over the accounts of
      ids that hold currency c. */
  function Equation(m: map<AccountId, Account>, ids: set<AccountId>, c: Currency): int {
    if ids == {} then 0
    else
      var a := Min(ids);
      Equation(m, ids - {a}, c) + if a in m && m[a].currency == c then DebitBalance(m[a]) else 0
  }

  function DebitNets(lines: seq<Line>, ids: set<AccountId>): int {
    if ids == {} then 0
    else
      var a := Min(ids);
      DebitNets(lines, ids - {a}) + DebitNet(lines, a)
  }

  lemma {:induction false} DebitNetsSnoc(lines: seq<Line>, ids: set<AccountId>)
    requires lines != []
    ensures var l := lines[|lines| - 1];
      DebitNets(lines, ids) == DebitNets(lines[..|lines| - 1], ids) + if l.account in ids then DebitSide(l) else 0
    decreases ids
  {
    if ids != {} {
      DebitNetsSnoc(lines, ids - {Min(ids)});
    }
  }

  lemma {:induction false} DebitNetsAreTotals(lines: seq<Line>, ids: set<AccountId>)
    requires Touched(lines) <= ids
    ensures DebitNets(lines, ids) == Total(lines, Debit) - Total(lines, Credit)
  {
    if lines == [] {
      DebitNetsEmpty(ids);
    } else {
      var init, l := lines[..|lines| - 1], lines[|lines| - 1];
      assert forall k :: k in init ==> k in lines;
      assert l in lines;
      DebitNetsSnoc(lines, ids);
      DebitNetsAreTotals(init, ids);
    }
  }

  lemma {:induction false} DebitNetsEmpty(ids: set<AccountId>)
    ensures DebitNets([], ids) == 0
  {
    if ids != {} {
      DebitNetsEmpty(ids - {Min(ids)});
    }
  }

  lemma {:induction false} EquationAfterPost(m: map<AccountId, Account>, e: Entry, ids: set<AccountId>, c: Currency)
    requires PostOk(m, e)
    requires ids <= m.Keys
    ensures Equation(Apply(m, e), ids, c) ==
      Equation(m, ids, c) + if e.currency == c then DebitNets(e.lines, ids) else 0
    decreases ids
  {
    if ids != {} {
      var a := Min(ids);
      EquationAfterPost(m, e, ids - {a}, c);
      NetDeltaIsDebitNet(e.lines, a, m[a].kind);
      if a !in Touched(e.lines) {
        NetDeltaUntouched(e.lines, a, m[a].kind);
      }
    }
  }

  lemma {:induction false} PostAllKeepsEquation(m: map<AccountId, Account>, es: seq<Entry>, c: Currency)
    requires PostAll(m, es).Some?
    ensures PostAll(m, es).value.Keys == m.Keys
    ensures Equation(PostAll(m, es).value, m.Keys, c) == Equation(m, m.Keys, c)
  {
    if es != [] {
      var init, e := es[..|es| - 1], es[|es| - 1];
      PostAllKeepsEquation(m, init, c);
      var m1 := PostAll(m, init).value;
      EquationAfterPost(m1, e, m.Keys, c);
      DebitNetsAreTotals(e.lines, m.Keys);
    }
  }

  lemma {:induction false} EquationIgnoresStatus(m: map<AccountId, Account>, m': map<AccountId, Account>, ids: set<AccountId>, c: Currency)
    requires ids <= m.Keys && ids <= m'.Keys
    requires forall a :: a in ids ==>
      m[a].kind == m'[a].kind && m[a].currency == m'[a].currency && m[a].balance == m'[a].balance
    ensures Equation(m, ids, c) == Equation(m', ids, c)
    decreases ids
  {
    if ids != {} {
      EquationIgnoresStatus(m, m', ids - {Min(ids)}, c);
    }
  }

  /** The accounting equation: no history of accepted entries and status
      changes moves debit-normal minus credit-normal balances, in any currency. */
  lemma {:induction false} EquationIsInvariant(opening: map<AccountId, Account>, evs: seq<Event>, c: Currency)
    requires Replay(opening, evs).Some?
    ensures Replay(opening, evs).value.Keys == opening.Keys
    ensures Equation(Replay(opening, evs).value, opening.Keys, c) == Equation(opening, opening.Keys, c)
  {
    if evs != [] {
      var init, ev := evs[..|evs| - 1], evs[|evs| - 1];
      EquationIsInvariant(opening, init, c);
      var m := Replay(opening, init).value;
      match ev
      case Posting(es) => PostAllKeepsEquation(m, es, c);
      case StatusSet(a, st) =>
        EquationIgnoresStatus(m, Replay(opening, evs).value, opening.Keys, c);
    }
  }

  // ------------------------------------------------------------ trial balance

  predicate Counted(e: Entry, c: Currency) {
    e.currency == c && e.status == Posted
  }

  /** Total of one side of one account over the POSTED entries in currency c. */
  function AccountTotal(journal: seq<Entry>, a: AccountId, kind: LineType, c: Currency): int {
    if journal == [] then 0
    else
      var e := journal[|journal| - 1];
      AccountTotal(journal[..|journal| - 1], a, kind, c)
      + if Counted(e, c) then AccountLines(e.lines, a, kind) else 0
  }

  function AccountLines(lines: seq<Line>, a: AccountId, kind: LineType): int {
    if lines == [] then 0
    else
      var l := lines[|lines| - 1];
      AccountLines(lines[..|lines| - 1], a, kind) + if l.account == a && l.kind == kind then l.amount else 0
  }

  /** Total debits minus total credits over the POSTED entries in currency c. */
  function TrialNet(journal: seq<Entry>, c: Currency): int {
    if journal == [] then 0
    else
      var e := journal[|journal| - 1];
      TrialNet(journal[..|journal| - 1], c)
      + if Counted(e, c) then Total(e.lines, Debit) - Total(e.lines, Credit) else 0
  }

  /** The accounts with a line in a POSTED entry of currency c. */
  function CountedAccounts(journal: seq<Entry>, c: Currency): set<AccountId> {
    set e, l | e in journal && Counted(e, c) && l in e.lines :: l.account
  }

  /** The trial-balance nets of the accounts of ids, added up. */
  function NetsOver(journal: seq<Entry>, ids: set<AccountId>, c: Currency): int {
    if ids == {} then 0
    else
      var a := Min(ids);
      NetsOver(journal, ids - {a}, c) + AccountTotal(journal, a, Debit, c) - AccountTotal(journal, a, Credit, c)
  }

  lemma {:induction false} NetsOverSnoc(journal: seq<Entry>, ids: set<AccountId>, c: Currency)
    requires journal != []
    ensures var e := journal[|journal| - 1];
      NetsOver(journal, ids, c) ==
        NetsOver(journal[..|journal| - 1], ids, c) + if Counted(e, c) then DebitNets(e.lines, ids) else 0
    decreases ids
  {
    if ids != {} {
      NetsOverSnoc(journal, ids - {Min(ids)}, c);
      DebitNetIsTotals(journal[|journal| - 1].lines, Min(ids));
    }
  }

  lemma {:induction false} NetsOverNothing(ids: set<AccountId>, c: Currency)
    ensures NetsOver([], ids, c) == 0
  {
    if ids != {} {
      NetsOverNothing(ids - {Min(ids)}, c);
    }
  }

  /** Summing the trial balance by account or by entry is the same. */
  lemma {:induction false} TrialBalanceByAccount(journal: seq<Entry>, ids: set<AccountId>, c: Currency)
    requires CountedAccounts(journal, c) <= ids
    ensures NetsOver(journal, ids, c) == TrialNet(journal, c)
  {
    if journal == [] {
      NetsOverNothing(ids, c);
    } else {
      var init, e := journal[..|journal| - 1], journal[|journal| - 1];
      assert forall d :: d in init ==> d in journal;
      assert CountedAccounts(init, c) <= CountedAccounts(journal, c);
      TrialBalanceByAccount(init, ids, c);
      NetsOverSnoc(journal, ids, c);
      if Counted(e, c) {
        assert e in journal;
        assert Touched(e.lines) <= CountedAccounts(journal, c);
        DebitNetsAreTotals(e.lines, ids);
      }
    }
  }

  ghost predicate AllBalanced(journal: seq<Entry>) {
    forall e :: e in journal ==> Balanced(e.lines)
  }

  lemma {:induction false} BalancedJournalNetsToZero(journal: seq<Entry>, c: Currency)
    requires AllBalanced(journal)
    ensures TrialNet(journal, c) == 0
  {
    if journal != [] {
      var init := journal[..|journal| - 1];
      assert journal[|journal| - 1] in journal;
      assert forall e :: e in init ==> e in journal;
      BalancedJournalNetsToZero(init, c);
    }
  }

  lemma {:induction false} PostAllBalanced(m: map<AccountId, Account>, es: seq<Entry>)
    requires PostAll(m, es).Some?
    ensures AllBalanced(es)
  {
    if es != [] {
      var init := es[..|es| - 1];
      PostAllBalanced(m, init);
      assert forall e :: e in es ==> e in init || e == es[|es| - 1];
    }
  }

  lemma {:induction false} HistoryIsBalanced(opening: map<AccountId, Account>, evs: seq<Event>)
    requires Replay(opening, evs).Some?
    ensures AllBalanced(JournalOf(evs))
  {
    if evs != [] {
      var init, ev := evs[..|evs| - 1], evs[|evs| - 1];
      HistoryIsBalanced(opening, init);
      if ev.Posting? {
        PostAllBalanced(Replay(opening, init).value, ev.entries);
      }
    }
  }

  lemma {:induction false} DebitNetIsTotals(lines: seq<Line>, a: AccountId)
    ensures DebitNet(lines, a) == AccountLines(lines, a, Debit) - AccountLines(lines, a, Credit)
  {
    if lines != [] {
      DebitNetIsTotals(lines[..|lines| - 1], a);
    }
  }

  /** When every entry that touches an account is POSTED and in its currency,
      the account's journal movement is plus or minus its trial-balance net. */
  lemma {:induction false} TrialBalanceOfAccount(journal: seq<Entry>, a: AccountId, kind: AccountType, c: Currency)
    requires forall e :: e in journal && a in Touched(e.lines) ==> Counted(e, c)
    ensures var net := AccountTotal(journal, a, Debit, c) - AccountTotal(journal, a, Credit, c);
      JournalDelta(journal, a, kind) == if DebitNormal(kind) then net else -net
  {
    if journal != [] {
      var init, e := journal[..|journal| - 1], journal[|journal| - 1];
      assert e in journal;
      assert forall d :: d in init ==> d in journal;
      TrialBalanceOfAccount(init, a, kind, c);
      NetDeltaIsDebitNet(e.lines, a, kind);
      DebitNetIsTotals(e.lines, a);
      if a !in Touched(e.lines) {
        NetDeltaUntouched(e.lines, a, kind);
      }
    }
  }

  lemma {:induction false} PostedInOwnCurrency(m: map<AccountId, Account>, es: seq<Entry>, a: AccountId)
    requires PostAll(m, es).Some? && a in m
    ensures forall e :: e in es && a in Touched(e.lines) ==> e.currency == m[a].currency
  {
    if es != [] {
      var init, e := es[..|es| - 1], es[|es| - 1];
      PostedInOwnCurrency(m, init, a);
      PostAllIsAfterPosts(m, init);
      assert forall d :: d in es ==> d in init || d == e;
    }
  }

  lemma {:induction false} HistoryInOwnCurrency(opening: map<AccountId, Account>, evs: seq<Event>, a: AccountId)
    requires Replay(opening, evs).Some? && a in opening
    ensures forall e :: e in JournalOf(evs) && a in Touched(e.lines) ==> e.currency == opening[a].currency
  {
    if evs != [] {
      var init, ev := evs[..|evs| - 1], evs[|evs| - 1];
      HistoryInOwnCurrency(opening, init, a);
      BalanceAgreesWithJournal(opening, init);
      if ev.Posting? {
        PostedInOwnCurrency(Replay(opening, init).value, ev.entries, a);
      }
    }
  }

  /** For an account opened at zero, when all its entries are POSTED, the
      stored balance is plus or minus its trial-balance net. */
  lemma BalanceIsTrialBalance(opening: map<AccountId, Account>, evs: seq<Event>, a: AccountId)
    requires Replay(opening, evs).Some? && a in opening && opening[a].balance == 0
    requires forall e :: e in JournalOf(evs) && a in Touched(e.lines) ==> e.status == Posted
    ensures a in Replay(opening, evs).value
    ensures var c := opening[a].currency;
      var net := AccountTotal(JournalOf(evs), a, Debit, c) - AccountTotal(JournalOf(evs), a, Credit, c);
      Replay(opening, evs).value[a].balance == if DebitNormal(opening[a].kind) then net else -net
  {
    HistoryInOwnCurrency(opening, evs, a);
    BalanceAgreesWithJournal(opening, evs);
    TrialBalanceOfAccount(JournalOf(evs), a, opening[a].kind, opening[a].currency);
  }

  // ------------------------------------------------ the two legs of a transfer

  const POSTED_BY := "transfer-service"

  function ClearingEntry(id: TxId, q: Request): Entry {
    Entry(Some(id), "transfer clearing", q.currency, Posted, POSTED_BY,
          [Line(q.from, Debit, q.amount), Line(q.clearing, Credit, q.amount)])
  }

  function SettlementEntry(id: TxId, q: Request): Entry {
    Entry(Some(id), "transfer settlement", q.currency, Posted, POSTED_BY,
          [Line(q.clearing, Debit, q.amount), Line(q.to, Credit, q.amount)])
  }

  function Legs(id: TxId, q: Request): seq<Entry> {
    [ClearingEntry(id, q), SettlementEntry(id, q)]
  }

  lemma TwoLines(l0: Line, l1: Line, a: AccountId, kind: AccountType)
    ensures NetDelta([l0, l1], a, kind) ==
      (if l0.account == a then SignedAmount(kind, l0) else 0) + (if l1.account == a then SignedAmount(kind, l1) else 0)
    ensures a in Touched([l0, l1]) <==> a == l0.account || a == l1.account
  {
    assert [l0, l1][..1] == [l0];
    assert NetDelta([l0], a, kind) == NetDelta([l0][..0], a, kind) + if l0.account == a then SignedAmount(kind, l0) else 0;
    assert l0 in [l0, l1] && l1 in [l0, l1];
  }

  lemma TwoEntries(m: map<AccountId, Account>, e: Entry, f: Entry)
    ensures PostAll(m, [e, f]) ==
      if PostOk(m, e) && PostOk(Apply(m, e), f) then Some(Apply(Apply(m, e), f)) else None
    ensures forall a, kind :: JournalDelta([e, f], a, kind) == NetDelta(e.lines, a, kind) + NetDelta(f.lines, a, kind)
  {
    assert [e, f][..1] == [e];
    assert [e][..0] == [];
    assert PostAll(m, [e]) == if PostOk(m, e) then Some(Apply(m, e)) else None;
    forall a, kind
      ensures JournalDelta([e, f], a, kind) == NetDelta(e.lines, a, kind) + NetDelta(f.lines, a, kind)
    {
      assert JournalDelta([e], a, kind) == JournalDelta([e][..0], a, kind) + NetDelta(e.lines, a, kind);
    }
  }

  lemma TransferLinesBalance(l0: Line, l1: Line)
    requires l0.kind == Debit && l1.kind == Credit && l0.amount == l1.amount
    ensures Balanced([l0, l1])
  {
    assert [l0, l1][..1] == [l0];
    assert Total([l0], Debit) == Total([l0][..0], Debit) + l0.amount;
    assert Total([l0], Credit) == Total([l0][..0], Credit);
  }

  /** What the two legs together do to any account: nothing at the clearing
      account, even when it stands on a side of the transfer it clears. */
  lemma LegsMove(id: TxId, q: Request, a: AccountId, kind: AccountType)
    ensures JournalDelta(Legs(id, q), a, kind) ==
      (if a == q.from then SignedAmount(kind, Line(a, Debit, q.amount)) else 0)
      + (if a == q.to then SignedAmount(kind, Line(a, Credit, q.amount)) else 0)
  {
    var e, f := ClearingEntry(id, q), SettlementEntry(id, q);
    TwoEntries(map[], e, f);
    TwoLines(e.lines[0], e.lines[1], a, kind);
    TwoLines(f.lines[0], f.lines[1], a, kind);
  }

  /** A settled transfer takes exactly the amount off the source's credit
      position and puts it on the destination's, whatever the account types;
      every other balance, the clearing account's included, is as before. */
  lemma TransferMoves(m: map<AccountId, Account>, id: TxId, q: Request)
    requires PostAll(m, Legs(id, q)).Some? && q.from != q.to
    ensures var m' := PostAll(m, Legs(id, q)).value;
      && m'.Keys == m.Keys && q.from in m && q.to in m
      && -DebitBalance(m'[q.from]) == -DebitBalance(m[q.from]) - q.amount
      && -DebitBalance(m'[q.to]) == -DebitBalance(m[q.to]) + q.amount
      && forall a :: a in m && a != q.from && a != q.to ==> m'[a].balance == m[a].balance
  {
    hide PostAll, JournalDelta, TouchCount, Legs, TouchedBy;
    PostAllIsAfterPosts(m, Legs(id, q));
    LegsTouch(id, q);
    forall a | a in m
      ensures JournalDelta(Legs(id, q), a, m[a].kind) ==
        (if a == q.from then SignedAmount(m[a].kind, Line(a, Debit, q.amount)) else 0)
        + (if a == q.to then SignedAmount(m[a].kind, Line(a, Credit, q.amount)) else 0)
    {
      LegsMove(id, q, a, m[a].kind);
    }
  }

  lemma LegsTouch(id: TxId, q: Request)
    ensures q.from in TouchedBy(Legs(id, q)) && q.to in TouchedBy(Legs(id, q))
  {
    var e, f := ClearingEntry(id, q), SettlementEntry(id, q);
    assert e in Legs(id, q) && f in Legs(id, q) && e.lines[0] in e.lines && f.lines[1] in f.lines;
  }

  ghost predicate Settleable(m: map<AccountId, Account>, q: Request) {
    && q.from != q.to && q.from != q.clearing && q.to != q.clearing
    && q.amount > 0 && q.currency != ""
    && forall a :: a in {q.from, q.clearing, q.to} ==>
         && a in m && m[a].status == Active && m[a].currency == q.currency
         && !DebitNormal(m[a].kind) && m[a].balance >= 0
  }

  /** The exact settlement criterion: between distinct, ACTIVE, credit-normal
      accounts of the request's currency with no negative balance, both legs
      are accepted if and only if the source covers the amount; once the first
      leg is accepted the second can never run short. */
  lemma SettlesIffCovered(m: map<AccountId, Account>, id: TxId, q: Request)
    requires Settleable(m, q)
    ensures PostAll(m, Legs(id, q)).Some? <==> m[q.from].balance >= q.amount
    ensures PostOk(m, ClearingEntry(id, q)) <==> m[q.from].balance >= q.amount
    ensures PostOk(m, ClearingEntry(id, q)) ==>
      PostOk(Apply(m, ClearingEntry(id, q)), SettlementEntry(id, q))
  {
    var e, f := ClearingEntry(id, q), SettlementEntry(id, q);
    TwoEntries(m, e, f);
    TransferLinesBalance(e.lines[0], e.lines[1]);
    TransferLinesBalance(f.lines[0], f.lines[1]);
    forall a: AccountId, k: AccountType
      ensures NetDelta(e.lines, a, k) ==
        (if a == q.from then SignedAmount(k, e.lines[0]) else 0)
        + (if a == q.clearing then SignedAmount(k, e.lines[1]) else 0)
      ensures NetDelta(f.lines, a, k) ==
        (if a == q.clearing then SignedAmount(k, f.lines[0]) else 0)
        + (if a == q.to then SignedAmount(k, f.lines[1]) else 0)
      ensures a in Touched(e.lines) <==> a == q.from || a == q.clearing
      ensures a in Touched(f.lines) <==> a == q.clearing || a == q.to
    {
      TwoLines(e.lines[0], e.lines[1], a, k);
      TwoLines(f.lines[0], f.lines[1], a, k);
    }
    assert LinesOk(e.lines) && LinesOk(f.lines);
    assert q.from in Touched(e.lines);
    assert AccountOk(q.from, m[q.from], e) <==> m[q.from].balance >= q.amount;
    assert AccountOk(q.clearing, m[q.clearing], e);
  }

  // ------------------------------------------------------------- spelled out

  /** One side of an entry, and one side of an account in it, line by line. */
  lemma {:induction false} SidesAre(lines: seq<Line>, a: AccountId, kind: LineType)
    ensures Total(lines, kind) ==
      Sum(seq(|lines|, i requires 0 <= i < |lines| => if lines[i].kind == kind then lines[i].amount else 0))
    ensures AccountLines(lines, a, kind) ==
      Sum(seq(|lines|, i requires 0 <= i < |lines| =>
        if lines[i].account == a && lines[i].kind == kind then lines[i].amount else 0))
  {
    var all := seq(|lines|, i requires 0 <= i < |lines| => if lines[i].kind == kind then lines[i].amount else 0);
    var own := seq(|lines|, i requires 0 <= i < |lines| =>
      if lines[i].account == a && lines[i].kind == kind then lines[i].amount else 0);
    if lines != [] {
      var n := |lines| - 1;
      var init := lines[..n];
      SidesAre(init, a, kind);
      assert all[..n] == seq(|init|, i requires 0 <= i < |init| => if init[i].kind == kind then init[i].amount else 0);
      assert own[..n] == seq(|init|, i requires 0 <= i < |init| =>
        if init[i].account == a && init[i].kind == kind then init[i].amount else 0);
    }
  }

  /** A debit raises the balance of an ASSET or EXPENSE account and lowers any
      other; a credit does the opposite. */
  lemma NetDeltaIs(lines: seq<Line>, a: AccountId, kind: AccountType)
    ensures kind == Asset || kind == Expense ==>
      NetDelta(lines, a, kind) == AccountLines(lines, a, Debit) - AccountLines(lines, a, Credit)
    ensures kind == Liability || kind == Equity || kind == Income ==>
      NetDelta(lines, a, kind) == AccountLines(lines, a, Credit) - AccountLines(lines, a, Debit)
  {
    NetDeltaIsDebitNet(lines, a, kind);
    DebitNetIsTotals(lines, a);
  }

  /** Which entries the ledger service accepts, whatever the number of their lines. */
  lemma AcceptedExactly(m: map<AccountId, Account>, e: Entry)
    ensures PostOk(m, e) <==>
      && e.description != "" && e.currency != "" && e.postedBy != "" && |e.lines| > 0
      && (forall l :: l in e.lines ==> (l.kind == Debit || l.kind == Credit) && l.amount > 0)
      && Total(e.lines, Debit) == Total(e.lines, Credit)
      && (forall l :: l in e.lines ==>
            && l.account in m && m[l.account].status == Active && m[l.account].currency == e.currency
            && m[l.account].balance +
                 (if m[l.account].kind == Asset || m[l.account].kind == Expense
                  then AccountLines(e.lines, l.account, Debit) - AccountLines(e.lines, l.account, Credit)
                  else AccountLines(e.lines, l.account, Credit) - AccountLines(e.lines, l.account, Debit)) >= 0)
  {
    forall l | l in e.lines && l.account in m
      ensures NetDelta(e.lines, l.account, m[l.account].kind) ==
        if m[l.account].kind == Asset || m[l.account].kind == Expense
        then AccountLines(e.lines, l.account, Debit) - AccountLines(e.lines, l.account, Credit)
        else AccountLines(e.lines, l.account, Credit) - AccountLines(e.lines, l.account, Debit)
    {
      NetDeltaIs(e.lines, l.account, m[l.account].kind);
    }
    hide NetDelta, AccountLines, Total;
    assert forall l :: l in e.lines ==> l.account in Touched(e.lines);
  }

  /** What an accepted entry does: its lines move its accounts, each account's
      version rises by one, and nothing else changes. */
  lemma AppliedExactly(m: map<AccountId, Account>, e: Entry)
    ensures Apply(m, e).Keys == m.Keys
    ensures forall a :: a in m ==> Apply(m, e)[a] == m[a].(
      balance := m[a].balance +
        (if m[a].kind == Asset || m[a].kind == Expense
         then AccountLines(e.lines, a, Debit) - AccountLines(e.lines, a, Credit)
         else AccountLines(e.lines, a, Credit) - AccountLines(e.lines, a, Debit)),
      version := m[a].version + if exists l :: l in e.lines && l.account == a then 1 else 0)
  {
    forall a | a in m
      ensures NetDelta(e.lines, a, m[a].kind) ==
        if m[a].kind == Asset || m[a].kind == Expense
        then AccountLines(e.lines, a, Debit) - AccountLines(e.lines, a, Credit)
        else AccountLines(e.lines, a, Credit) - AccountLines(e.lines, a, Debit)
      ensures a !in Touched(e.lines) ==> NetDelta(e.lines, a, m[a].kind) == 0
    {
      NetDeltaIs(e.lines, a, m[a].kind);
      if a !in Touched(e.lines) {
        NetDeltaUntouched(e.lines, a, m[a].kind);
      }
    }
    hide NetDelta, AccountLines;
  }

  /** What one more entry does to a trial balance: nothing, if it is of another
      currency or not POSTED; otherwise each of its lines counts on its own side
      of its own account, as SidesAre spells out. */
  lemma TrialBalanceOfAppended(journal: seq<Entry>, e: Entry, a: AccountId, kind: LineType, c: Currency)
    ensures AccountTotal([], a, kind, c) == 0 && TrialNet([], c) == 0 && CountedAccounts([], c) == {}
    ensures e.currency != c || e.status != Posted ==>
      && AccountTotal(journal + [e], a, kind, c) == AccountTotal(journal, a, kind, c)
      && TrialNet(journal + [e], c) == TrialNet(journal, c)
      && CountedAccounts(journal + [e], c) == CountedAccounts(journal, c)
    ensures e.currency == c && e.status == Posted ==>
      && AccountTotal(journal + [e], a, kind, c) == AccountTotal(journal, a, kind, c) + AccountLines(e.lines, a, kind)
      && TrialNet(journal + [e], c) == TrialNet(journal, c) + Total(e.lines, Debit) - Total(e.lines, Credit)
      && CountedAccounts(journal + [e], c) == CountedAccounts(journal, c) + set l | l in e.lines :: l.account
  {
    assert (journal + [e])[..|journal|] == journal;
    ListedAppended(journal, e, c);
  }

  lemma ListedAppended(journal: seq<Entry>, e: Entry, c: Currency)
    ensures CountedAccounts([], c) == {}
    ensures CountedAccounts(journal + [e], c) ==
      CountedAccounts(journal, c) + if e.currency == c && e.status == Posted then set l | l in e.lines :: l.account else {}
  {
    assert forall d :: d in journal + [e] <==> d in journal || d == e;
  }

  /** The accounting equation counts each account of the currency once: with its
      balance if it is an ASSET or EXPENSE account, against it otherwise. */
  lemma {:induction false} EquationCounts(m: map<AccountId, Account>, ids: set<AccountId>, a: AccountId, c: Currency)
    requires ids <= m.Keys && a in ids
    ensures Equation(m, {}, c) == 0
    ensures Equation(m, ids, c) == Equation(m, ids - {a}, c) +
      if m[a].currency != c then 0
      else if m[a].kind == Asset || m[a].kind == Expense then m[a].balance else -m[a].balance
    decreases ids
  {
    var b := Min(ids);
    if a != b {
      EquationCounts(m, ids - {b}, a, c);
      assert ids - {b} - {a} == ids - {a} - {b};
      assert b in ids - {a} && Min(ids - {a}) in ids;
    }
  }
}
