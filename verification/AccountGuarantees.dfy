/** What the engine guarantees about accounts in every run. */
module AccountGuarantees {
  import opened Types
  import opened Ledger
  import opened Protocol
  import opened Invariant
  import Commits
  import Safety
  import Guarantees
  import Locking

  // ------------------------------------------------------------- the accounts

  /** In every reachable state each stored balance agrees with the journal, and
      each version counts the entries and status changes of its account. */
  lemma BalancesAgree(opening: map<AccountId, Account>, ss: seq<State>, i: nat)
    requires Run(opening, ss) && i < |ss|
    ensures var s := ss[i];
      && s.accounts.Keys == opening.Keys
      && forall a :: a in opening ==>
           && s.accounts[a].kind == opening[a].kind && s.accounts[a].currency == opening[a].currency
           && s.accounts[a].balance == opening[a].balance + JournalDelta(s.journal, a, opening[a].kind)
           && s.accounts[a].version == opening[a].version + TouchCount(s.journal, a) + StatusChanges(Events(s.log), a)
  {
    Guarantees.Serializable(opening, ss, i);
    hide Run;
    BalanceAgreesWithJournal(opening, Events(ss[i].log));
  }

  /** The accounting equation, in every currency and every reachable state; a
      zero trial balance; and no negative balance, if none was there at the start. */
  lemma BooksBalance(opening: map<AccountId, Account>, ss: seq<State>, i: nat, c: Currency)
    requires Run(opening, ss) && i < |ss|
    ensures Equation(ss[i].accounts, opening.Keys, c) == Equation(opening, opening.Keys, c)
    ensures AllBalanced(ss[i].journal) && TrialNet(ss[i].journal, c) == 0
    ensures NonNegative(opening) ==> NonNegative(ss[i].accounts)
  {
    Guarantees.Serializable(opening, ss, i);
    hide Run;
    var evs := Events(ss[i].log);
    EquationIsInvariant(opening, evs, c);
    HistoryIsBalanced(opening, evs);
    BalancedJournalNetsToZero(ss[i].journal, c);
    if NonNegative(opening) {
      NeverOverdrawn(opening, evs);
    }
  }

  lemma {:induction false} PostedEntries(m: map<AccountId, Account>, es: seq<Entry>)
    requires PostAll(m, es).Some?
    ensures forall e :: e in es ==>
      && e.description != "" && e.currency != "" && e.postedBy != "" && |e.lines| > 0
      && Total(e.lines, Debit) == Total(e.lines, Credit)
      && forall l :: l in e.lines ==> (l.kind == Debit || l.kind == Credit) && l.amount > 0
  {
    if es != [] {
      var init := es[..|es| - 1];
      PostedEntries(m, init);
      AcceptedExactly(PostAll(m, init).value, es[|es| - 1]);
      hide PostOk, AccountLines;
      assert forall e :: e in es ==> e in init || e == es[|es| - 1];
    }
  }

  lemma {:induction false} ReplayedEntries(opening: map<AccountId, Account>, evs: seq<Event>)
    requires Replay(opening, evs).Some?
    ensures forall e :: e in JournalOf(evs) ==>
      && e.description != "" && e.currency != "" && e.postedBy != "" && |e.lines| > 0
      && Total(e.lines, Debit) == Total(e.lines, Credit)
      && forall l :: l in e.lines ==> (l.kind == Debit || l.kind == Credit) && l.amount > 0
  {
    if evs != [] {
      var init, ev := evs[..|evs| - 1], evs[|evs| - 1];
      ReplayedEntries(opening, init);
      if ev.Posting? {
        PostedEntries(Replay(opening, init).value, ev.entries);
      }
    }
  }

  /** In every state of every run each journal entry is complete and balanced and
      each of its lines is a DEBIT or a CREDIT of a positive amount. */
  lemma JournalIsProper(opening: map<AccountId, Account>, ss: seq<State>, i: nat)
    requires Run(opening, ss) && i < |ss|
    ensures forall e :: e in ss[i].journal ==>
      && e.description != "" && e.currency != "" && e.postedBy != "" && |e.lines| > 0
      && Total(e.lines, Debit) == Total(e.lines, Credit)
      && forall l :: l in e.lines ==> (l.kind == Debit || l.kind == Credit) && l.amount > 0
  {
    Guarantees.Serializable(opening, ss, i);
    hide Run;
    ReplayedEntries(opening, Events(ss[i].log));
  }

  /** No unit of the log has a as an end of a transfer or in a single post. */
  ghost predicate OnlyClears(log: seq<Unit>, a: AccountId) {
    forall u :: u in log ==>
      && (u.SettleUnit? ==> u.req.from != a && u.req.to != a)
      && (u.PostUnit? ==> a !in Touched(u.entry.lines))
  }

  lemma {:induction false} ClearingDelta(log: seq<Unit>, a: AccountId, kind: AccountType)
    requires OnlyClears(log, a)
    ensures JournalDelta(JournalOf(Events(log)), a, kind) == 0
  {
    if log != [] {
      var init, u := log[..|log| - 1], log[|log| - 1];
      assert u in log;
      assert forall v :: v in init ==> v in log;
      ClearingDelta(init, a, kind);
      var evs := Events(log);
      assert evs[..|evs| - 1] == Events(init);
      var es := EntriesOf(EventOf(u));
      JournalDeltaConcat(JournalOf(Events(init)), es, a, kind);
      match u
      case SettleUnit(id, q) => LegsMove(id, q, a, kind);
      case PostUnit(e) =>
        NetDeltaUntouched(e.lines, a, kind);
        assert JournalDelta([e], a, kind) == JournalDelta([e][..0], a, kind) + NetDelta(e.lines, a, kind);
      case StatusUnit(_, _) =>
      case NettingUnit(_, _) =>
    }
  }

  /** Clearing nets out: an account that no settled transfer has as source or
      destination and no single post touches keeps its balance in every
      committed state, however many transfers clear through it. */
  lemma ClearingNetsOut(opening: map<AccountId, Account>, ss: seq<State>, i: nat, a: AccountId)
    requires Run(opening, ss) && i < |ss| && a in opening
    requires OnlyClears(ss[i].log, a)
    ensures a in ss[i].accounts && ss[i].accounts[a].balance == opening[a].balance
  {
    Guarantees.Serializable(opening, ss, i);
    BalancesAgree(opening, ss, i);
    ClearingDelta(ss[i].log, a, opening[a].kind);
  }

  // ------------------------------------------------------------ frozen accounts

  lemma CommitSparesInactive(s: State, p: Pid, a: AccountId)
    requires CanServerCommit(s, p) && TxnOk(s.accounts, s.rows, s.txns[p])
    requires a in s.accounts && s.accounts[a].status != Active
    ensures a !in TouchedBy(s.txns[p].posts)
    ensures (s.accounts + s.txns[p].accts)[a] == s.accounts[a]
  {
    PostAllIsAfterPosts(s.accounts, s.txns[p].posts);
    AfterUntouched(a, s.accounts[a], s.txns[p].posts);
  }

  ghost predicate StillFor(s: State, s': State, a: AccountId)
    requires a in s.accounts
  {
    && a in s'.accounts && s'.accounts[a].balance == s.accounts[a].balance
    && s.journal <= s'.journal
    && forall n :: |s.journal| <= n < |s'.journal| ==> a !in Touched(s'.journal[n].lines)
  }

  lemma FrozenStep(opening: map<AccountId, Account>, s: State, l: Label, s': State, a: AccountId)
    requires Inv(opening, s) && Step(s, l, s')
    requires a in s.accounts && s.accounts[a].status != Active
    ensures StillFor(s, s', a)
  {
    hide ProcInv, RowInv, CacheInv, SerialInv, LogInv;
    if l.SetStatus? {
      hide Inv;
    } else if l.ServerCommit? {
      CommittedFrozen(s, l.p, a);
    } else {
      hide Step, Inv;
      Safety.Footprint(s, l, s');
    }
  }

  lemma CommittedFrozen(s: State, p: Pid, a: AccountId)
    requires DbInv(s.accounts, s.rows, s.txns) && CanServerCommit(s, p)
    requires a in s.accounts && s.accounts[a].status != Active
    ensures StillFor(s, DoServerCommit(s, p), a)
  {
    hide TxnOk;
    var posts := s.txns[p].posts;
    Commits.OpenTxnOk(s, p);
    CommitSparesInactive(s, p, a);
    var journal := DoServerCommit(s, p).journal;
    forall n | |s.journal| <= n < |journal| ensures a !in Touched(journal[n].lines) {
      assert journal[n] == posts[n - |s.journal|];
      assert journal[n] in posts;
    }
  }

  /** Frozen means still: from the commit of a change to a non-ACTIVE status
      until the next commit back to ACTIVE, the account's balance is constant
      and no new journal line refers to it. */
  lemma {:induction false} FrozenMeansStill(opening: map<AccountId, Account>, ss: seq<State>, i: nat, j: nat, a: AccountId)
    requires Run(opening, ss) && i <= j < |ss|
    requires forall k :: i <= k <= j ==> a in ss[k].accounts && ss[k].accounts[a].status != Active
    ensures a in ss[i].accounts && StillFor(ss[i], ss[j], a)
    decreases j
  {
    hide Inv, Step;
    assert a in ss[i].accounts;
    if i < j {
      FrozenMeansStill(opening, ss, i, j - 1, a);
      Safety.RunsAreSafe(opening, ss, j - 1);
      assert SomeStep(ss[j - 1], ss[j]);
      var l :| Step(ss[j - 1], l, ss[j]);
      FrozenStep(opening, ss[j - 1], l, ss[j], a);
    }
  }

  // ------------------------------------------------------- settlement criterion

  lemma PostOkFrame(m: map<AccountId, Account>, m': map<AccountId, Account>, e: Entry)
    requires forall a :: a in Touched(e.lines) ==> a in m && a in m' && m[a] == m'[a]
    ensures PostOk(m, e) <==> PostOk(m', e)
  {}

  lemma LegAccounts(id: TxId, q: Request)
    ensures Touched(ClearingEntry(id, q).lines) == {q.from, q.clearing}
    ensures Touched(SettlementEntry(id, q).lines) == {q.clearing, q.to}
  {
    var e, f := ClearingEntry(id, q), SettlementEntry(id, q);
    forall a: AccountId
      ensures a in Touched(e.lines) <==> a in {q.from, q.clearing}
      ensures a in Touched(f.lines) <==> a in {q.clearing, q.to}
    {
      TwoLines(e.lines[0], e.lines[1], a, Asset);
      TwoLines(f.lines[0], f.lines[1], a, Asset);
    }
  }

  /** The exact settlement criterion, at the first leg: with its accounts
      locked, and all three accounts fit to settle, a transfer can post if and
      only if the locked source balance covers the amount, whatever the stale
      snapshot said. */
  lemma FirstLegIffCovered(opening: map<AccountId, Account>, ss: seq<State>, i: nat, p: Pid)
    requires Run(opening, ss) && i < |ss|
    requires Is(ss[i], p, AtLeg1) && p in ss[i].txns && Missing(ss[i], p) == {}
    requires Settleable(ss[i].accounts, ss[i].procs[p].req)
    ensures CanPost(ss[i], p) <==> ss[i].accounts[ss[i].procs[p].req.from].balance >= ss[i].procs[p].req.amount
  {
    var s := ss[i];
    hide Run, Settleable, PostOk;
    LegView(opening, ss, i, p);
    var q, id := s.procs[p].req, s.procs[p].id;
    LegAccounts(id, q);
    SettlesIffCovered(s.accounts, id, q);
    PostOkFrame(s.accounts, s.txns[p].accts, ClearingEntry(id, q));
  }

  /** At the second leg nothing can run short: the clearing account has just
      been credited in the transaction's own view. */
  lemma SecondLegNeverShort(opening: map<AccountId, Account>, ss: seq<State>, i: nat, p: Pid)
    requires Run(opening, ss) && i < |ss|
    requires Is(ss[i], p, AtLeg2) && p in ss[i].txns && Missing(ss[i], p) == {}
    requires Settleable(ss[i].accounts, ss[i].procs[p].req)
    ensures CanPost(ss[i], p)
  {
    var s := ss[i];
    hide Run, Settleable, PostOk;
    LegView(opening, ss, i, p);
    var q, id := s.procs[p].req, s.procs[p].id;
    LegAccounts(id, q);
    SettlesIffCovered(s.accounts, id, q);
    PostOkFrame(Apply(s.accounts, ClearingEntry(id, q)), s.txns[p].accts, SettlementEntry(id, q));
  }

  /** The private view at each leg, on the accounts the leg touches. */
  lemma LegView(opening: map<AccountId, Account>, ss: seq<State>, i: nat, p: Pid)
    requires Run(opening, ss) && i < |ss|
    requires Is(ss[i], p, AtLeg1) || Is(ss[i], p, AtLeg2)
    requires p in ss[i].txns && Missing(ss[i], p) == {}
    requires Settleable(ss[i].accounts, ss[i].procs[p].req)
    ensures var s, q, id := ss[i], ss[i].procs[p].req, ss[i].procs[p].id;
      && (s.procs[p].pc == AtLeg1 ==>
            forall a :: a in {q.from, q.clearing} ==> a in s.accounts && a in s.txns[p].accts && s.txns[p].accts[a] == s.accounts[a])
      && (s.procs[p].pc == AtLeg2 ==>
            && PostOk(s.accounts, ClearingEntry(id, q))
            && forall a :: a in {q.clearing, q.to} ==>
                 a in s.accounts && a in s.txns[p].accts && s.txns[p].accts[a] == Apply(s.accounts, ClearingEntry(id, q))[a])
  {
    var s := ss[i];
    hide ProcInv, RowInv, CacheInv, SerialInv, LogInv, PostOk, Run, Settleable, TxnOk, Apply;
    Safety.RunsAreSafe(opening, ss, i);
    assert ProcOk(s, p);
    LegPosts(s, p);
    Commits.OpenTxnOk(s, p);
    FirstViews(s.accounts, s.rows, s.txns[p]);
    HeldAccounts(s, p);
  }

  lemma HeldAccounts(s: State, p: Pid)
    requires Calls(s, p) && p in s.txns && Missing(s, p) == {} && Settleable(s.accounts, s.procs[p].req)
    ensures WantedBy(s.procs[p]) <= s.txns[p].accts.Keys
    ensures {s.procs[p].req.from, s.procs[p].req.clearing, s.procs[p].req.to} <= s.accounts.Keys
  {
    forall a | a in WantedBy(s.procs[p]) ensures a in s.txns[p].accts {
      assert a in s.accounts && a !in Missing(s, p);
    }
  }

  lemma LegPosts(s: State, p: Pid)
    requires Calls(s, p) && ProcOk(s, p) && p in s.txns
    ensures s.procs[p].pc == AtLeg1 ==> s.txns[p].posts == []
    ensures s.procs[p].pc == AtLeg2 ==> s.txns[p].posts == [ClearingEntry(s.procs[p].id, s.procs[p].req)]
  {
    hide AnswerOk, FinalOk, NetterInv, PosterInv, Full;
  }

  /** What a transaction that has posted one entry, or none, sees. */
  lemma FirstViews(accounts: map<AccountId, Account>, rows: map<TxId, Row>, t: Txn)
    requires TxnOk(accounts, rows, t) && |t.posts| <= 1
    ensures |t.posts| == 0 ==> forall a :: a in t.accts ==> a in accounts && t.accts[a] == accounts[a]
    ensures |t.posts| == 1 ==>
      && PostOk(accounts, t.posts[0])
      && forall a :: a in t.accts ==> a in accounts && t.accts[a] == Apply(accounts, t.posts[0])[a]
  {
    hide PostOk;
    if |t.posts| == 1 {
      var e := t.posts[0];
      assert t.posts == [] + [e];
      SinglePost(accounts, e);
      forall a | a in t.accts ensures AfterPosts(a, accounts[a], t.posts) == ApplyTo(a, accounts[a], e) {
        AfterSnoc(a, accounts[a], [], e);
      }
    }
  }

  lemma SinglePost(m: map<AccountId, Account>, e: Entry)
    ensures PostAll(m, [e]) == if PostOk(m, e) then Some(Apply(m, e)) else None
  {
    assert [e][..0] == [];
  }

  // ----------------------------------------------------------------- lock order

  /** The row locks of the open database transactions, each with the accounts of
      the post it is making. */
  function Locks(s: State): Locking.System
    requires s.txns.Keys <= s.procs.Keys
  {
    map p | p in s.txns :: Locking.Client([], 0, [WantedBy(s.procs[p]) * s.accounts.Keys], 0, s.txns[p].accts.Keys)
  }

  /** Locking in the engine is locking in the lock model: the same steps are
      possible and they have the same effect. */
  lemma LockStepsAgree(s: State, p: Pid, a: AccountId)
    requires s.txns.Keys <= s.procs.Keys && p in s.txns
    ensures CanLock(s, p, a) <==>
      && Locking.Enabled(Locks(s), Locking.Acquire(p)) && a == Min(Locking.Wanted(Locks(s)[p]))
    ensures CanLock(s, p, a) ==> Locks(DoLock(s, p, a)) == Locking.Next(Locks(s), Locking.Acquire(p))
  {
    hide CanLock, Locks, Locking.Enabled, DoLock, Locking.Next;
    LocksEnabled(s, p, a);
    if CanLock(s, p, a) {
      LocksLocked(s, p, a);
    }
  }

  lemma LocksEnabled(s: State, p: Pid, a: AccountId)
    requires s.txns.Keys <= s.procs.Keys && p in s.txns
    ensures CanLock(s, p, a) <==>
      && Locking.Enabled(Locks(s), Locking.Acquire(p)) && a == Min(Locking.Wanted(Locks(s)[p]))
  {
    LocksWanted(s, p);
    LocksFree(s, p, a);
    hide Missing, Locking.Wanted, Locking.Free, AccountFree;
  }

  lemma LocksLocked(s: State, p: Pid, a: AccountId)
    requires s.txns.Keys <= s.procs.Keys && CanLock(s, p, a)
    requires Locking.Enabled(Locks(s), Locking.Acquire(p)) && a == Min(Locking.Wanted(Locks(s)[p]))
    ensures Locks(DoLock(s, p, a)) == Locking.Next(Locks(s), Locking.Acquire(p))
  {
    assert a in s.accounts;
    hide WantedBy, Missing, AccountFree, Locking.Wanted, Locking.Free;
    var sys := Locks(s);
    assert s.txns[p].accts[a := s.accounts[a]].Keys == s.txns[p].accts.Keys + {a};
    assert Locks(DoLock(s, p, a)) == sys[p := sys[p].(held := sys[p].held + {a})];
  }

  lemma LocksWanted(s: State, p: Pid)
    requires s.txns.Keys <= s.procs.Keys && p in s.txns
    ensures Locking.Wanted(Locks(s)[p]) == Missing(s, p)
  {
    hide WantedBy;
  }

  lemma LocksFree(s: State, p: Pid, a: AccountId)
    requires s.txns.Keys <= s.procs.Keys && p in s.txns
    ensures a in Missing(s, p) ==> (AccountFree(s.txns, a) <==> Locking.Free(Locks(s), p, a))
  {
    hide WantedBy, Locking.Wanted;
    var sys := Locks(s);
    assert forall q :: q in sys ==> Locking.Shares(sys[q]) == {} && sys[q].held == s.txns[q].accts.Keys;
    if a in Missing(s, p) && Locking.Free(sys, p, a) {
      forall q | q in s.txns ensures a !in s.txns[q].accts {
        assert q != p ==> q in sys && a !in sys[q].held;
      }
    }
  }
}
