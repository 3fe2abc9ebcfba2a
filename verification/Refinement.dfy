/** Runs of the engine in which one caller acts on an otherwise idle database:
    what ties the methods of the packages to the steps of the Protocol module,
    and so carries every guarantee about runs over to them. */
module Refinement {
  import opened Types
  import opened Ledger
  import opened Netting
  import opened Protocol
  import opened Storage
  import AccountGuarantees
  import Guarantees
  import Steps

  ghost predicate Path(ss: seq<State>) {
    ss != [] && forall i :: 0 <= i < |ss| - 1 ==> SomeStep(ss[i], ss[i + 1])
  }

  /** s' can follow s in a run, after any number of steps. */
  ghost predicate Reaches(s: State, s': State) {
    exists ss :: Path(ss) && ss[0] == s && ss[|ss| - 1] == s'
  }

  /** The tables are those of engine state w, in which no transaction is open. */
  ghost predicate Shows(db: Database, w: State)
    reads db
  {
    db.accounts == w.accounts && db.journal == w.journal && db.rows == w.rows && w.txns == map[]
  }

  lemma Stay(s: State)
    ensures Reaches(s, s)
  {
    assert Path([s]);
    assert [s][|[s]| - 1] == s;
  }

  lemma Take(s: State, s1: State, l: Label, s': State)
    requires Reaches(s, s1) && Step(s1, l, s')
    ensures Reaches(s, s')
  {
    hide Step;
    var ss :| Path(ss) && ss[0] == s && ss[|ss| - 1] == s1;
    var more := ss + [s'];
    forall i | 0 <= i < |more| - 1 ensures SomeStep(more[i], more[i + 1]) {
      if i < |ss| - 1 {
        assert SomeStep(ss[i], ss[i + 1]);
      } else {
        assert more[i] == s1 && Step(s1, l, more[i + 1]);
      }
    }
    assert Path(more) && more[0] == s && more[|more| - 1] == s';
  }

  lemma Then(s: State, s1: State, s': State)
    requires Reaches(s, s1) && Reaches(s1, s')
    ensures Reaches(s, s')
  {
    hide SomeStep;
    var a :| Path(a) && a[0] == s && a[|a| - 1] == s1;
    var b :| Path(b) && b[0] == s1 && b[|b| - 1] == s';
    var c := a + b[1..];
    forall i | 0 <= i < |c| - 1 ensures SomeStep(c[i], c[i + 1]) {
      if i < |a| - 1 {
        assert SomeStep(a[i], a[i + 1]);
      } else {
        var k := i - (|a| - 1);
        assert c[i] == b[k] && c[i + 1] == b[k + 1];
        assert SomeStep(b[k], b[k + 1]);
      }
    }
    assert Path(c) && c[0] == s && c[|c| - 1] == s';
  }

  /** Whatever is reached from a state of a run is a state of a run. */
  lemma ReachedStatesAreInRuns(opening: map<AccountId, Account>, ss: seq<State>, s': State)
    requires Run(opening, ss) && Reaches(ss[|ss| - 1], s')
    ensures exists more :: Run(opening, more) && more[|more| - 1] == s'
  {
    hide SomeStep;
    var b :| Path(b) && b[0] == ss[|ss| - 1] && b[|b| - 1] == s';
    var c := ss + b[1..];
    forall i | 0 <= i < |c| - 1 ensures SomeStep(c[i], c[i + 1]) {
      if i < |ss| - 1 {
        assert SomeStep(ss[i], ss[i + 1]);
      } else {
        var k := i - (|ss| - 1);
        assert c[i] == b[k] && c[i + 1] == b[k + 1];
        assert SomeStep(b[k], b[k + 1]);
      }
    }
    assert Run(opening, c) && c[|c| - 1] == s';
  }

  /** ... and so has everything that every state of every run has; for example,
      its accounts and journal are those of its committed units, one at a time. */
  lemma ReachedStatesAreSerial(opening: map<AccountId, Account>, ss: seq<State>, s': State)
    requires Run(opening, ss) && Reaches(ss[|ss| - 1], s')
    ensures Replay(opening, Events(s'.log)) == Some(s'.accounts) && s'.journal == JournalOf(Events(s'.log))
  {
    ReachedStatesAreInRuns(opening, ss, s');
    hide Run, Reaches;
    var more :| Run(opening, more) && more[|more| - 1] == s';
    Guarantees.Serializable(opening, more, |more| - 1);
  }

  // ------------------------------------------------------ one open transaction

  ghost predicate Alone(s: State, p: Pid) {
    p in s.procs && s.txns.Keys == {p}
  }

  function Locked(s: State, p: Pid): map<AccountId, Account>
    requires p in s.procs && p in s.txns
  {
    s.txns[p].accts + map a | a in Missing(s, p) && a in s.accounts :: s.accounts[a]
  }

  function WithAccts(s: State, p: Pid, accts: map<AccountId, Account>): State
    requires p in s.txns
  {
    s.(txns := s.txns[p := s.txns[p].(accts := accts)])
  }

  /** A caller alone in the database gets all the locks it wants. */
  lemma {:induction false} LockAll(s: State, p: Pid)
    requires Alone(s, p)
    ensures Reaches(s, WithAccts(s, p, Locked(s, p)))
    decreases Missing(s, p)
  {
    hide SomeStep, Path, Reaches, Step, Locked, WithAccts, DoLock;
    if Missing(s, p) == {} {
      NothingToLock(s, p);
      Stay(s);
    } else {
      var a := Min(Missing(s, p));
      LockOne(s, p, a);
      var s1 := DoLock(s, p, a);
      LockAll(s1, p);
      OneLockLess(s, p, a);
      Then(s, s1, WithAccts(s, p, Locked(s, p)));
    }
  }

  lemma NothingToLock(s: State, p: Pid)
    requires Alone(s, p) && Missing(s, p) == {}
    ensures WithAccts(s, p, Locked(s, p)) == s
  {
    hide Missing;
    assert Locked(s, p) == s.txns[p].accts;
    assert s.txns[p := s.txns[p]] == s.txns;
  }

  lemma OneLockLess(s: State, p: Pid, a: AccountId)
    requires Alone(s, p) && CanLock(s, p, a)
    requires Missing(DoLock(s, p, a), p) == Missing(s, p) - {a}
    ensures var s1 := DoLock(s, p, a); WithAccts(s1, p, Locked(s1, p)) == WithAccts(s, p, Locked(s, p))
  {
    hide WantedBy;
    assert a in s.accounts;
    var s1 := DoLock(s, p, a);
    assert Locked(s1, p) == Locked(s, p);
    assert s1.txns[p := s1.txns[p].(accts := Locked(s, p))] == s.txns[p := s.txns[p].(accts := Locked(s, p))];
  }

  lemma LockOne(s: State, p: Pid, a: AccountId)
    requires Alone(s, p) && Missing(s, p) != {} && a == Min(Missing(s, p))
    ensures CanLock(s, p, a) && Reaches(s, DoLock(s, p, a))
    ensures Alone(DoLock(s, p, a), p)
    ensures Missing(DoLock(s, p, a), p) == Missing(s, p) - {a}
  {
    hide SomeStep, Path, Reaches;
    Stay(s);
    Take(s, s, Label.Lock(p, a), DoLock(s, p, a));
  }

  /** The state after p has locked what its entry touches and posted it. */
  function Posted(s: State, p: Pid, e: Entry): State
    requires p in s.procs && p in s.txns
  {
    s.(txns := s.txns[p := s.txns[p].(accts := Apply(Locked(s, p), e), posts := s.txns[p].posts + [e])],
       procs := s.procs[p := AfterPost(s.procs[p])])
  }

  /** The accounts as the open transaction of p sees them. */
  function View(s: State, p: Pid): map<AccountId, Account>
    requires p in s.txns
  {
    s.accounts + s.txns[p].accts
  }

  ghost predicate Due(s: State, p: Pid, e: Entry) {
    && Alone(s, p) && EntryDue(s.procs[p]) == Some(e) && WantedBy(s.procs[p]) == Touched(e.lines)
    && s.txns[p].accts.Keys <= s.accounts.Keys
  }

  /** After locking, p holds the rows of its entry, each as it saw it before. */
  lemma LockedRows(s: State, p: Pid, e: Entry)
    requires Due(s, p, e) && Touched(e.lines) <= s.accounts.Keys
    ensures Touched(e.lines) <= Locked(s, p).Keys <= s.accounts.Keys
    ensures forall a :: a in Locked(s, p) ==> a in View(s, p) && Locked(s, p)[a] == View(s, p)[a]
    ensures forall a :: a in s.txns[p].accts ==> a in Locked(s, p)
  {
    hide WantedBy, EntryDue;
    forall a | a in Touched(e.lines) ensures a in Locked(s, p) {
      if a !in s.txns[p].accts {
        assert a in Missing(s, p);
      }
    }
  }

  lemma LockedView(s: State, p: Pid, e: Entry)
    requires Due(s, p, e) && PostOk(View(s, p), e)
    ensures PostOk(Locked(s, p), e)
    ensures View(Posted(s, p, e), p) == Apply(View(s, p), e)
    ensures Touched(e.lines) <= Posted(s, p, e).txns[p].accts.Keys <= s.accounts.Keys
  {
    hide PostOk, WantedBy, EntryDue, Locked;
    Accepted(View(s, p), e);
    assert View(s, p).Keys == s.accounts.Keys;
    LockedRows(s, p, e);
    ViewIsEnough(View(s, p), Locked(s, p), e);
    OverlayApply(s.accounts, s.txns[p].accts, Locked(s, p), e);
  }

  lemma OverlayApply(accounts: map<AccountId, Account>, before: map<AccountId, Account>, m: map<AccountId, Account>, e: Entry)
    requires Touched(e.lines) <= m.Keys <= accounts.Keys && before.Keys <= m.Keys
    requires forall a :: a in m ==> m[a] == (accounts + before)[a]
    ensures accounts + Apply(m, e) == Apply(accounts + before, e)
  {
    forall a | a in accounts ensures (accounts + Apply(m, e))[a] == Apply(accounts + before, e)[a] {}
  }

  lemma NothingMissing(s: State, p: Pid)
    requires Alone(s, p)
    ensures Missing(WithAccts(s, p, Locked(s, p)), p) == {}
  {
    hide WantedBy;
  }

  lemma Accepted(m: map<AccountId, Account>, e: Entry)
    requires PostOk(m, e)
    ensures Touched(e.lines) <= m.Keys
  {}

  lemma ViewIsEnough(v: map<AccountId, Account>, m: map<AccountId, Account>, e: Entry)
    requires PostOk(v, e)
    requires forall a :: a in Touched(e.lines) && a in v ==> a in m && m[a] == v[a]
    ensures PostOk(m, e)
  {}

  lemma PostNow(s: State, p: Pid, e: Entry)
    requires Due(s, p, e) && PostOk(View(s, p), e)
    ensures Reaches(s, Posted(s, p, e))
  {
    hide SomeStep, Path, Reaches, PostOk, Apply, View, WantedBy, EntryDue;
    LockedView(s, p, e);
    NothingMissing(s, p);
    LockAll(s, p);
    hide Locked, Missing;
    var s1 := WithAccts(s, p, Locked(s, p));
    assert Posted(s, p, e) == DoPost(s1, p);
    Take(s, s1, PostEntry(p), Posted(s, p, e));
  }

  // ------------------------------------------------------ a transfer that settles

  ghost predicate ReadyToBegin(s: State, p: Pid) {
    && Is(s, p, AtBegin) && s.txns == map[]
    && s.procs[p].id in s.rows && s.rows[s.procs[p].id].status == TxStatus.Pending
  }

  /** The state after the server has committed the transfer of p. */
  function AfterSettling(s: State, p: Pid, accounts: map<AccountId, Account>, now: int): State
    requires ReadyToBegin(s, p)
  {
    var proc := s.procs[p];
    var row := SettledRow(s.rows[proc.id], now);
    s.(accounts := accounts, journal := s.journal + Legs(proc.id, proc.req), rows := s.rows[proc.id := row],
       committed := s.committed + {p}, log := s.log + [SettleUnit(proc.id, proc.req)],
       procs := s.procs[p := proc.(pc := AtSent(row))])
  }

  lemma BeginOne(s: State, p: Pid)
    requires ReadyToBegin(s, p)
    ensures Reaches(s, DoBeginTx(s, p, true))
  {
    hide SomeStep, Path, Reaches;
    Stay(s);
    Take(s, s, BeginTx(p, true), DoBeginTx(s, p, true));
  }

  /** p has begun and posted its first leg. */
  lemma FirstLeg(s: State, p: Pid) returns (s': State)
    requires ReadyToBegin(s, p) && PostOk(s.accounts, ClearingEntry(s.procs[p].id, s.procs[p].req))
    ensures Reaches(s, s') && Alone(s', p) && s'.txns[p].accts.Keys <= s.accounts.Keys
    ensures View(s', p) == Apply(s.accounts, ClearingEntry(s.procs[p].id, s.procs[p].req))
    ensures s'.txns[p] == Txn(s'.txns[p].accts, [ClearingEntry(s.procs[p].id, s.procs[p].req)], map[], false)
    ensures s' == s.(txns := s'.txns, procs := s.procs[p := s.procs[p].(pc := AtMarkProcessing)])
  {
    hide Reaches, PostOk, Apply, Locked, ClearingEntry, Missing, DoBeginTx, Due, View;
    var e := ClearingEntry(s.procs[p].id, s.procs[p].req);
    BeganDue(s, p);
    BeginOne(s, p);
    var s1 := DoBeginTx(s, p, true);
    PostNow(s1, p, e);
    LockedView(s1, p, e);
    s' := Posted(s1, p, e);
    Then(s, s1, s');
  }

  lemma BeganDue(s: State, p: Pid)
    requires ReadyToBegin(s, p)
    ensures var s1 := DoBeginTx(s, p, true);
      && s1 == s.(txns := map[p := EMPTY_TXN], procs := s.procs[p := s.procs[p].(pc := AtLeg1)])
      && Due(s1, p, ClearingEntry(s.procs[p].id, s.procs[p].req)) && View(s1, p) == s.accounts
  {
    hide ClearingEntry;
    AccountGuarantees.LegAccounts(s.procs[p].id, s.procs[p].req);
  }

  lemma MarkOne(s: State, p: Pid)
    requires Alone(s, p) && CanMarkProcessing(s, p)
    ensures Reaches(s, DoMarkProcessing(s, p))
  {
    hide SomeStep, Path, Reaches;
    Stay(s);
    Take(s, s, MarkProcessing(p), DoMarkProcessing(s, p));
  }

  /** ... has marked the row PROCESSING and posted its second leg. */
  lemma SecondLeg(s: State, p: Pid) returns (s': State)
    requires Alone(s, p) && CanMarkProcessing(s, p) && s.txns[p].accts.Keys <= s.accounts.Keys
    requires PostOk(View(s, p), SettlementEntry(s.procs[p].id, s.procs[p].req))
    ensures Reaches(s, s') && Alone(s', p)
    ensures View(s', p) == Apply(View(s, p), SettlementEntry(s.procs[p].id, s.procs[p].req))
    ensures s'.txns[p] == Txn(s'.txns[p].accts, s.txns[p].posts + [SettlementEntry(s.procs[p].id, s.procs[p].req)],
      s.txns[p].rows[s.procs[p].id := s.rows[s.procs[p].id].(status := TxStatus.Processing)], s.txns[p].sent)
    ensures s' == s.(txns := s'.txns, procs := s.procs[p := s.procs[p].(pc := AtMarkSettled)])
  {
    hide Reaches, PostOk, Apply, Locked, ClearingEntry, SettlementEntry, RowFree, Missing;
    var e := SettlementEntry(s.procs[p].id, s.procs[p].req);
    AccountGuarantees.LegAccounts(s.procs[p].id, s.procs[p].req);
    MarkOne(s, p);
    var s1 := DoMarkProcessing(s, p);
    assert View(s1, p) == View(s, p);
    PostNow(s1, p, e);
    LockedView(s1, p, e);
    s' := Posted(s1, p, e);
    Then(s, s1, s');
  }

  lemma SendOne(s: State, p: Pid, now: int)
    requires Alone(s, p) && CanMarkSettled(s, p)
    ensures var s1 := DoMarkSettled(s, p, now);
      CanSendCommit(s1, p) && Reaches(s, DoSendCommit(s1, p))
  {
    hide SomeStep, Path, Reaches;
    var s1 := DoMarkSettled(s, p, now);
    Stay(s);
    Take(s, s, MarkSettled(p, now), s1);
    Take(s, s1, SendCommit(p), DoSendCommit(s1, p));
  }

  lemma CommitOne(s: State, p: Pid)
    requires CanServerCommit(s, p)
    ensures Reaches(s, DoServerCommit(s, p))
  {
    hide SomeStep, Path, Reaches;
    Stay(s);
    Take(s, s, ServerCommit(p), DoServerCommit(s, p));
  }

  /** p has done everything but its last status update. */
  ghost predicate AlmostDone(s: State, s': State, p: Pid)
    requires ReadyToBegin(s, p)
  {
    var id, q := s.procs[p].id, s.procs[p].req;
    && Alone(s', p)
    && s'.txns[p] == Txn(s'.txns[p].accts, Legs(id, q), map[id := s.rows[id].(status := TxStatus.Processing)], false)
    && s' == s.(txns := s'.txns, procs := s.procs[p := s.procs[p].(pc := AtMarkSettled)])
  }

  lemma BothLegs(s: State, p: Pid) returns (s': State)
    requires ReadyToBegin(s, p) && PostAll(s.accounts, Legs(s.procs[p].id, s.procs[p].req)).Some?
    ensures Reaches(s, s') && AlmostDone(s, s', p)
    ensures View(s', p) == PostAll(s.accounts, Legs(s.procs[p].id, s.procs[p].req)).value
  {
    hide SomeStep, Path, Reaches, Step, PostOk, Apply, PostAll, View, SettlementEntry, ClearingEntry;
    var id, q := s.procs[p].id, s.procs[p].req;
    TwoEntries(s.accounts, ClearingEntry(id, q), SettlementEntry(id, q));
    var s1 := FirstLeg(s, p);
    s' := SecondLeg(s1, p);
    Then(s, s1, s');
  }

  lemma Committing(s: State, s2: State, p: Pid, now: int)
    requires ReadyToBegin(s, p) && AlmostDone(s, s2, p)
    ensures Reaches(s2, AfterSettling(s, p, View(s2, p), now))
  {
    hide Reaches, CanMarkSettled, DoMarkSettled, DoSendCommit, DoServerCommit, CanSendCommit, CanServerCommit, AfterSettling;
    CommitEffect(s, s2, p, now);
    SendOne(s2, p, now);
    var s3 := DoSendCommit(DoMarkSettled(s2, p, now), p);
    CommitOne(s3, p);
    Then(s2, s3, DoServerCommit(s3, p));
  }

  lemma CommitEffect(s: State, s2: State, p: Pid, now: int)
    requires ReadyToBegin(s, p) && AlmostDone(s, s2, p)
    ensures CanMarkSettled(s2, p) && CanSendCommit(DoMarkSettled(s2, p, now), p)
    ensures var s3 := DoSendCommit(DoMarkSettled(s2, p, now), p);
      CanServerCommit(s3, p) && DoServerCommit(s3, p) == AfterSettling(s, p, View(s2, p), now)
  {
    Sent(s, s2, p, now);
    hide Legs, AlmostDone, DoMarkSettled, DoSendCommit, CanMarkSettled, CanSendCommit;
    var id, row := s.procs[p].id, SettledRow(s.rows[s.procs[p].id], now);
    var s3 := DoSendCommit(DoMarkSettled(s2, p, now), p);
    assert s3.txns - {p} == map[];
    assert s.rows + map[id := row] == s.rows[id := row];
  }

  /** p has sent its commit. */
  lemma Sent(s: State, s2: State, p: Pid, now: int)
    requires ReadyToBegin(s, p) && AlmostDone(s, s2, p)
    ensures CanMarkSettled(s2, p) && CanSendCommit(DoMarkSettled(s2, p, now), p)
    ensures var row := SettledRow(s.rows[s.procs[p].id], now);
      var t := Txn(s2.txns[p].accts, Legs(s.procs[p].id, s.procs[p].req), map[s.procs[p].id := row], true);
      DoSendCommit(DoMarkSettled(s2, p, now), p)
        == s.(txns := map[p := t], procs := s.procs[p := s.procs[p].(pc := AtSent(row))])
  {
    hide Legs;
    var id, t := s.procs[p].id, s2.txns[p];
    var s1 := DoMarkSettled(s2, p, now);
    assert s1.txns[p] == t.(rows := map[id := SettledRow(s.rows[id], now)]);
  }

  /** The whole database transaction of a transfer whose two entries are both
      acceptable: it can run to its commit, and then has exactly that effect. */
  lemma Settles(s: State, p: Pid, now: int)
    requires ReadyToBegin(s, p) && PostAll(s.accounts, Legs(s.procs[p].id, s.procs[p].req)).Some?
    ensures Reaches(s, AfterSettling(s, p, PostAll(s.accounts, Legs(s.procs[p].id, s.procs[p].req)).value, now))
  {
    hide Reaches, PostAll, Legs;
    var s2 := BothLegs(s, p);
    Committing(s, s2, p, now);
    Then(s, s2, AfterSettling(s, p, View(s2, p), now));
  }

  // ------------------------------------------------------- a transfer that fails

  /** A database transaction given up at any statement leaves nothing behind. */
  lemma RollsBack(s: State, p: Pid)
    requires ReadyToBegin(s, p)
    ensures Reaches(s, Goto(s, p, AtFailRow(true)))
  {
    hide SomeStep, Path, Reaches, Step;
    BeginOne(s, p);
    var s1 := DoBeginTx(s, p, true);
    var s2 := Goto(s1, p, AtFailRow(true));
    GiveUpOne(s1, p);
    Then(s, s1, s2);
    var s3 := s2.(txns := s2.txns - {p});
    AbortOne(s2, p);
    Then(s, s2, s3);
    assert s2.txns - {p} == map[];
    assert s3 == Goto(s, p, AtFailRow(true));
  }

  lemma GiveUpOne(s: State, p: Pid)
    requires CanGiveUp(s, p)
    ensures Reaches(s, Goto(s, p, AtFailRow(true)))
  {
    hide SomeStep, Path, Reaches;
    Stay(s);
    Take(s, s, GiveUp(p), Goto(s, p, AtFailRow(true)));
  }

  lemma AbortOne(s: State, p: Pid)
    requires p in s.txns
    ensures Reaches(s, s.(txns := s.txns - {p}))
  {
    hide SomeStep, Path, Reaches;
    Stay(s);
    Take(s, s, ServerAbort(p), s.(txns := s.txns - {p}));
  }

  // --------------------------------------------------------------- single steps

  lemma ArriveOne(s: State, p: Pid, proc: Proc)
    requires p !in s.procs && Incoming(proc)
    ensures Reaches(s, DoArrive(s, p, proc))
  {
    hide SomeStep, Path, Reaches;
    Stay(s);
    Take(s, s, Arrive(p, proc), DoArrive(s, p, proc));
  }

  lemma GetOne(s: State, p: Pid, ok: bool)
    requires Is(s, p, AtLookup)
    ensures Reaches(s, DoGet(s, p, ok))
  {
    hide SomeStep, Path, Reaches;
    Stay(s);
    Take(s, s, Get(p, ok), DoGet(s, p, ok));
  }

  lemma ClaimOne(s: State, p: Pid, f: Fault)
    requires Is(s, p, AtAcquire)
    ensures Reaches(s, DoSetNX(s, p, f))
  {
    hide SomeStep, Path, Reaches;
    Stay(s);
    Take(s, s, SetNX(p, f), DoSetNX(s, p, f));
  }

  /** The three snapshot reads, with nothing in between. */
  function Snapshots(s: State, p: Pid, src: bool, dst: bool, clr: bool): State
    requires Is(s, p, AtReadSource)
  {
    var s1 := DoReadSource(s, p, src);
    if !CanReadDestination(s1, p) then s1
    else
      var s2 := DoReadDestination(s1, p, dst);
      if !CanReadClearing(s2, p) then s2 else DoReadClearing(s2, p, clr)
  }

  lemma GotoTwice(s: State, p: Pid, pc: Pc)
    requires Calls(s, p)
    ensures var s1 := Goto(s, p, pc);
      && s1 == s.(procs := s1.procs) && Calls(s1, p) && s1.procs[p] == s.procs[p].(pc := pc)
      && forall pc2 :: Goto(s1, p, pc2) == Goto(s, p, pc2)
  {
    forall pc2 ensures Goto(Goto(s, p, pc), p, pc2) == Goto(s, p, pc2) {
      assert Goto(Goto(s, p, pc), p, pc2).procs == Goto(s, p, pc2).procs;
    }
  }

  lemma SnapshotsOne(s: State, p: Pid, src: bool, dst: bool, clr: bool)
    requires Is(s, p, AtReadSource)
    ensures Reaches(s, Snapshots(s, p, src, dst, clr))
  {
    hide SomeStep, Path, Reaches, DoReadSource, DoReadDestination, DoReadClearing;
    Stay(s);
    var s1 := DoReadSource(s, p, src);
    Take(s, s, ReadSource(p, src), s1);
    if CanReadDestination(s1, p) {
      var s2 := DoReadDestination(s1, p, dst);
      Take(s, s1, ReadDestination(p, dst), s2);
      if CanReadClearing(s2, p) {
        Take(s, s2, ReadClearing(p, clr), DoReadClearing(s2, p, clr));
      }
    }
  }

  lemma InsertOne(s: State, p: Pid, id: TxId, f: Fault)
    requires Is(s, p, AtCreate) && id !in s.rows
    ensures Reaches(s, DoInsert(s, p, id, f))
  {
    hide SomeStep, Path, Reaches;
    Stay(s);
    Take(s, s, Insert(p, id, f), DoInsert(s, p, id, f));
  }

  lemma FindOne(s: State, p: Pid, id: TxId, ok: bool)
    requires CanFindExisting(s, p, id, ok)
    ensures Reaches(s, DoFindExisting(s, p, id, ok))
  {
    hide SomeStep, Path, Reaches;
    Stay(s);
    Take(s, s, FindExisting(p, id, ok), DoFindExisting(s, p, id, ok));
  }

  lemma NoBegin(s: State, p: Pid)
    requires Is(s, p, AtBegin)
    ensures Reaches(s, DoBeginTx(s, p, false))
  {
    hide SomeStep, Path, Reaches;
    Stay(s);
    Take(s, s, BeginTx(p, false), DoBeginTx(s, p, false));
  }

  lemma AckOne(s: State, p: Pid)
    requires CanAck(s, p)
    ensures Reaches(s, DoAck(s, p))
  {
    hide SomeStep, Path, Reaches;
    Stay(s);
    Take(s, s, Ack(p), DoAck(s, p));
  }

  lemma CommitErrorOne(s: State, p: Pid)
    requires CanCommitError(s, p)
    ensures Reaches(s, Goto(s, p, AtFailRow(true)))
  {
    hide SomeStep, Path, Reaches;
    Stay(s);
    Take(s, s, CommitError(p), Goto(s, p, AtFailRow(true)));
  }

  lemma FailOne(s: State, p: Pid, f: Fault)
    requires CanFailRow(s, p, f)
    ensures Reaches(s, DoFailRow(s, p, f))
  {
    hide SomeStep, Path, Reaches;
    Stay(s);
    Take(s, s, FailRow(p, f), DoFailRow(s, p, f));
  }

  lemma FetchOne(s: State, p: Pid, ok: bool)
    requires CanFetch(s, p)
    ensures Reaches(s, DoFetch(s, p, ok))
  {
    hide SomeStep, Path, Reaches;
    Stay(s);
    Take(s, s, Fetch(p, ok), DoFetch(s, p, ok));
  }

  lemma StoreOne(s: State, p: Pid, f: Fault)
    requires CanStore(s, p)
    ensures Reaches(s, DoStore(s, p, f))
  {
    hide SomeStep, Path, Reaches;
    Stay(s);
    Take(s, s, StoreAnswer(p, f), DoStore(s, p, f));
  }

  lemma UnlockOne(s: State, p: Pid, ok: bool)
    requires CanUnlock(s, p)
    ensures Reaches(s, DoUnlock(s, p, ok))
  {
    hide SomeStep, Path, Reaches;
    Stay(s);
    Take(s, s, Unlock(p, ok), DoUnlock(s, p, ok));
  }

  // --------------------------------------------------------------- compensation

  /** Whether the fail-step, or the fetch after it, tells the caller the row. */
  predicate Told(row: Row, f: Fault, fetch: bool) {
    f == Fine && (Failable(row) || fetch)
  }

  function RowsAfterFail(rows: map<TxId, Row>, id: TxId, f: Fault): map<TxId, Row>
    requires id in rows
  {
    if Failable(rows[id]) && f != Broken then rows[id := rows[id].(status := TxStatus.Failed)] else rows
  }

  function CacheAfter(cache: map<Key, Cached>, q: Request, answer: Answer, store: Fault): map<Key, Cached> {
    if q.cached && store != Broken then cache[q.key := Final(answer)] else cache
  }

  /** The fail-step and the fetch after it. */
  lemma FailSteps(s: State, p: Pid, f: Fault, fetch: bool) returns (s': State)
    requires CanFailRow(s, p, f)
    ensures Reaches(s, s')
    ensures var proc, id := s.procs[p], s.procs[p].id;
      var pc := if Told(s.rows[id], f, fetch)
                then AtStore(Snapshot(id, RowsAfterFail(s.rows, id, f)[id]), false) else OnFailError(proc.pc.begun);
      s' == s.(rows := RowsAfterFail(s.rows, id, f), procs := s.procs[p := proc.(pc := pc)])
  {
    hide SomeStep, Path, Reaches, Step;
    FailOne(s, p, f);
    s' := DoFailRow(s, p, f);
    if CanFetch(s', p) {
      FetchOne(s', p, fetch);
      Then(s, s', DoFetch(s', p, fetch));
      s' := DoFetch(s', p, fetch);
    }
  }

  /** ... and the caching of what it found. */
  lemma Compensates(s: State, p: Pid, f: Fault, fetch: bool, store: Fault) returns (s': State)
    requires CanFailRow(s, p, f)
    ensures Reaches(s, s')
    ensures var proc, id := s.procs[p], s.procs[p].id;
      var told, rows := Told(s.rows[id], f, fetch), RowsAfterFail(s.rows, id, f);
      var stop := proc.pc.begun && !told;
      s' == s.(rows := rows,
               cache := if stop then s.cache
                        else CacheAfter(s.cache, proc.req, if told then Snapshot(id, rows[id]) else NoTransaction, store),
               procs := s.procs[p := proc.(pc := AtExit(Failure), holds := stop && proc.holds)])
  {
    hide SomeStep, Path, Reaches, Step, DoFailRow, DoFetch, CanFailRow, RowsAfterFail;
    var s1 := FailSteps(s, p, f, fetch);
    s' := s1;
    if CanStore(s1, p) {
      StoreOne(s1, p, store);
      Then(s, s1, DoStore(s1, p, store));
      s' := DoStore(s1, p, store);
    }
  }

  /** A settled transfer whose commit is reported: its answer is cached and
      returned; if the caching reports an error, so does the call, which then
      still holds its claim. */
  lemma Reports(s: State, p: Pid, accounts: map<AccountId, Account>, now: int, store: Fault) returns (s': State)
    requires ReadyToBegin(s, p) && Reaches(s, AfterSettling(s, p, accounts, now))
    ensures Reaches(s, s')
    ensures var proc, s1 := s.procs[p], AfterSettling(s, p, accounts, now);
      var answer, ok := Snapshot(proc.id, SettledRow(s.rows[proc.id], now)), !proc.req.cached || store == Fine;
      s' == s1.(cache := CacheAfter(s.cache, proc.req, answer, store),
                procs := s.procs[p := proc.(pc := AtExit(if ok then Returned(answer) else Failure),
                                            holds := !ok && proc.holds)])
  {
    hide SomeStep, Path, Reaches, Step;
    var s1 := AfterSettling(s, p, accounts, now);
    AckOne(s1, p);
    var s2 := DoAck(s1, p);
    Then(s, s1, s2);
    StoreOne(s2, p, store);
    s' := DoStore(s2, p, store);
    Then(s, s2, s');
  }

  /** A settled transfer whose commit is reported as an error. */
  lemma Misreported(s: State, p: Pid, accounts: map<AccountId, Account>, now: int)
    requires ReadyToBegin(s, p) && Reaches(s, AfterSettling(s, p, accounts, now))
    ensures Reaches(s, Goto(AfterSettling(s, p, accounts, now), p, AtFailRow(true)))
  {
    hide SomeStep, Path, Reaches, Step;
    var s1 := AfterSettling(s, p, accounts, now);
    CommitErrorOne(s1, p);
    Then(s, s1, Goto(s1, p, AtFailRow(true)));
  }

  lemma NeverBegan(s: State, p: Pid) returns (s': State)
    requires ReadyToBegin(s, p)
    ensures Reaches(s, s')
    ensures s' == s.(doomed := s.doomed + {p}, procs := s.procs[p := s.procs[p].(pc := AtFailRow(false))])
  {
    hide Reaches;
    NoBegin(s, p);
    s' := DoBeginTx(s, p, false);
  }

  lemma Ready(s: State, p: Pid)
    requires ReadyToBegin(s, p)
    ensures s.procs[p].id in s.rows && s.rows[s.procs[p].id].status == TxStatus.Pending
  {}

  // --------------------------------------------------------------- single posts

  ghost predicate Quiet(s: State, p: Pid) {
    s.txns == map[] && p !in s.procs
  }

  /** A post by itself, as the ledger service performs it, is a run: its one
      effect is Apply and its entry in the journal. */
  lemma PostIsRun(s: State, p: Pid, e: Entry) returns (s': State)
    requires Quiet(s, p) && e.origin == None && PostOk(s.accounts, e)
    ensures Reaches(s, s')
    ensures s' == s.(accounts := Apply(s.accounts, e), journal := s.journal + [e], procs := s'.procs,
                     committed := s.committed + {p}, log := s.log + [PostUnit(e)])
  {
    hide Reaches, PostOk, Apply, Locked, Missing;
    ArriveOne(s, p, Poster(e, PostDue));
    var s1 := DoArrive(s, p, Poster(e, PostDue));
    assert View(s1, p) == s.accounts;
    PostNow(s1, p, e);
    LockedView(s1, p, e);
    var s2 := Posted(s1, p, e);
    Then(s, s1, s2);
    s' := PostEnds(s2, p, e);
    Then(s, s2, s');
  }

  lemma PostEnds(s: State, p: Pid, e: Entry) returns (s': State)
    requires Alone(s, p) && s.procs[p] == Poster(e, PostMade)
    requires s.txns[p].posts == [e] && s.txns[p].rows == map[]
    ensures Reaches(s, s')
    ensures s' == s.(accounts := View(s, p), journal := s.journal + [e], txns := map[], procs := s'.procs,
                     committed := s.committed + {p}, log := s.log + [PostUnit(e)])
  {
    hide Reaches;
    SendPost(s, p);
    var s1 := DoSendCommit(s, p);
    CommitOne(s1, p);
    s' := DoServerCommit(s1, p);
    Then(s, s1, s');
    assert s.rows + map[] == s.rows && s1.txns - {p} == map[];
  }

  lemma SendPost(s: State, p: Pid)
    requires CanSendCommit(s, p)
    ensures Reaches(s, DoSendCommit(s, p))
  {
    hide SomeStep, Path, Reaches;
    Stay(s);
    Take(s, s, SendCommit(p), DoSendCommit(s, p));
  }

  // --------------------------------------------------------------- netting runs

  function Reconciling(rows: map<TxId, Row>, ids: set<TxId>): map<TxId, Row> {
    map r | r in rows :: if r in ids then rows[r].(status := TxStatus.Reconciled) else rows[r]
  }

  ghost predicate Claiming(s: State, p: Pid) {
    && Alone(s, p) && s.procs[p].Netter? && s.procs[p].run.Updating?
    && s.procs[p].run.todo !! s.txns[p].rows.Keys
    && forall r :: r in s.procs[p].run.todo ==> r in s.rows && s.rows[r].status == TxStatus.Settled
  }

  /** The updated copies of the rows of ids. */
  function Flipped(rows: map<TxId, Row>, ids: set<TxId>): map<TxId, Row> {
    map r | r in ids && r in rows :: rows[r].(status := TxStatus.Reconciled)
  }

  /** p has updated all the rows it still had to. */
  function AllClaimed(s: State, p: Pid): State
    requires Claiming(s, p)
  {
    var run, t := s.procs[p].run, s.txns[p];
    s.(procs := s.procs[p := s.procs[p].(run := run.(todo := {}))],
       txns := s.txns[p := t.(rows := t.rows + Flipped(s.rows, run.todo))])
  }

  lemma ClaimRow(s: State, p: Pid, r: TxId)
    requires Claiming(s, p) && r in s.procs[p].run.todo
    ensures CanClaim(s, p, r) && Reaches(s, DoClaim(s, p, r))
  {
    hide SomeStep, Path, Reaches;
    Stay(s);
    Take(s, s, Label.Claim(p, r), DoClaim(s, p, r));
  }

  lemma StillClaiming(s: State, p: Pid, r: TxId)
    requires Claiming(s, p) && CanClaim(s, p, r)
    ensures Claiming(DoClaim(s, p, r), p)
    ensures DoClaim(s, p, r).procs[p].run.todo == s.procs[p].run.todo - {r}
  {
    assert DoClaim(s, p, r).txns.Keys == s.txns.Keys;
  }

  lemma FlipFirst(rows: map<TxId, Row>, have: map<TxId, Row>, ids: set<TxId>, r: TxId)
    requires r in ids && r in rows && ids !! have.Keys
    ensures have[r := rows[r].(status := TxStatus.Reconciled)] + Flipped(rows, ids - {r}) == have + Flipped(rows, ids)
    ensures have + Flipped(rows, {}) == have
  {}

  lemma ClaimFirst(s: State, p: Pid, r: TxId)
    requires Claiming(s, p) && CanClaim(s, p, r) && Claiming(DoClaim(s, p, r), p)
    ensures AllClaimed(DoClaim(s, p, r), p) == AllClaimed(s, p)
  {
    hide RowFree, Flipped;
    FlipFirst(s.rows, s.txns[p].rows, s.procs[p].run.todo, r);
    var s1 := DoClaim(s, p, r);
    assert s.rows[r].status == TxStatus.Settled;
    assert AllClaimed(s1, p).txns == AllClaimed(s, p).txns;
    assert AllClaimed(s1, p).procs == AllClaimed(s, p).procs;
  }

  lemma NothingToClaim(s: State, p: Pid)
    requires Claiming(s, p) && s.procs[p].run.todo == {}
    ensures AllClaimed(s, p) == s
  {
    var run, t := s.procs[p].run, s.txns[p];
    assert t.rows + Flipped(s.rows, {}) == t.rows;
    assert s.procs[p].(run := run.(todo := {})) == s.procs[p];
    assert AllClaimed(s, p).txns == s.txns && AllClaimed(s, p).procs == s.procs;
  }

  lemma {:induction false} ClaimAll(s: State, p: Pid)
    requires Claiming(s, p)
    ensures Reaches(s, AllClaimed(s, p))
    decreases s.procs[p].run.todo
  {
    hide Reaches, DoClaim, CanClaim, AllClaimed;
    if s.procs[p].run.todo == {} {
      NothingToClaim(s, p);
      Stay(s);
    } else {
      var r :| r in s.procs[p].run.todo;
      ClaimRow(s, p, r);
      StillClaiming(s, p, r);
      ClaimFirst(s, p, r);
      ClaimAll(DoClaim(s, p, r), p);
      Then(s, DoClaim(s, p, r), AllClaimed(s, p));
    }
  }

  /** A netting run that no other run races is a run of the engine: it flips
      exactly the rows it lists. */
  lemma NettingIsRun(s: State, p: Pid, filter: Filter, listed: seq<Listed>, positions: seq<NetPosition>)
    returns (s': State)
    requires Quiet(s, p) && IsListing(s.rows, filter, listed) && IsNetting(FlowsOf(listed), positions)
    ensures Reaches(s, s')
    ensures s' == s.(rows := Reconciling(s.rows, IdsOf(listed)), procs := s'.procs,
                     committed := s.committed + {p}, log := s.log + [NettingUnit(listed, positions)])
  {
    hide SomeStep, Path, Reaches, Step, IsNetting, IsListing, Flipped, Reconciling, DistinctIds;
    Lists(s.rows, filter, listed);
    var s2 := ListOne(s, p, filter, listed, positions);
    ClaimAll(s2, p);
    var s3 := AllClaimed(s2, p);
    Then(s, s2, s3);
    FlipAll(s.rows, listed);
    s' := RunEnds(s3, p);
    Then(s, s3, s');
  }

  lemma RunEnds(s: State, p: Pid) returns (s': State)
    requires CanFinishRun(s, p) && s.txns.Keys == {p} && s.txns[p] == EMPTY_TXN.(rows := s.txns[p].rows)
    ensures Reaches(s, s')
    ensures s' == s.(rows := s.rows + s.txns[p].rows, txns := map[], procs := s'.procs, committed := s.committed + {p},
                     log := s.log + [NettingUnit(s.procs[p].run.listed, s.procs[p].run.positions)])
  {
    hide SomeStep, Path, Reaches, Step, CanFinishRun;
    FinishOne(s, p);
    var s1 := DoFinishRun(s, p);
    RunEffect(s, p);
    CommitOne(s1, p);
    s' := DoServerCommit(s1, p);
    Then(s, s1, s');
  }

  lemma RunEffect(s: State, p: Pid)
    requires CanFinishRun(s, p) && s.txns.Keys == {p} && s.txns[p] == EMPTY_TXN.(rows := s.txns[p].rows)
    ensures CanServerCommit(DoFinishRun(s, p), p)
    ensures var s1, s' := DoFinishRun(s, p), DoServerCommit(DoFinishRun(s, p), p);
      s' == s.(rows := s.rows + s.txns[p].rows, txns := map[], procs := s1.procs, committed := s.committed + {p},
               log := s.log + [NettingUnit(s.procs[p].run.listed, s.procs[p].run.positions)])
  {
    var s1 := DoFinishRun(s, p);
    assert s1.txns - {p} == map[];
    assert s.accounts + map[] == s.accounts && s.journal + [] == s.journal;
  }

  lemma Lists(rows: map<TxId, Row>, filter: Filter, listed: seq<Listed>)
    requires IsListing(rows, filter, listed)
    ensures DistinctIds(listed) && IdsOf(listed) <= rows.Keys
  {}

  lemma FlipAll(rows: map<TxId, Row>, listed: seq<Listed>)
    requires DistinctIds(listed) && IdsOf(listed) <= rows.Keys
    ensures |Flipped(rows, IdsOf(listed))| == |listed|
    ensures map[] + Flipped(rows, IdsOf(listed)) == Flipped(rows, IdsOf(listed))
    ensures rows + Flipped(rows, IdsOf(listed)) == Reconciling(rows, IdsOf(listed))
  {
    hide IdsOf, DistinctIds;
    var m := Flipped(rows, IdsOf(listed));
    Steps.DistinctCount(listed);
    assert m.Keys == IdsOf(listed);
    assert |m.Keys| == |m|;
  }

  lemma ListOne(s: State, p: Pid, filter: Filter, listed: seq<Listed>, positions: seq<NetPosition>)
    returns (s': State)
    requires Quiet(s, p) && IsListing(s.rows, filter, listed) && IsNetting(FlowsOf(listed), positions)
    ensures Reaches(s, s') && Claiming(s', p)
    ensures s' == s.(txns := map[p := EMPTY_TXN],
      procs := s.procs[p := Netter(filter, Updating(listed, positions, IdsOf(listed)))])
  {
    hide SomeStep, Path, Reaches, IsNetting;
    ArriveOne(s, p, Netter(filter, Listing));
    var s1 := DoArrive(s, p, Netter(filter, Listing));
    s' := DoListRows(s1, p, listed, positions);
    Take(s, s1, ListRows(p, listed, positions), s');
  }

  lemma FinishOne(s: State, p: Pid)
    requires CanFinishRun(s, p)
    ensures Reaches(s, DoFinishRun(s, p))
  {
    hide SomeStep, Path, Reaches;
    Stay(s);
    Take(s, s, FinishRun(p), DoFinishRun(s, p));
  }

  // ------------------------------------------------------------- account status

  lemma StatusIsRun(s: State, a: AccountId, st: AccountStatus)
    requires s.txns == map[] && a in s.accounts
    ensures Reaches(s, DoSetStatus(s, a, st))
  {
    hide SomeStep, Path, Reaches;
    Stay(s);
    Take(s, s, SetStatus(a, st), DoSetStatus(s, a, st));
  }
}
