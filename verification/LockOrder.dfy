/** The ascending lock order in runs of the engine: single posts keep it, and so
    never deadlock among themselves. */
module LockOrder {
  import opened Types
  import opened Ledger
  import opened Protocol
  import opened Invariant
  import Safety
  import AccountGuarantees
  import Locking

  predicate PostsNext(s: State, p: Pid) {
    Runs(s, p) && s.procs[p].Poster? && s.procs[p].stage == PostDue
  }

  /** Whatever a post holds is below whatever it still has to lock. */
  ghost predicate Ascending(s: State) {
    forall p, h, w :: PostsNext(s, p) && h in s.txns[p].accts && w in Missing(s, p) ==> h < w
  }

  /** A post that is still due has just arrived, or has the locks it had. */
  ghost predicate LocksKept(s: State, s': State) {
    forall p :: PostsNext(s', p) ==>
      s'.txns[p].accts == map[] || (PostsNext(s, p) && s'.procs[p] == s.procs[p] && s'.txns[p] == s.txns[p])
  }

  lemma LookupKept(s: State, l: Label, s': State)
    requires Step(s, l, s') && (l.Expire? || l.ServerAbort? || l.SetStatus? || l.Get? || l.Reget?)
    ensures LocksKept(s, s')
  {}

  lemma ReadKept(s: State, l: Label, s': State)
    requires Step(s, l, s') && (l.ReadSource? || l.ReadDestination? || l.ReadClearing? || l.FindExisting?)
    ensures LocksKept(s, s')
  {
    hide SnapshotsPass;
  }

  lemma ClaimKeyKept(s: State, p: Pid, f: Fault)
    requires Is(s, p, AtAcquire)
    ensures LocksKept(s, DoSetNX(s, p, f))
  {}

  lemma InsertKept(s: State, p: Pid, id: TxId, f: Fault)
    requires Is(s, p, AtCreate)
    ensures LocksKept(s, DoInsert(s, p, id, f))
  {
    hide KeyTaken;
  }

  lemma ArriveKept(s: State, p: Pid, proc: Proc)
    requires p !in s.procs
    ensures LocksKept(s, DoArrive(s, p, proc))
  {}

  lemma BeginKept(s: State, p: Pid, ok: bool)
    requires Is(s, p, AtBegin)
    ensures LocksKept(s, DoBeginTx(s, p, ok))
  {}

  lemma FailKept(s: State, p: Pid, f: Fault)
    requires CanFailRow(s, p, f)
    ensures LocksKept(s, DoFailRow(s, p, f))
  {
    hide RowFree;
  }

  lemma CallKept(s: State, l: Label, s': State)
    requires Step(s, l, s') && (l.SetNX? || l.Insert? || l.Arrive? || l.BeginTx? || l.FailRow?)
    ensures LocksKept(s, s')
  {
    hide LocksKept, DoSetNX, DoInsert, DoArrive, DoBeginTx, DoFailRow, CanFailRow, Incoming;
    match l
    case SetNX(p, f) => ClaimKeyKept(s, p, f);
    case Insert(p, id, f) => InsertKept(s, p, id, f);
    case Arrive(p, proc) => ArriveKept(s, p, proc);
    case BeginTx(p, ok) => BeginKept(s, p, ok);
    case FailRow(p, f) => FailKept(s, p, f);
    case _ =>
  }

  lemma PostKept(s: State, l: Label, s': State)
    requires Step(s, l, s') && (l.PostEntry? || l.MarkProcessing? || l.MarkSettled?)
    ensures LocksKept(s, s')
  {
    hide PostOk, Apply;
  }

  lemma CommitKept(s: State, l: Label, s': State)
    requires Step(s, l, s') && (l.SendCommit? || l.GiveUp? || l.ServerCommit?)
    ensures LocksKept(s, s')
  {}

  lemma ReplyKept(s: State, l: Label, s': State)
    requires Step(s, l, s') && (l.Ack? || l.CommitError? || l.Fetch?)
    ensures LocksKept(s, s')
  {}

  lemma ExitKept(s: State, l: Label, s': State)
    requires Step(s, l, s') && (l.StoreAnswer? || l.Unlock? || l.Crash?)
    ensures LocksKept(s, s')
  {}

  lemma RunKept(s: State, l: Label, s': State)
    requires Step(s, l, s') && (l.ListRows? || l.Claim? || l.FinishRun?)
    ensures LocksKept(s, s')
  {
    hide IsListing;
  }

  lemma AllButLock(s: State, l: Label, s': State)
    requires Step(s, l, s') && !l.Lock?
    ensures LocksKept(s, s')
  {
    hide Step, LocksKept;
    if l.Expire? || l.ServerAbort? || l.SetStatus? || l.Get? || l.Reget? {
      LookupKept(s, l, s');
    } else if l.ReadSource? || l.ReadDestination? || l.ReadClearing? || l.FindExisting? {
      ReadKept(s, l, s');
    } else if l.SetNX? || l.Insert? || l.Arrive? || l.BeginTx? || l.FailRow? {
      CallKept(s, l, s');
    } else if l.PostEntry? || l.MarkProcessing? || l.MarkSettled? {
      PostKept(s, l, s');
    } else if l.SendCommit? || l.GiveUp? || l.ServerCommit? {
      CommitKept(s, l, s');
    } else if l.Ack? || l.CommitError? || l.Fetch? {
      ReplyKept(s, l, s');
    } else if l.StoreAnswer? || l.Unlock? || l.Crash? {
      ExitKept(s, l, s');
    } else {
      RunKept(s, l, s');
    }
  }

  lemma LockAscends(s: State, p: Pid, a: AccountId)
    requires Ascending(s) && CanLock(s, p, a)
    ensures Ascending(DoLock(s, p, a))
  {
    hide WantedBy;
    var s' := DoLock(s, p, a);
    forall q, h, w | PostsNext(s', q) && h in s'.txns[q].accts && w in Missing(s', q) ensures h < w {
      assert PostsNext(s, q) && w in Missing(s, q);
      if q == p {
        assert a <= w && a != w;
      }
    }
  }

  lemma KeptAscends(s: State, s': State)
    requires Ascending(s) && LocksKept(s, s') && s'.accounts.Keys == s.accounts.Keys
    ensures Ascending(s')
  {
    hide WantedBy;
    forall p, h, w | PostsNext(s', p) && h in s'.txns[p].accts && w in Missing(s', p) ensures h < w {
      assert PostsNext(s, p) && w in Missing(s, p);
    }
  }

  lemma {:induction false} RunsAscend(opening: map<AccountId, Account>, ss: seq<State>, i: nat)
    requires Run(opening, ss) && i < |ss|
    ensures Ascending(ss[i])
  {
    hide Ascending, Step, SomeStep, InitialState;
    if i == 0 {
      NothingOpen(opening);
    } else {
      RunsAscend(opening, ss, i - 1);
      AccountGuarantees.BalancesAgree(opening, ss, i - 1);
      AccountGuarantees.BalancesAgree(opening, ss, i);
      assert SomeStep(ss[i - 1], ss[i]);
      SomeStepAscends(ss[i - 1], ss[i]);
    }
  }

  lemma NothingOpen(opening: map<AccountId, Account>)
    ensures Ascending(InitialState(opening))
  {}

  lemma SomeStepAscends(s: State, s': State)
    requires Ascending(s) && SomeStep(s, s') && s'.accounts.Keys == s.accounts.Keys
    ensures Ascending(s')
  {
    hide Ascending, Step;
    var l :| Step(s, l, s');
    StepAscends(s, l, s');
  }

  lemma StepAscends(s: State, l: Label, s': State)
    requires Ascending(s) && Step(s, l, s') && s'.accounts.Keys == s.accounts.Keys
    ensures Ascending(s')
  {
    hide Ascending, CanLock, DoLock;
    if l.Lock? {
      LockAscends(s, l.p, l.a);
    } else {
      AllButLock(s, l, s');
      KeptAscends(s, s');
    }
  }

  /** In a run, while the only open transactions are single posts, none of them
      waits in a cycle, and some open transaction is not waiting. */
  lemma PostsNeverDeadlockInRuns(opening: map<AccountId, Account>, ss: seq<State>, i: nat)
    requires Run(opening, ss) && i < |ss|
    requires forall p :: Runs(ss[i], p) ==> ss[i].procs[p].Poster?
    ensures ss[i].txns.Keys <= ss[i].procs.Keys
    ensures forall ds :: !Locking.Deadlock(AccountGuarantees.Locks(ss[i]), ds)
    ensures ss[i].txns != map[] ==> Locking.SomeoneFree(AccountGuarantees.Locks(ss[i]))
  {
    OpenTxnsHaveProcs(opening, ss, i);
    RunsAscend(opening, ss, i);
    hide Run;
    var sys := AccountGuarantees.Locks(ss[i]);
    PostersLockOnce(ss[i]);
    forall ds ensures !Locking.Deadlock(sys, ds) {
      Locking.NoCycle(sys, ds);
    }
    if ss[i].txns != map[] {
      var p0 :| p0 in ss[i].txns;
      assert p0 in sys;
      var p := Locking.SomeCanStep(sys);
    }
  }

  lemma OpenTxnsHaveProcs(opening: map<AccountId, Account>, ss: seq<State>, i: nat)
    requires Run(opening, ss) && i < |ss|
    ensures ss[i].txns.Keys <= ss[i].procs.Keys
  {
    hide DbInv, RowInv, CacheInv, ProcOk, SerialInv, LogInv;
    Safety.RunsAreSafe(opening, ss, i);
  }

  lemma PostersLockOnce(s: State)
    requires s.txns.Keys <= s.procs.Keys && Ascending(s)
    requires forall p :: Runs(s, p) ==> s.procs[p].Poster?
    ensures Locking.SinglePosts(AccountGuarantees.Locks(s))
  {
    var sys := AccountGuarantees.Locks(s);
    forall p, h, w | p in sys && h in sys[p].held && w in Locking.Wanted(sys[p]) ensures h < w {
      assert Runs(s, p);
      assert w in Missing(s, p);
      assert PostsNext(s, p);
    }
  }
}
