/** What holds in every reachable state of the engine. */
module Safety {
  import opened Types
  import opened Ledger
  import opened Netting
  import opened Protocol
  import opened Invariant
  import Steps
  import Commits
  import Lifecycle

  lemma CallStepsKeep(opening: map<AccountId, Account>, s: State, l: Label, s': State)
    requires Inv(opening, s) && Step(s, l, s')
    requires l.Arrive? || l.Expire? || l.SetStatus? || l.Get? || l.SetNX? || l.Reget? || l.ReadSource? ||
      l.ReadDestination? || l.ReadClearing? || l.Insert?
    ensures Inv(opening, s')
  {
    hide Inv, DoArrive, DoSetStatus, DoGet, DoSetNX, DoReget, DoReadSource, CanReadDestination,
         DoReadDestination, CanReadClearing, DoReadClearing, DoInsert, CanFindExisting, DoFindExisting,
         DoBeginTx, CanLock, DoLock, CanPost, DoPost, CanMarkProcessing, DoMarkProcessing, CanMarkSettled,
         DoMarkSettled, CanSendCommit, DoSendCommit, CanGiveUp, CanServerCommit, DoServerCommit, CanAck, DoAck,
         CanCommitError, CanFailRow, DoFailRow, CanFetch, DoFetch, CanStore, DoStore, CanUnlock, DoUnlock,
         CanCrash, CanListRows, DoListRows, CanClaim, DoClaim, CanFinishRun, DoFinishRun, Goto, Is, Calls, Nets,
         Runs, Incoming, AccountFree, IsListing;
    match l
    case Arrive(p, proc) => Steps.ArriveKeeps(opening, s, p, proc);
    case Expire(k) => Steps.ExpireKeeps(opening, s, k);
    case SetStatus(a, st) => Commits.SetStatusKeeps(opening, s, a, st);
    case Get(p, ok) => Steps.GetKeeps(opening, s, p, ok);
    case SetNX(p, f) => Steps.SetNXKeeps(opening, s, p, f);
    case Reget(p, ok) => Steps.RegetKeeps(opening, s, p, ok);
    case ReadSource(p, ok) => Steps.ReadSourceKeeps(opening, s, p, ok);
    case ReadDestination(p, ok) => Steps.ReadDestinationKeeps(opening, s, p, ok);
    case ReadClearing(p, ok) => Steps.ReadClearingKeeps(opening, s, p, ok);
    case Insert(p, id, f) => Commits.InsertKeeps(opening, s, p, id, f);
    case _ =>
  }

  lemma WriteStepsKeep(opening: map<AccountId, Account>, s: State, l: Label, s': State)
    requires Inv(opening, s) && Step(s, l, s')
    requires l.FindExisting? || l.BeginTx? || l.Lock? || l.PostEntry? || l.MarkProcessing? || l.MarkSettled? ||
      l.SendCommit? || l.GiveUp? || l.ServerCommit? || l.ServerAbort?
    ensures Inv(opening, s')
  {
    hide Inv, DoArrive, DoSetStatus, DoGet, DoSetNX, DoReget, DoReadSource, CanReadDestination,
         DoReadDestination, CanReadClearing, DoReadClearing, DoInsert, CanFindExisting, DoFindExisting,
         DoBeginTx, CanLock, DoLock, CanPost, DoPost, CanMarkProcessing, DoMarkProcessing, CanMarkSettled,
         DoMarkSettled, CanSendCommit, DoSendCommit, CanGiveUp, CanServerCommit, DoServerCommit, CanAck, DoAck,
         CanCommitError, CanFailRow, DoFailRow, CanFetch, DoFetch, CanStore, DoStore, CanUnlock, DoUnlock,
         CanCrash, CanListRows, DoListRows, CanClaim, DoClaim, CanFinishRun, DoFinishRun, Goto, Is, Calls, Nets,
         Runs, Incoming, AccountFree, IsListing;
    match l
    case FindExisting(p, id, ok) => Steps.FindExistingKeeps(opening, s, p, id, ok);
    case BeginTx(p, ok) => Steps.BeginKeeps(opening, s, p, ok);
    case Lock(p, a) => Steps.LockKeeps(opening, s, p, a);
    case PostEntry(p) => Steps.PostKeeps(opening, s, p);
    case MarkProcessing(p) => Steps.MarkProcessingKeeps(opening, s, p);
    case MarkSettled(p, now) => Steps.MarkSettledKeeps(opening, s, p, now);
    case SendCommit(p) => Steps.SendCommitKeeps(opening, s, p);
    case GiveUp(p) => Steps.GiveUpKeeps(opening, s, p);
    case ServerCommit(p) => Commits.CommitKeeps(opening, s, s', p);
    case ServerAbort(p) => Steps.AbortKeeps(opening, s, p);
    case _ =>
  }

  lemma EndStepsKeep(opening: map<AccountId, Account>, s: State, l: Label, s': State)
    requires Inv(opening, s) && Step(s, l, s')
    requires l.Ack? || l.CommitError? || l.FailRow? || l.Fetch? || l.StoreAnswer? || l.Unlock? || l.Crash? ||
      l.ListRows? || l.Claim? || l.FinishRun?
    ensures Inv(opening, s')
  {
    hide Inv, DoArrive, DoSetStatus, DoGet, DoSetNX, DoReget, DoReadSource, CanReadDestination,
         DoReadDestination, CanReadClearing, DoReadClearing, DoInsert, CanFindExisting, DoFindExisting,
         DoBeginTx, CanLock, DoLock, CanPost, DoPost, CanMarkProcessing, DoMarkProcessing, CanMarkSettled,
         DoMarkSettled, CanSendCommit, DoSendCommit, CanGiveUp, CanServerCommit, DoServerCommit, CanAck, DoAck,
         CanCommitError, CanFailRow, DoFailRow, CanFetch, DoFetch, CanStore, DoStore, CanUnlock, DoUnlock,
         CanCrash, CanListRows, DoListRows, CanClaim, DoClaim, CanFinishRun, DoFinishRun, Goto, Is, Calls, Nets,
         Runs, Incoming, AccountFree, IsListing;
    match l
    case Ack(p) => Steps.AckKeeps(opening, s, p);
    case CommitError(p) => Steps.CommitErrorKeeps(opening, s, p);
    case FailRow(p, f) => Commits.FailRowKeeps(opening, s, p, f);
    case Fetch(p, ok) => Steps.FetchKeeps(opening, s, p, ok);
    case StoreAnswer(p, f) => Steps.StoreKeeps(opening, s, p, f);
    case Unlock(p, ok) => Steps.UnlockKeeps(opening, s, p, ok);
    case Crash(p) => Steps.CrashKeeps(opening, s, p);
    case ListRows(p, listed, positions) => Steps.ListRowsKeeps(opening, s, p, listed, positions);
    case Claim(p, r) => Steps.ClaimKeeps(opening, s, p, r);
    case FinishRun(p) => Steps.FinishRunKeeps(opening, s, p);
    case _ =>
  }

  lemma StepKeeps(opening: map<AccountId, Account>, s: State, l: Label, s': State)
    requires Inv(opening, s) && Step(s, l, s')
    ensures Inv(opening, s')
  {
    hide Inv, Step;
    if l.Arrive? || l.Expire? || l.SetStatus? || l.Get? || l.SetNX? || l.Reget? || l.ReadSource? ||
      l.ReadDestination? || l.ReadClearing? || l.Insert? {
      CallStepsKeep(opening, s, l, s');
    } else if l.FindExisting? || l.BeginTx? || l.Lock? || l.PostEntry? || l.MarkProcessing? || l.MarkSettled? ||
      l.SendCommit? || l.GiveUp? || l.ServerCommit? || l.ServerAbort? {
      WriteStepsKeep(opening, s, l, s');
    } else {
      EndStepsKeep(opening, s, l, s');
    }
  }

  /** The invariant holds in every state of every run. */
  lemma {:induction false} RunsAreSafe(opening: map<AccountId, Account>, ss: seq<State>, i: nat)
    requires Run(opening, ss) && i < |ss|
    ensures Inv(opening, ss[i])
  {
    if i == 0 {
      InitialInv(opening);
    } else {
      hide Inv;
      RunsAreSafe(opening, ss, i - 1);
      assert SomeStep(ss[i - 1], ss[i]);
      var l :| Step(ss[i - 1], l, ss[i]);
      StepKeeps(opening, ss[i - 1], l, ss[i]);
    }
  }

  // ----------------------------------------------------------------- every step

  ghost predicate KeepsRows(s: State, s': State) {
    s'.rows == s.rows && s'.creator == s.creator && s.doomed <= s'.doomed
  }

  ghost predicate KeepsLedger(s: State, s': State) {
    s'.accounts == s.accounts && s'.journal == s.journal && s'.log == s.log
  }

  /** Private row writes are carried over, dropped, or not yet begun. */
  ghost predicate KeepsPrivate(s: State, s': State) {
    forall p :: p in s'.txns ==>
      s'.txns[p].rows == map[] || (p in s.txns && s'.txns[p].rows == s.txns[p].rows)
  }

  ghost predicate KeepsAll(s: State, s': State) {
    KeepsRows(s, s') && KeepsLedger(s, s') && KeepsPrivate(s, s')
  }

  lemma ArrivalSteps(s: State, l: Label, s': State)
    requires Step(s, l, s') && (l.Expire? || l.ServerAbort?)
    ensures KeepsAll(s, s')
  {
    hide IsListing, IsNetting, SnapshotsPass, PostOk, Incoming, KeyTaken, IdsOf, Apply;
  }

  lemma LookupSteps(s: State, l: Label, s': State)
    requires Step(s, l, s') && (l.Get? || l.Reget?)
    ensures KeepsAll(s, s')
  {
    hide IsListing, IsNetting, SnapshotsPass, PostOk, Incoming, KeyTaken, IdsOf, Apply;
  }

  lemma ReadSteps(s: State, l: Label, s': State)
    requires Step(s, l, s') && (l.ReadSource? || l.ReadDestination? || l.ReadClearing? || l.FindExisting?)
    ensures KeepsAll(s, s')
  {
    hide IsListing, IsNetting, SnapshotsPass, PostOk, Incoming, KeyTaken, IdsOf, Apply;
  }

  lemma SendSteps(s: State, l: Label, s': State)
    requires Step(s, l, s') && (l.SendCommit? || l.GiveUp?)
    ensures KeepsAll(s, s')
  {
    hide IsListing, IsNetting, SnapshotsPass, PostOk, Incoming, KeyTaken, IdsOf, Apply;
  }

  lemma LockSteps(s: State, l: Label, s': State)
    requires Step(s, l, s') && (l.Lock? || l.PostEntry?)
    ensures KeepsAll(s, s')
  {
    hide IsListing, IsNetting, SnapshotsPass, PostOk, Incoming, KeyTaken, IdsOf, Apply;
  }

  lemma ReplySteps(s: State, l: Label, s': State)
    requires Step(s, l, s') && (l.Ack? || l.CommitError? || l.Fetch?)
    ensures KeepsAll(s, s')
  {
    hide IsListing, IsNetting, SnapshotsPass, PostOk, Incoming, KeyTaken, IdsOf, Apply;
  }

  lemma LastSteps(s: State, l: Label, s': State)
    requires Step(s, l, s') && (l.StoreAnswer? || l.Unlock? || l.Crash?)
    ensures KeepsAll(s, s')
  {
    hide IsListing, IsNetting, SnapshotsPass, PostOk, Incoming, KeyTaken, IdsOf, Apply;
  }

  lemma RunSteps(s: State, l: Label, s': State)
    requires Step(s, l, s') && (l.ListRows? || l.FinishRun?)
    ensures KeepsAll(s, s')
  {
    hide IsListing, IsNetting, SnapshotsPass, PostOk, Incoming, KeyTaken, IdsOf, Apply;
  }

  lemma MarkSteps(s: State, l: Label, s': State)
    requires Step(s, l, s') && (l.Claim? || l.MarkProcessing? || l.MarkSettled?)
    ensures KeepsRows(s, s') && KeepsLedger(s, s')
  {
    hide IsListing, IsNetting, SnapshotsPass, PostOk, Incoming, KeyTaken, IdsOf, Apply;
  }

  lemma InsertFrame(s: State, p: Pid, id: TxId, f: Fault)
    requires Is(s, p, AtCreate)
    ensures KeepsLedger(s, DoInsert(s, p, id, f)) && KeepsPrivate(s, DoInsert(s, p, id, f))
  {
    hide KeyTaken;
  }

  lemma ArriveFrame(s: State, p: Pid, proc: Proc)
    ensures KeepsAll(s, DoArrive(s, p, proc))
  {}

  lemma ClaimKeyFrame(s: State, p: Pid, f: Fault)
    requires Is(s, p, AtAcquire)
    ensures KeepsAll(s, DoSetNX(s, p, f))
  {}

  lemma BeginFrame(s: State, p: Pid, ok: bool)
    requires Is(s, p, AtBegin)
    ensures KeepsAll(s, DoBeginTx(s, p, ok))
  {}

  lemma FailFrame(s: State, p: Pid, f: Fault)
    requires CanFailRow(s, p, f)
    ensures KeepsLedger(s, DoFailRow(s, p, f)) && KeepsPrivate(s, DoFailRow(s, p, f))
  {
    hide RowFree;
  }

  /** Which parts of the database each kind of step leaves alone. */
  lemma Footprint(s: State, l: Label, s': State)
    requires Step(s, l, s')
    ensures !(l.Insert? || l.FailRow? || l.ServerCommit?) ==> KeepsRows(s, s')
    ensures !(l.SetStatus? || l.ServerCommit?) ==> KeepsLedger(s, s')
    ensures !(l.MarkProcessing? || l.MarkSettled? || l.Claim?) ==> KeepsPrivate(s, s')
  {
    hide KeepsRows, KeepsLedger, KeepsPrivate;
    if l.Insert? {
      InsertFrame(s, l.p, l.id, l.f);
    } else if l.Arrive? {
      ArriveFrame(s, l.p, l.proc);
    } else if l.SetNX? {
      ClaimKeyFrame(s, l.p, l.f);
    } else if l.BeginTx? {
      BeginFrame(s, l.p, l.ok);
    } else if l.FailRow? {
      FailFrame(s, l.p, l.f);
    } else {
      hide Step;
      OtherFootprint(s, l, s');
    }
  }

  lemma OtherFootprint(s: State, l: Label, s': State)
    requires Step(s, l, s') && !(l.Insert? || l.Arrive? || l.SetNX? || l.BeginTx? || l.FailRow?)
    ensures !l.ServerCommit? ==> KeepsRows(s, s')
    ensures !(l.SetStatus? || l.ServerCommit?) ==> KeepsLedger(s, s')
    ensures !(l.MarkProcessing? || l.MarkSettled? || l.Claim?) ==> KeepsPrivate(s, s')
  {
    hide Step, KeepsRows, KeepsLedger, KeepsPrivate;
    if l.Expire? || l.ServerAbort? {
      ArrivalSteps(s, l, s');
    } else if l.Get? || l.Reget? {
      LookupSteps(s, l, s');
    } else if l.ReadSource? || l.ReadDestination? || l.ReadClearing? || l.FindExisting? {
      ReadSteps(s, l, s');
    } else if l.SendCommit? || l.GiveUp? {
      SendSteps(s, l, s');
    } else if l.Lock? || l.PostEntry? {
      LockSteps(s, l, s');
    } else if l.Ack? || l.CommitError? || l.Fetch? {
      ReplySteps(s, l, s');
    } else if l.StoreAnswer? || l.Unlock? || l.Crash? {
      LastSteps(s, l, s');
    } else if l.ListRows? || l.FinishRun? {
      RunSteps(s, l, s');
    } else if l.Claim? || l.MarkProcessing? || l.MarkSettled? {
      MarkSteps(s, l, s');
    } else {
      OtherSteps(s, l, s');
    }
  }

  lemma OtherSteps(s: State, l: Label, s': State)
    requires Step(s, l, s') && (l.SetStatus? || l.ServerCommit?)
    ensures KeepsPrivate(s, s') && (l.SetStatus? ==> KeepsRows(s, s'))
  {
    hide IsListing, IsNetting, SnapshotsPass, PostOk, Incoming, KeyTaken, IdsOf, Apply, UnitOf;
  }

  lemma InsertStepGrows(opening: map<AccountId, Account>, s: State, p: Pid, id: TxId, f: Fault)
    requires Inv(opening, s) && Is(s, p, AtCreate) && id !in s.rows
    ensures Grows(s, DoInsert(s, p, id, f))
  {
    hide ProcInv, ProcOk, DbInv, RowOk, CacheInv, SerialInv, LogInv, Spares, Grows;
    if f != Broken && Commits.Inserts(s, p, id) {
      Commits.InsertGrows(s, DoInsert(s, p, id, f), p, id, f);
    } else {
      SameRowsGrow(s, DoInsert(s, p, id, f));
    }
  }

  lemma FailStepGrows(opening: map<AccountId, Account>, s: State, p: Pid, f: Fault)
    requires Inv(opening, s) && CanFailRow(s, p, f)
    ensures Grows(s, DoFailRow(s, p, f))
  {
    hide ProcInv, DbInv, RowOk, CacheInv, SerialInv, LogInv, Spares, Grows;
    if Commits.Fails(s, p, f) {
      Commits.FailRowFacts(s, p, f);
      Commits.FailedRows(s, p, f);
      Commits.FailedGrows(s, DoFailRow(s, p, f), p, f);
    } else {
      SameRowsGrow(s, DoFailRow(s, p, f));
    }
  }

  lemma CommitStepGrows(opening: map<AccountId, Account>, s: State, p: Pid)
    requires Inv(opening, s) && CanServerCommit(s, p)
    ensures Grows(s, DoServerCommit(s, p))
  {
    hide ProcInv, DbInv, RowOk, CacheInv, SerialInv, LogInv, Spares, Grows;
    Commits.OpenTxnOk(s, p);
    Commits.CommitGrows(s, DoServerCommit(s, p), p);
  }

  /** In every step, rows persist with the transfer they were created for, and
      a committed status changes along the table of allowed transitions. */
  lemma StepGrows(opening: map<AccountId, Account>, s: State, l: Label, s': State)
    requires Inv(opening, s) && Step(s, l, s')
    ensures Grows(s, s')
  {
    hide Inv, Grows;
    if l.Insert? {
      InsertStepGrows(opening, s, l.p, l.id, l.f);
    } else if l.FailRow? {
      FailStepGrows(opening, s, l.p, l.f);
    } else if l.ServerCommit? {
      CommitStepGrows(opening, s, l.p);
    } else {
      hide Step;
      Footprint(s, l, s');
      SameRowsGrow(s, s');
    }
  }

  lemma SameRowsGrow(s: State, s': State)
    requires s'.rows == s.rows && s'.creator == s.creator && s.doomed <= s'.doomed
    ensures Grows(s, s')
  {}

  /** The row as process p sees it inside its database transaction. */
  function Seen(s: State, p: Pid, r: TxId): Option<Row> {
    if p in s.txns && r in s.txns[p].rows then Some(s.txns[p].rows[r])
    else if r in s.rows then Some(s.rows[r])
    else None
  }

  ghost predicate WritesEdges(s: State, s': State) {
    forall p, r :: p in s'.txns && r in s'.txns[p].rows ==>
      && Seen(s, p, r).Some?
      && var before, after := Seen(s, p, r).value, s'.txns[p].rows[r];
      && SameTransfer(before, after)
      && (before.status == after.status || Lifecycle.Edge(before.status, after.status))
  }

  /** Lifecycle refinement: every status update made inside a database
      transaction (a guarded update or a claim) is an edge of the table, and so
      is the fail-step; commits publish such updates and nothing else writes. */
  lemma UpdatesAreEdges(opening: map<AccountId, Account>, s: State, l: Label, s': State)
    requires Inv(opening, s) && Step(s, l, s')
    ensures WritesEdges(s, s')
    ensures l.FailRow? ==> FailsByEdge(s, s')
  {
    hide Inv, WritesEdges, FailsByEdge;
    if l.FailRow? {
      FailIsEdge(opening, s, l.p, l.f);
    }
    hide Step;
    if l.MarkProcessing? || l.MarkSettled? {
      MarkedEdges(s, l, s');
    } else if l.Claim? {
      ClaimingEdges(s, l, s');
    } else {
      Footprint(s, l, s');
      CarriedEdges(s, s');
    }
  }

  lemma CarriedEdges(s: State, s': State)
    requires KeepsPrivate(s, s')
    ensures WritesEdges(s, s')
  {}

  ghost predicate FailsByEdge(s: State, s': State) {
    forall r :: r in s.rows ==>
      r in s'.rows && (s'.rows[r] == s.rows[r] || Lifecycle.Edge(s.rows[r].status, s'.rows[r].status))
  }

  lemma ProcessingEdge(s: State, p: Pid)
    requires CanMarkProcessing(s, p)
    ensures WritesEdges(s, DoMarkProcessing(s, p))
  {
    var s' := DoMarkProcessing(s, p);
    forall q, r | q in s'.txns && r in s'.txns[q].rows && (q != p || r != s.procs[p].id)
      ensures q in s.txns && r in s.txns[q].rows && s'.txns[q].rows[r] == s.txns[q].rows[r]
    {
    }
    assert Seen(s, p, s.procs[p].id) == Some(s.rows[s.procs[p].id]);
  }

  lemma SettledEdge(s: State, p: Pid, now: int)
    requires CanMarkSettled(s, p)
    ensures WritesEdges(s, DoMarkSettled(s, p, now))
  {
  }

  lemma MarkedEdges(s: State, l: Label, s': State)
    requires Step(s, l, s') && (l.MarkProcessing? || l.MarkSettled?)
    ensures WritesEdges(s, s')
  {
    hide WritesEdges, CanMarkProcessing, CanMarkSettled, DoMarkProcessing, DoMarkSettled;
    if l.MarkProcessing? {
      ProcessingEdge(s, l.p);
    } else {
      SettledEdge(s, l.p, l.now);
    }
  }

  lemma ClaimingEdges(s: State, l: Label, s': State)
    requires Step(s, l, s') && l.Claim?
    ensures WritesEdges(s, s')
  {
    hide IsListing, IsNetting, SnapshotsPass, CanLock, CanPost, Incoming;
  }

  lemma FailIsEdge(opening: map<AccountId, Account>, s: State, p: Pid, f: Fault)
    requires Inv(opening, s) && CanFailRow(s, p, f)
    ensures FailsByEdge(s, DoFailRow(s, p, f))
  {
    hide ProcInv, ProcOk, DbInv, RowInv, CacheInv, SerialInv, LogInv;
  }
}
