/** Every step of the engine keeps the invariant. */
module Steps {
  import opened Types
  import opened Ledger
  import opened Netting
  import opened Protocol
  import opened Invariant
  import Lifecycle

  // -------------------------------------------------------------- quiet steps

  /** A step that leaves the committed database and its history alone. */
  ghost predicate Quiet(s: State, s': State, p: Pid) {
    && s'.accounts == s.accounts && s'.journal == s.journal && s'.rows == s.rows
    && s'.creator == s.creator && s'.committed == s.committed && s'.log == s.log
    && s.doomed <= s'.doomed <= s.doomed + {p}
    && s'.procs.Keys == s.procs.Keys + {p}
    && (p in s.procs && s.procs[p].Transfer? ==> s'.procs[p].Transfer?)
    && (forall q :: q in s.procs && q != p ==> s'.procs[q] == s.procs[q])
    && (forall q :: q != p ==> TxnOf(s'.txns, q) == TxnOf(s.txns, q))
  }

  lemma QuietProcs(s: State, s': State, p: Pid)
    requires Quiet(s, s', p) && forall q :: q in s.procs ==> ProcOk(s, q)
    ensures forall q :: q in s.procs && q != p ==> q in s'.procs && ProcOk(s', q)
  {
    forall q | q in s.procs && q != p ensures Spares(s, s', q) {}
    SparedProcs(s, s', p);
  }

  lemma QuietStep(opening: map<AccountId, Account>, s: State, s': State, p: Pid)
    requires Inv(opening, s) && Quiet(s, s', p)
    requires DbInv(s'.accounts, s'.rows, s'.txns)
    requires CacheInv(s'.cache, s'.rows, s'.creator, s'.doomed)
    requires ProcOk(s', p)
    ensures Inv(opening, s')
  {
    hide ProcInv, PostAll, AfterPosts, RowInv, CacheInv, SerialInv, LogInv;
    QuietProcs(s, s', p);
    forall q | q in s'.txns ensures q in s'.procs {
      assert q == p || TxnOf(s.txns, q).Some?;
    }
  }

  lemma LocalStep(opening: map<AccountId, Account>, s: State, s': State, p: Pid)
    requires Inv(opening, s) && p in s.procs
    requires p in s'.procs && s' == s.(procs := s.procs[p := s'.procs[p]])
    requires s.procs[p].Transfer? ==> s'.procs[p].Transfer?
    requires ProcOk(s', p)
    ensures Inv(opening, s')
  {
    hide ProcInv, PostAll, AfterPosts, RowInv, CacheInv, SerialInv, LogInv;
    QuietStep(opening, s, s', p);
  }

  lemma CacheStep(opening: map<AccountId, Account>, s: State, s': State, p: Pid)
    requires Inv(opening, s) && p in s.procs
    requires p in s'.procs && s' == s.(procs := s.procs[p := s'.procs[p]], cache := s'.cache)
    requires s.procs[p].Transfer? ==> s'.procs[p].Transfer?
    requires CacheInv(s'.cache, s.rows, s.creator, s.doomed)
    requires ProcOk(s', p)
    ensures Inv(opening, s')
  {
    hide ProcInv, PostAll, AfterPosts, RowInv, CacheInv, SerialInv, LogInv;
    QuietStep(opening, s, s', p);
  }

  // ---------------------------------------------------------------- local steps

  lemma GetProc(s: State, p: Pid, ok: bool)
    requires Is(s, p, AtLookup) && ProcOk(s, p) && CacheInv(s.cache, s.rows, s.creator, s.doomed)
    ensures ProcOk(DoGet(s, p, ok), p)
  {
    hide NetterInv, PosterInv, IsNetting, AnswerOk, StageOk, Full;
  }

  lemma RegetProc(s: State, p: Pid, ok: bool)
    requires Is(s, p, AtRecheck) && ProcOk(s, p) && CacheInv(s.cache, s.rows, s.creator, s.doomed)
    ensures ProcOk(DoReget(s, p, ok), p)
  {
    hide NetterInv, PosterInv, IsNetting, AnswerOk, StageOk, Full;
  }

  lemma ReadSourceProc(s: State, p: Pid, ok: bool)
    requires Is(s, p, AtReadSource) && ProcOk(s, p)
    ensures ProcOk(DoReadSource(s, p, ok), p)
  {
    hide NetterInv, PosterInv, IsNetting, AnswerOk, FinalOk;
  }

  lemma ReadDestinationProc(s: State, p: Pid, ok: bool)
    requires CanReadDestination(s, p) && ProcOk(s, p)
    ensures ProcOk(DoReadDestination(s, p, ok), p)
  {
    hide NetterInv, PosterInv, IsNetting, AnswerOk, FinalOk;
  }

  lemma ReadClearingProc(s: State, p: Pid, ok: bool)
    requires CanReadClearing(s, p) && ProcOk(s, p)
    ensures ProcOk(DoReadClearing(s, p, ok), p)
  {
    hide NetterInv, PosterInv, IsNetting, AnswerOk, FinalOk;
  }

  lemma FindExistingProc(s: State, p: Pid, id: TxId, ok: bool)
    requires CanFindExisting(s, p, id, ok) && ProcOk(s, p)
    ensures ProcOk(DoFindExisting(s, p, id, ok), p)
  {
    hide NetterInv, PosterInv, IsNetting;
  }

  lemma GiveUpProc(s: State, p: Pid)
    requires CanGiveUp(s, p) && ProcOk(s, p)
    ensures ProcOk(Goto(s, p, AtFailRow(true)), p)
  {
    hide NetterInv, PosterInv, IsNetting, AnswerOk, FinalOk;
  }

  lemma CommitErrorProc(s: State, p: Pid)
    requires CanCommitError(s, p) && ProcOk(s, p)
    ensures ProcOk(Goto(s, p, AtFailRow(true)), p)
  {
    hide NetterInv, PosterInv, IsNetting, AnswerOk, FinalOk;
  }

  lemma CrashProc(s: State, p: Pid)
    requires CanCrash(s, p) && ProcOk(s, p)
    ensures ProcOk(Goto(s, p, AtDone(Crashed)), p)
  {
    hide NetterInv, PosterInv, IsNetting, AnswerOk, FinalOk;
  }

  lemma AckedTransfer(
    p: Pid, q: Request, row: Row, holds: bool, id: TxId, rows: map<TxId, Row>, creator: map<TxId, Birth>, doomed: set<Pid>)
    requires TransferInv(p, q, AtSent(row), holds, id, None, true, false, rows, creator, doomed)
    requires id in rows && Settledness(rows[id]) && SameTransfer(NewRow(q), rows[id])
    ensures TransferInv(p, q, AtStore(Snapshot(id, row), true), holds, id, None, true, false, rows, creator, doomed)
  {
    hide ValidRequest, StageOk, Full;
  }

  lemma AckProc(s: State, p: Pid)
    requires CanAck(s, p) && ProcOk(s, p) && RowInv(s.rows, s.creator, s.committed)
    ensures ProcOk(DoAck(s, p), p)
  {
    var proc := s.procs[p];
    AckFacts(s, p);
    hide TransferInv, NetterInv, PosterInv, RowInv;
    AckedTransfer(p, proc.req, proc.pc.row, proc.holds, proc.id, s.rows, s.creator, s.doomed);
  }

  lemma AckFacts(s: State, p: Pid)
    requires CanAck(s, p) && ProcOk(s, p) && RowInv(s.rows, s.creator, s.committed)
    ensures TxnOf(s.txns, p) == None && p !in s.doomed
    ensures s.procs[p].id in s.rows && Settledness(s.rows[s.procs[p].id])
    ensures SameTransfer(NewRow(s.procs[p].req), s.rows[s.procs[p].id])
  {
    hide NetterInv, PosterInv, IsNetting, ValidRequest, StageOk, Full, AnswerOk, FinalOk;
    var id := s.procs[p].id;
    assert RowOk(s.rows[id], s.creator[id], s.committed);
  }

  lemma FetchedTransfer(
    p: Pid, q: Request, begun: bool, pc': Pc, holds: bool, id: TxId, txn: Option<Txn>, done: bool, dead: bool,
    rows: map<TxId, Row>, creator: map<TxId, Birth>, doomed: set<Pid>)
    requires TransferInv(p, q, AtFetch(begun), holds, id, txn, done, dead, rows, creator, doomed)
    requires (pc' == AtExit(Failure) && begun)
      || (pc'.AtStore? && !pc'.settled && FinalOk(q.key, pc'.answer, rows, creator, doomed))
    ensures TransferInv(p, q, pc', holds, id, txn, done, dead, rows, creator, doomed)
  {
    hide FinalOk, AnswerOk, StageOk, Full, ValidRequest;
  }

  lemma FetchProc(s: State, p: Pid, ok: bool)
    requires CanFetch(s, p) && ProcOk(s, p) && RowInv(s.rows, s.creator, s.committed)
    ensures ProcOk(DoFetch(s, p, ok), p)
  {
    var proc := s.procs[p];
    FetchFacts(s, p);
    FailAnswer(p, proc.req, proc.id, s.rows, s.creator, s.committed, s.doomed);
    hide TransferInv, NetterInv, PosterInv, RowInv, FinalOk, RowOk;
    FetchedTransfer(p, proc.req, proc.pc.begun, DoFetch(s, p, ok).procs[p].pc, proc.holds, proc.id, TxnOf(s.txns, p),
                    p in s.committed, p in s.doomed, s.rows, s.creator, s.doomed);
  }

  lemma FetchFacts(s: State, p: Pid)
    requires CanFetch(s, p) && ProcOk(s, p) && RowInv(s.rows, s.creator, s.committed)
    ensures var id := s.procs[p].id;
      && Born(p, s.procs[p].req, id, s.rows, s.creator) && RowOk(s.rows[id], s.creator[id], s.committed)
      && (s.rows[id].status == TxStatus.Failed || Settledness(s.rows[id]))
      && (!s.procs[p].pc.begun ==> p in s.doomed)
  {
    hide NetterInv, PosterInv, IsNetting, FinalOk, AnswerOk, StageOk, Full, ValidRequest;
  }

  lemma GetKeeps(opening: map<AccountId, Account>, s: State, p: Pid, ok: bool)
    requires Inv(opening, s) && Is(s, p, AtLookup)
    ensures Inv(opening, DoGet(s, p, ok))
  {
    hide ProcInv, PostAll, AfterPosts, RowInv, CacheInv, SerialInv, LogInv;
    GetProc(s, p, ok);
    LocalStep(opening, s, DoGet(s, p, ok), p);
  }

  lemma RegetKeeps(opening: map<AccountId, Account>, s: State, p: Pid, ok: bool)
    requires Inv(opening, s) && Is(s, p, AtRecheck)
    ensures Inv(opening, DoReget(s, p, ok))
  {
    hide ProcInv, PostAll, AfterPosts, RowInv, CacheInv, SerialInv, LogInv;
    RegetProc(s, p, ok);
    LocalStep(opening, s, DoReget(s, p, ok), p);
  }

  lemma ReadSourceKeeps(opening: map<AccountId, Account>, s: State, p: Pid, ok: bool)
    requires Inv(opening, s) && Is(s, p, AtReadSource)
    ensures Inv(opening, DoReadSource(s, p, ok))
  {
    hide ProcInv, PostAll, AfterPosts, RowInv, CacheInv, SerialInv, LogInv;
    ReadSourceProc(s, p, ok);
    LocalStep(opening, s, DoReadSource(s, p, ok), p);
  }

  lemma ReadDestinationKeeps(opening: map<AccountId, Account>, s: State, p: Pid, ok: bool)
    requires Inv(opening, s) && CanReadDestination(s, p)
    ensures Inv(opening, DoReadDestination(s, p, ok))
  {
    hide ProcInv, PostAll, AfterPosts, RowInv, CacheInv, SerialInv, LogInv;
    ReadDestinationProc(s, p, ok);
    LocalStep(opening, s, DoReadDestination(s, p, ok), p);
  }

  lemma ReadClearingKeeps(opening: map<AccountId, Account>, s: State, p: Pid, ok: bool)
    requires Inv(opening, s) && CanReadClearing(s, p)
    ensures Inv(opening, DoReadClearing(s, p, ok))
  {
    hide ProcInv, PostAll, AfterPosts, RowInv, CacheInv, SerialInv, LogInv;
    ReadClearingProc(s, p, ok);
    LocalStep(opening, s, DoReadClearing(s, p, ok), p);
  }

  lemma FindExistingKeeps(opening: map<AccountId, Account>, s: State, p: Pid, id: TxId, ok: bool)
    requires Inv(opening, s) && CanFindExisting(s, p, id, ok)
    ensures Inv(opening, DoFindExisting(s, p, id, ok))
  {
    hide ProcInv, PostAll, AfterPosts, RowInv, CacheInv, SerialInv, LogInv;
    FindExistingProc(s, p, id, ok);
    LocalStep(opening, s, DoFindExisting(s, p, id, ok), p);
  }

  lemma GiveUpKeeps(opening: map<AccountId, Account>, s: State, p: Pid)
    requires Inv(opening, s) && CanGiveUp(s, p)
    ensures Inv(opening, Goto(s, p, AtFailRow(true)))
  {
    hide ProcInv, PostAll, AfterPosts, RowInv, CacheInv, SerialInv, LogInv;
    GiveUpProc(s, p);
    LocalStep(opening, s, Goto(s, p, AtFailRow(true)), p);
  }

  lemma CommitErrorKeeps(opening: map<AccountId, Account>, s: State, p: Pid)
    requires Inv(opening, s) && CanCommitError(s, p)
    ensures Inv(opening, Goto(s, p, AtFailRow(true)))
  {
    hide ProcInv, PostAll, AfterPosts, RowInv, CacheInv, SerialInv, LogInv;
    CommitErrorProc(s, p);
    LocalStep(opening, s, Goto(s, p, AtFailRow(true)), p);
  }

  lemma CrashKeeps(opening: map<AccountId, Account>, s: State, p: Pid)
    requires Inv(opening, s) && CanCrash(s, p)
    ensures Inv(opening, Goto(s, p, AtDone(Crashed)))
  {
    hide ProcInv, PostAll, AfterPosts, RowInv, CacheInv, SerialInv, LogInv;
    CrashProc(s, p);
    LocalStep(opening, s, Goto(s, p, AtDone(Crashed)), p);
  }

  lemma AckKeeps(opening: map<AccountId, Account>, s: State, p: Pid)
    requires Inv(opening, s) && CanAck(s, p)
    ensures Inv(opening, DoAck(s, p))
  {
    hide ProcInv, PostAll, AfterPosts, RowInv, CacheInv, SerialInv, LogInv;
    AckProc(s, p);
    LocalStep(opening, s, DoAck(s, p), p);
  }

  lemma FetchKeeps(opening: map<AccountId, Account>, s: State, p: Pid, ok: bool)
    requires Inv(opening, s) && CanFetch(s, p)
    ensures Inv(opening, DoFetch(s, p, ok))
  {
    hide ProcInv, PostAll, AfterPosts, RowInv, CacheInv, SerialInv, LogInv;
    FetchProc(s, p, ok);
    LocalStep(opening, s, DoFetch(s, p, ok), p);
  }

  // ---------------------------------------------------------------- cache steps

  lemma SetNXProc(s: State, p: Pid, f: Fault)
    requires Is(s, p, AtAcquire) && ProcOk(s, p) && CacheInv(s.cache, s.rows, s.creator, s.doomed)
    ensures ProcOk(DoSetNX(s, p, f), p)
    ensures CacheInv(DoSetNX(s, p, f).cache, s.rows, s.creator, s.doomed)
  {
    hide NetterInv, PosterInv, IsNetting, AnswerOk, FinalOk;
  }

  lemma StoreProc(s: State, p: Pid, f: Fault)
    requires CanStore(s, p) && ProcOk(s, p) && CacheInv(s.cache, s.rows, s.creator, s.doomed)
    ensures ProcOk(DoStore(s, p, f), p)
    ensures CacheInv(DoStore(s, p, f).cache, s.rows, s.creator, s.doomed)
  {
    hide NetterInv, PosterInv, IsNetting, AnswerOk, StageOk, Full;
  }

  lemma UnlockProc(s: State, p: Pid, ok: bool)
    requires CanUnlock(s, p) && ProcOk(s, p) && CacheInv(s.cache, s.rows, s.creator, s.doomed)
    ensures ProcOk(DoUnlock(s, p, ok), p)
    ensures CacheInv(DoUnlock(s, p, ok).cache, s.rows, s.creator, s.doomed)
  {
    hide NetterInv, PosterInv, IsNetting, AnswerOk, FinalOk;
  }

  lemma SetNXKeeps(opening: map<AccountId, Account>, s: State, p: Pid, f: Fault)
    requires Inv(opening, s) && Is(s, p, AtAcquire)
    ensures Inv(opening, DoSetNX(s, p, f))
  {
    hide ProcInv, PostAll, AfterPosts, RowInv, CacheInv, SerialInv, LogInv;
    SetNXProc(s, p, f);
    CacheStep(opening, s, DoSetNX(s, p, f), p);
  }

  lemma StoreKeeps(opening: map<AccountId, Account>, s: State, p: Pid, f: Fault)
    requires Inv(opening, s) && CanStore(s, p)
    ensures Inv(opening, DoStore(s, p, f))
  {
    hide ProcInv, PostAll, AfterPosts, RowInv, CacheInv, SerialInv, LogInv;
    StoreProc(s, p, f);
    CacheStep(opening, s, DoStore(s, p, f), p);
  }

  lemma UnlockKeeps(opening: map<AccountId, Account>, s: State, p: Pid, ok: bool)
    requires Inv(opening, s) && CanUnlock(s, p)
    ensures Inv(opening, DoUnlock(s, p, ok))
  {
    hide ProcInv, PostAll, AfterPosts, RowInv, CacheInv, SerialInv, LogInv;
    UnlockProc(s, p, ok);
    CacheStep(opening, s, DoUnlock(s, p, ok), p);
  }

  lemma ExpireKeeps(opening: map<AccountId, Account>, s: State, k: Key)
    requires Inv(opening, s)
    ensures Inv(opening, s.(cache := s.cache - {k}))
  {
    var s' := s.(cache := s.cache - {k});
    forall q | q in s.procs ensures ProcOk(s', q) {
      assert ProcOk(s, q);
    }
  }

  // ---------------------------------------------------------- private db steps

  lemma PrivateStep(opening: map<AccountId, Account>, s: State, s': State, p: Pid)
    requires Inv(opening, s) && p in s.procs && p in s.txns
    requires p in s'.procs && p in s'.txns && (s.procs[p].Transfer? ==> s'.procs[p].Transfer?)
    requires s' == s.(procs := s.procs[p := s'.procs[p]], txns := s.txns[p := s'.txns[p]])
    requires TxnOk(s.accounts, s.rows, s'.txns[p])
    requires forall q :: q in s.txns && q != p ==> Disjoint(s.txns[q], s'.txns[p])
    requires ProcOk(s', p)
    ensures Inv(opening, s')
  {
    hide ProcInv, RowInv, CacheInv, SerialInv, LogInv, TxnOk, Disjoint;
    PrivateDb(s.accounts, s.rows, s.txns, p, s'.txns[p]);
    hide DbInv;
    QuietStep(opening, s, s', p);
  }

  lemma PrivateDb(accounts: map<AccountId, Account>, rows: map<TxId, Row>, txns: map<Pid, Txn>, p: Pid, t: Txn)
    requires DbInv(accounts, rows, txns) && TxnOk(accounts, rows, t)
    requires forall q :: q in txns && q != p ==> Disjoint(txns[q], t)
    ensures DbInv(accounts, rows, txns[p := t])
  {
    hide TxnOk;
  }

  lemma EmptyTxnOk(accounts: map<AccountId, Account>, rows: map<TxId, Row>)
    ensures TxnOk(accounts, rows, EMPTY_TXN)
  {}

  lemma OpenTxn(accounts: map<AccountId, Account>, rows: map<TxId, Row>, txns: map<Pid, Txn>, p: Pid)
    requires DbInv(accounts, rows, txns) && p !in txns
    ensures DbInv(accounts, rows, txns[p := EMPTY_TXN])
  {
    hide PostAll, AfterPosts;
    EmptyTxnOk(accounts, rows);
  }

  lemma BegunTransfer(
    p: Pid, q: Request, holds: bool, id: TxId, txn: Option<Txn>, done: bool, dead: bool,
    rows: map<TxId, Row>, creator: map<TxId, Birth>, doomed: set<Pid>)
    requires TransferInv(p, q, AtBegin, holds, id, txn, done, dead, rows, creator, doomed)
    ensures txn == None
    ensures TransferInv(p, q, AtLeg1, holds, id, Some(EMPTY_TXN), done, dead, rows, creator, doomed)
    ensures TransferInv(p, q, AtFailRow(false), holds, id, None, done, true, rows, creator, doomed + {p})
  {
    hide AnswerOk, FinalOk, ValidRequest, Full;
  }

  lemma BeginProc(s: State, p: Pid, ok: bool)
    requires Is(s, p, AtBegin) && ProcOk(s, p)
    ensures p !in s.txns && ProcOk(DoBeginTx(s, p, ok), p)
  {
    hide NetterInv, PosterInv, TransferInv;
    var proc, s' := s.procs[p], DoBeginTx(s, p, ok);
    BegunTransfer(p, proc.req, proc.holds, proc.id, TxnOf(s.txns, p), p in s.committed, p in s.doomed,
                  s.rows, s.creator, s.doomed);
    assert s'.procs[p] == proc.(pc := if ok then AtLeg1 else AtFailRow(false));
    assert TxnOf(s'.txns, p) == if ok then Some(EMPTY_TXN) else None;
    assert s'.doomed == if ok then s.doomed else s.doomed + {p};
    hide DoBeginTx, TxnOf, Is;
  }

  lemma BeginKeeps(opening: map<AccountId, Account>, s: State, p: Pid, ok: bool)
    requires Inv(opening, s) && Is(s, p, AtBegin)
    ensures Inv(opening, DoBeginTx(s, p, ok))
  {
    hide ProcInv, DbInv, RowInv, CacheInv, SerialInv, LogInv;
    var s' := DoBeginTx(s, p, ok);
    BeginProc(s, p, ok);
    CacheGrows(s, s', s.cache);
    OpenTxn(s.accounts, s.rows, s.txns, p);
    QuietStep(opening, s, s', p);
  }

  lemma ArriveProc(s: State, p: Pid, proc: Proc)
    requires p !in s.procs && Incoming(proc) && p !in s.txns && p !in s.committed && p !in s.doomed
    requires forall r :: r in s.creator ==> s.creator[r].pid in s.procs
    ensures ProcOk(DoArrive(s, p, proc), p)
  {
    hide AnswerOk, FinalOk, IsNetting;
  }

  lemma ArriveKeeps(opening: map<AccountId, Account>, s: State, p: Pid, proc: Proc)
    requires Inv(opening, s) && p !in s.procs && Incoming(proc)
    ensures Inv(opening, DoArrive(s, p, proc))
  {
    hide ProcInv, DbInv, RowInv, CacheInv, SerialInv, LogInv, Incoming;
    ArriveProc(s, p, proc);
    OpenTxn(s.accounts, s.rows, s.txns, p);
    QuietStep(opening, s, DoArrive(s, p, proc), p);
  }

  lemma LockedTxn(s: State, p: Pid, a: AccountId)
    requires CanLock(s, p, a) && TxnOk(s.accounts, s.rows, s.txns[p])
    ensures TxnOk(s.accounts, s.rows, DoLock(s, p, a).txns[p])
  {
    AfterUntouched(a, s.accounts[a], s.txns[p].posts);
  }

  lemma LockProc(s: State, p: Pid, a: AccountId)
    requires CanLock(s, p, a) && ProcOk(s, p)
    ensures ProcOk(DoLock(s, p, a), p)
  {
    hide AnswerOk, FinalOk, IsNetting;
  }

  lemma LockKeeps(opening: map<AccountId, Account>, s: State, p: Pid, a: AccountId)
    requires Inv(opening, s) && CanLock(s, p, a)
    ensures Inv(opening, DoLock(s, p, a))
  {
    hide ProcInv, PostAll, AfterPosts, RowInv, CacheInv, SerialInv, LogInv;
    LockedTxn(s, p, a);
    LockProc(s, p, a);
    PrivateStep(opening, s, DoLock(s, p, a), p);
  }

  /** A post in the private view is a post after the transaction's earlier ones
      in the committed state. */
  lemma PostedTxn(accounts: map<AccountId, Account>, rows: map<TxId, Row>, t: Txn, e: Entry)
    requires TxnOk(accounts, rows, t) && PostOk(t.accts, e)
    ensures TxnOk(accounts, rows, t.(accts := Apply(t.accts, e), posts := t.posts + [e]))
  {
    var posts := t.posts + [e];
    PostAllIsAfterPosts(accounts, t.posts);
    var view := PostAll(accounts, t.posts).value;
    PostAllSnoc(accounts, t.posts, t.accts, e);
    forall a | a in t.accts ensures Apply(t.accts, e)[a] == AfterPosts(a, accounts[a], posts) {
      AfterSnoc(a, accounts[a], t.posts, e);
    }
    hide PostOk, PostAll, AfterPosts, Apply;
    forall a | a in TouchedBy(posts) ensures a in t.accts {
      if a !in TouchedBy(t.posts) {
        assert a in Touched(e.lines);
      }
    }
  }

  lemma PostAllSnoc(accounts: map<AccountId, Account>, posts: seq<Entry>, accts: map<AccountId, Account>, e: Entry)
    requires PostAll(accounts, posts).Some? && PostOk(accts, e)
    requires forall a :: a in accts ==>
      a in PostAll(accounts, posts).value && accts[a] == PostAll(accounts, posts).value[a]
    ensures PostAll(accounts, posts + [e]).Some?
    ensures Touched(e.lines) <= accts.Keys
  {
    assert (posts + [e])[..|posts|] == posts;
  }

  lemma PostedTransfer(
    p: Pid, q: Request, pc: Pc, holds: bool, id: TxId, t: Txn, accts: map<AccountId, Account>, done: bool, dead: bool,
    rows: map<TxId, Row>, creator: map<TxId, Birth>, doomed: set<Pid>)
    requires TransferInv(p, q, pc, holds, id, Some(t), done, dead, rows, creator, doomed)
    requires pc.AtLeg1? || pc.AtLeg2?
    ensures var e := if pc.AtLeg1? then ClearingEntry(id, q) else SettlementEntry(id, q);
      var pc' := if pc.AtLeg1? then AtMarkProcessing else AtMarkSettled;
      var t' := t.(accts := accts, posts := t.posts + [e]);
      TransferInv(p, q, pc', holds, id, Some(t'), done, dead, rows, creator, doomed)
  {
    hide ValidRequest, Born, AnswerOk, FinalOk, ClearingEntry, SettlementEntry;
  }

  lemma PostProc(s: State, p: Pid)
    requires CanPost(s, p) && ProcOk(s, p)
    ensures ProcOk(DoPost(s, p), p)
  {
    hide TransferInv, NetterInv, PostOk, Apply, ClearingEntry, SettlementEntry;
    var e, t := EntryDue(s.procs[p]).value, s.txns[p];
    match s.procs[p]
    case Transfer(q, pc, holds, id) =>
      PostedTransfer(p, q, pc, holds, id, t, Apply(t.accts, e), p in s.committed, p in s.doomed,
                     s.rows, s.creator, s.doomed);
    case Poster(_, _) => assert [] + [e] == [e];
  }

  lemma PostKeeps(opening: map<AccountId, Account>, s: State, p: Pid)
    requires Inv(opening, s) && CanPost(s, p)
    ensures Inv(opening, DoPost(s, p))
  {
    hide ProcInv, PostAll, AfterPosts, RowInv, CacheInv, SerialInv, LogInv;
    PostedTxn(s.accounts, s.rows, s.txns[p], EntryDue(s.procs[p]).value);
    PostProc(s, p);
    PrivateStep(opening, s, DoPost(s, p), p);
  }

  lemma PendingRow(row: Row, birth: Birth, committed: set<Pid>)
    requires RowOk(row, birth, committed) && row.status == TxStatus.Pending
    ensures row == NewRow(birth.req)
  {}

  lemma MarkedTransfer(
    p: Pid, q: Request, holds: bool, id: TxId, t: Txn, done: bool, dead: bool,
    rows: map<TxId, Row>, creator: map<TxId, Birth>, doomed: set<Pid>)
    requires TransferInv(p, q, AtMarkProcessing, holds, id, Some(t), done, dead, rows, creator, doomed)
    requires id in rows && rows[id] == NewRow(q)
    ensures var t' := t.(rows := t.rows[id := rows[id].(status := TxStatus.Processing)]);
      TransferInv(p, q, AtLeg2, holds, id, Some(t'), done, dead, rows, creator, doomed)
  {}

  lemma MarkProcessingProc(s: State, p: Pid)
    requires CanMarkProcessing(s, p) && ProcOk(s, p) && RowInv(s.rows, s.creator, s.committed)
    ensures ProcOk(DoMarkProcessing(s, p), p)
  {
    hide TransferInv, NetterInv, PosterInv, RowOk;
    var proc := s.procs[p];
    assert Born(p, proc.req, proc.id, s.rows, s.creator) by { CreatedRow(s, p); }
    PendingRow(s.rows[proc.id], s.creator[proc.id], s.committed);
    MarkedTransfer(p, proc.req, proc.holds, proc.id, s.txns[p], p in s.committed, p in s.doomed, s.rows, s.creator, s.doomed);
  }

  lemma CreatedRow(s: State, p: Pid)
    requires Calls(s, p) && ProcOk(s, p)
    requires !Early(s.procs[p].pc) && !Late(s.procs[p].pc)
    ensures Born(p, s.procs[p].req, s.procs[p].id, s.rows, s.creator)
  {
    hide NetterInv, PosterInv, StageOk, Full, AnswerOk, FinalOk;
  }

  lemma MarkProcessingKeeps(opening: map<AccountId, Account>, s: State, p: Pid)
    requires Inv(opening, s) && CanMarkProcessing(s, p)
    ensures Inv(opening, DoMarkProcessing(s, p))
  {
    hide ProcInv, PostAll, AfterPosts, RowInv, CacheInv, SerialInv, LogInv;
    MarkProcessingProc(s, p);
    PrivateStep(opening, s, DoMarkProcessing(s, p), p);
  }

  lemma SettledTransfer(
    p: Pid, q: Request, holds: bool, id: TxId, t: Txn, now: int, done: bool, dead: bool,
    rows: map<TxId, Row>, creator: map<TxId, Birth>, doomed: set<Pid>)
    requires TransferInv(p, q, AtMarkSettled, holds, id, Some(t), done, dead, rows, creator, doomed)
    requires id in t.rows
    ensures var row := SettledRow(t.rows[id], now);
      TransferInv(p, q, AtSendCommit(row), holds, id, Some(t.(rows := t.rows[id := row])), done, dead, rows, creator, doomed)
  {
    hide AnswerOk, FinalOk, ValidRequest, Legs;
  }

  lemma MarkSettledProc(s: State, p: Pid, now: int)
    requires CanMarkSettled(s, p) && ProcOk(s, p)
    ensures ProcOk(DoMarkSettled(s, p, now), p)
  {
    hide NetterInv, PosterInv, TransferInv;
    var proc := s.procs[p];
    SettledTransfer(p, proc.req, proc.holds, proc.id, s.txns[p], now, p in s.committed, p in s.doomed,
                    s.rows, s.creator, s.doomed);
  }

  lemma MarkSettledKeeps(opening: map<AccountId, Account>, s: State, p: Pid, now: int)
    requires Inv(opening, s) && CanMarkSettled(s, p)
    ensures Inv(opening, DoMarkSettled(s, p, now))
  {
    hide ProcInv, PostAll, AfterPosts, RowInv, CacheInv, SerialInv, LogInv;
    MarkSettledProc(s, p, now);
    PrivateStep(opening, s, DoMarkSettled(s, p, now), p);
  }

  lemma SendCommitProc(s: State, p: Pid)
    requires CanSendCommit(s, p) && ProcOk(s, p)
    ensures ProcOk(DoSendCommit(s, p), p)
  {
    hide AnswerOk, FinalOk, IsNetting;
  }

  lemma SendCommitKeeps(opening: map<AccountId, Account>, s: State, p: Pid)
    requires Inv(opening, s) && CanSendCommit(s, p)
    ensures Inv(opening, DoSendCommit(s, p))
  {
    hide ProcInv, PostAll, AfterPosts, RowInv, CacheInv, SerialInv, LogInv;
    SendCommitProc(s, p);
    PrivateStep(opening, s, DoSendCommit(s, p), p);
  }

  lemma AbortProc(s: State, p: Pid)
    requires p in s.procs && ProcOk(s, p)
    ensures ProcOk(s.(txns := s.txns - {p}), p)
  {
    hide AnswerOk, FinalOk, IsNetting;
  }

  lemma AbortKeeps(opening: map<AccountId, Account>, s: State, p: Pid)
    requires Inv(opening, s) && p in s.txns
    ensures Inv(opening, s.(txns := s.txns - {p}))
  {
    hide ProcInv, PostAll, AfterPosts, RowInv, CacheInv, SerialInv, LogInv;
    AbortProc(s, p);
    QuietStep(opening, s, s.(txns := s.txns - {p}), p);
  }

  // ---------------------------------------------------------------- netting runs

  lemma ListRowsProc(s: State, p: Pid, listed: seq<Listed>, positions: seq<NetPosition>)
    requires CanListRows(s, p, listed, positions) && ProcOk(s, p)
    ensures ProcOk(DoListRows(s, p, listed, positions), p)
  {
    hide TransferInv, PosterInv, IsNetting;
    forall l | l in listed ensures l.row.status == TxStatus.Settled && l.row.settledAt.Some? {
      assert l.id in IdsOf(listed);
    }
  }

  lemma ListRowsKeeps(opening: map<AccountId, Account>, s: State, p: Pid, listed: seq<Listed>, positions: seq<NetPosition>)
    requires Inv(opening, s) && CanListRows(s, p, listed, positions)
    ensures Inv(opening, DoListRows(s, p, listed, positions))
  {
    hide IsNetting, IsListing, ProcInv, PostAll, AfterPosts, RowInv, CacheInv, SerialInv, LogInv;
    ListRowsProc(s, p, listed, positions);
    LocalStep(opening, s, DoListRows(s, p, listed, positions), p);
  }

  lemma ClaimProc(s: State, p: Pid, r: TxId)
    requires CanClaim(s, p, r) && ProcOk(s, p)
    ensures ProcOk(DoClaim(s, p, r), p)
  {
    hide TransferInv, PosterInv, IsNetting;
    var listed := s.procs[p].run.listed;
    assert r in IdsOf(listed);
  }

  lemma ClaimKeeps(opening: map<AccountId, Account>, s: State, p: Pid, r: TxId)
    requires Inv(opening, s) && CanClaim(s, p, r)
    ensures Inv(opening, DoClaim(s, p, r))
  {
    hide ProcInv, PostAll, AfterPosts, RowInv, CacheInv, SerialInv, LogInv;
    ClaimProc(s, p, r);
    PrivateStep(opening, s, DoClaim(s, p, r), p);
  }

  lemma {:induction false} DistinctCount(listed: seq<Listed>)
    requires DistinctIds(listed)
    ensures |IdsOf(listed)| == |listed|
  {
    if listed != [] {
      var init, l := listed[..|listed| - 1], listed[|listed| - 1];
      assert listed == init + [l];
      DistinctCount(init);
      LastIsNew(init, l);
      hide IdsOf, DistinctIds;
      IdsOfSnoc(init, l);
    }
  }

  lemma LastIsNew(init: seq<Listed>, l: Listed)
    requires DistinctIds(init + [l])
    ensures l.id !in IdsOf(init)
  {
    var listed := init + [l];
    forall k | k in init ensures k.id != l.id {
      var i :| 0 <= i < |init| && init[i] == k;
      assert listed[i] == k && listed[|init|] == l;
    }
  }

  lemma {:induction false} FullSubset(a: set<TxId>, b: set<TxId>)
    requires a <= b && |a| == |b|
    ensures a == b
  {
    if x :| x in b && x !in a {
      assert a <= b - {x};
      SubsetSize(a, b - {x});
    }
  }

  lemma {:induction false} SubsetSize(a: set<TxId>, b: set<TxId>)
    requires a <= b
    ensures |a| <= |b|
  {
    if x :| x in a {
      SubsetSize(a - {x}, b - {x});
    }
  }

  lemma FinishRunProc(s: State, p: Pid)
    requires CanFinishRun(s, p) && ProcOk(s, p)
    ensures ProcOk(DoFinishRun(s, p), p)
  {
    hide TransferInv, PosterInv, IsNetting;
    var listed := s.procs[p].run.listed;
    DistinctCount(listed);
    assert |s.txns[p].rows.Keys| == |s.txns[p].rows|;
    FullSubset(s.txns[p].rows.Keys, IdsOf(listed));
  }

  lemma FinishRunKeeps(opening: map<AccountId, Account>, s: State, p: Pid)
    requires Inv(opening, s) && CanFinishRun(s, p)
    ensures Inv(opening, DoFinishRun(s, p))
  {
    hide ProcInv, PostAll, AfterPosts, RowInv, CacheInv, SerialInv, LogInv;
    FinishRunProc(s, p);
    PrivateStep(opening, s, DoFinishRun(s, p), p);
  }
}
