/** The steps that change the committed database keep the invariant: status
    changes, created and failed rows, and commits. */
module Commits {
  import opened Types
  import opened Ledger
  import opened Netting
  import opened Protocol
  import opened Invariant
  import Steps

  // ------------------------------------------------------------------ the log

  lemma LogSnoc(log: seq<Unit>, u: Unit)
    ensures Events(log + [u]) == Events(log) + [EventOf(u)]
    ensures SettledIn(log + [u]) == SettledIn(log) + if u.SettleUnit? then {u.id} else {}
    ensures ReconciledIn(log + [u]) == ReconciledIn(log) + if u.NettingUnit? then IdsOf(u.listed) else {}
    ensures SettledOnce(log + [u]) <==> SettledOnce(log) && (u.SettleUnit? ==> u.id !in SettledIn(log))
    ensures ReconciledOnce(log + [u]) <==>
      ReconciledOnce(log) && (u.NettingUnit? ==> IdsOf(u.listed) !! ReconciledIn(log))
  {
    assert (log + [u])[..|log|] == log;
  }

  lemma SerialSnoc(opening: map<AccountId, Account>, accounts: map<AccountId, Account>, journal: seq<Entry>,
                   log: seq<Unit>, u: Unit, accounts': map<AccountId, Account>)
    requires SerialInv(opening, accounts, journal, log)
    requires ApplyEvent(accounts, EventOf(u)) == Some(accounts')
    ensures SerialInv(opening, accounts', journal + EntriesOf(EventOf(u)), log + [u])
  {
    LogSnoc(log, u);
    var evs := Events(log) + [EventOf(u)];
    assert evs[..|evs| - 1] == Events(log);
  }

  /** The log does not mind changes of rows that are neither SETTLED nor RECONCILED. */
  lemma LogFrame(log: seq<Unit>, rows: map<TxId, Row>, creator: map<TxId, Birth>,
                 rows': map<TxId, Row>, creator': map<TxId, Birth>)
    requires LogInv(log, rows, creator)
    requires forall r :: r in creator ==> r in creator' && creator'[r] == creator[r]
    requires forall r :: r in rows && Settledness(rows[r]) ==> r in rows' && rows'[r] == rows[r]
    requires forall r :: r in rows' && Settledness(rows'[r]) ==> r in rows && rows[r] == rows'[r]
    ensures LogInv(log, rows', creator')
  {
    hide IsNetting;
    forall u | u in log ensures UnitOk(u, rows', creator') {
      assert UnitOk(u, rows, creator);
    }
  }

  // ------------------------------------------------------------- status changes

  lemma SetStatusDb(s: State, a: AccountId, st: AccountStatus)
    requires DbInv(s.accounts, s.rows, s.txns) && a in s.accounts && AccountFree(s.txns, a)
    ensures DbInv(DoSetStatus(s, a, st).accounts, s.rows, s.txns)
  {
    var accounts' := DoSetStatus(s, a, st).accounts;
    forall p | p in s.txns ensures TxnOk(accounts', s.rows, s.txns[p]) {
      hide TxnOk;
      assert TxnOk(s.accounts, s.rows, s.txns[p]);
      TxnFrame(s.accounts, s.rows, accounts', s.rows, s.txns[p]);
    }
  }

  lemma SetStatusLog(log: seq<Unit>, rows: map<TxId, Row>, creator: map<TxId, Birth>, a: AccountId, st: AccountStatus)
    requires LogInv(log, rows, creator)
    ensures LogInv(log + [StatusUnit(a, st)], rows, creator)
  {
    hide IsNetting;
    LogSnoc(log, StatusUnit(a, st));
  }

  lemma SetStatusKeeps(opening: map<AccountId, Account>, s: State, a: AccountId, st: AccountStatus)
    requires Inv(opening, s) && a in s.accounts && AccountFree(s.txns, a)
    ensures Inv(opening, DoSetStatus(s, a, st))
  {
    hide ProcInv, DbInv, RowInv, CacheInv, SerialInv, LogInv;
    var s' := DoSetStatus(s, a, st);
    SetStatusDb(s, a, st);
    SerialSnoc(opening, s.accounts, s.journal, s.log, StatusUnit(a, st), s'.accounts);
    assert s.journal + [] == s.journal;
    SetStatusLog(s.log, s.rows, s.creator, a, st);
    forall q | q in s'.procs ensures ProcOk(s', q) {
      assert ProcOk(s, q);
    }
  }

  /** A step of p that changes its row and nothing else of the database. */
  lemma RowStep(opening: map<AccountId, Account>, s: State, s': State, p: Pid)
    requires Inv(opening, s) && Calls(s, p) && Calls(s', p)
    requires s' == s.(rows := s'.rows, creator := s'.creator, procs := s.procs[p := s'.procs[p]])
    requires forall r :: r in s'.creator ==> s'.creator[r].pid == p || (r in s.creator && s'.creator[r] == s.creator[r])
    requires DbInv(s'.accounts, s'.rows, s'.txns) && RowInv(s'.rows, s'.creator, s'.committed)
    requires CacheInv(s'.cache, s'.rows, s'.creator, s'.doomed) && LogInv(s'.log, s'.rows, s'.creator)
    requires ProcOk(s', p) && forall q :: q in s.procs && q != p ==> ProcOk(s', q)
    ensures Inv(opening, s')
  {
    hide ProcOk, DbInv, RowInv, CacheInv, SerialInv, LogInv;
  }

  // --------------------------------------------------------------- created rows

  lemma RowsGrowDb(accounts: map<AccountId, Account>, rows: map<TxId, Row>, rows': map<TxId, Row>, txns: map<Pid, Txn>)
    requires DbInv(accounts, rows, txns) && rows.Keys <= rows'.Keys
    ensures DbInv(accounts, rows', txns)
  {
    hide PostAll, AfterPosts;
  }

  ghost predicate Inserts(s: State, p: Pid, id: TxId) {
    && Is(s, p, AtCreate) && id !in s.rows && !KeyTaken(s.rows, s.procs[p].req.key)
    && s.procs[p].req.from in s.accounts && s.procs[p].req.to in s.accounts
  }

  lemma InsertRows(s: State, p: Pid, id: TxId)
    requires Inserts(s, p, id) && RowInv(s.rows, s.creator, s.committed) && ProcOk(s, p)
    ensures var q := s.procs[p].req;
      RowInv(s.rows[id := NewRow(q)], s.creator[id := Birth(p, q)], s.committed)
  {
    hide NetterInv, PosterInv, StageOk, Full, AnswerOk, FinalOk;
  }

  lemma InsertProc(s: State, s': State, p: Pid, id: TxId, f: Fault)
    requires Inserts(s, p, id) && ProcOk(s, p) && f != Broken && s' == DoInsert(s, p, id, f)
    ensures ProcOk(s', p)
  {
    hide NetterInv, PosterInv, StageOk, Full, AnswerOk, FinalOk;
  }

  lemma InsertGrows(s: State, s': State, p: Pid, id: TxId, f: Fault)
    requires Inserts(s, p, id) && f != Broken && s' == DoInsert(s, p, id, f)
    requires s.creator.Keys == s.rows.Keys
    ensures Grows(s, s')
    ensures forall q :: q in s.procs && q != p ==> Spares(s, s', q)
  {
    assert Grows(s, s');
  }

  lemma InsertLog(s: State, s': State, p: Pid, id: TxId, f: Fault)
    requires Inserts(s, p, id) && f != Broken && s' == DoInsert(s, p, id, f)
    requires s.creator.Keys == s.rows.Keys && LogInv(s.log, s.rows, s.creator)
    ensures LogInv(s.log, s'.rows, s'.creator)
  {
    hide LogInv;
    LogFrame(s.log, s.rows, s.creator, s'.rows, s'.creator);
  }

  lemma InsertedKeeps(opening: map<AccountId, Account>, s: State, s': State, p: Pid, id: TxId, f: Fault)
    requires Inv(opening, s) && Inserts(s, p, id) && f != Broken && s' == DoInsert(s, p, id, f)
    ensures Inv(opening, s')
  {
    hide ProcInv, DbInv, RowOk, CacheInv, SerialInv, LogInv, Spares, Grows;
    InsertRows(s, p, id);
    InsertProc(s, s', p, id, f);
    InsertGrows(s, s', p, id, f);
    SparedProcs(s, s', p);
    CacheGrows(s, s', s.cache);
    RowsGrowDb(s.accounts, s.rows, s'.rows, s.txns);
    InsertLog(s, s', p, id, f);
    InsertedFrame(s, s', p, id, f);
    hide Inv, ProcOk, RowInv, DoInsert, Inserts;
    RowStep(opening, s, s', p);
  }

  lemma InsertedFrame(s: State, s': State, p: Pid, id: TxId, f: Fault)
    requires Inserts(s, p, id) && f != Broken && s' == DoInsert(s, p, id, f)
    ensures Calls(s, p) && Calls(s', p)
    ensures s' == s.(rows := s.rows[id := NewRow(s.procs[p].req)], creator := s.creator[id := Birth(p, s.procs[p].req)],
                     procs := s.procs[p := s'.procs[p]])
  {}

  lemma InsertExitProc(s: State, p: Pid, pc: Pc)
    requires Is(s, p, AtCreate) && ProcOk(s, p) && (pc == AtDuplicate || pc == AtExit(Failure))
    ensures ProcOk(Goto(s, p, pc), p)
  {
    hide NetterInv, PosterInv, StageOk, Full, AnswerOk, FinalOk;
  }

  lemma InsertKeeps(opening: map<AccountId, Account>, s: State, p: Pid, id: TxId, f: Fault)
    requires Inv(opening, s) && Is(s, p, AtCreate) && id !in s.rows
    ensures Inv(opening, DoInsert(s, p, id, f))
  {
    hide ProcInv, DbInv, RowInv, CacheInv, SerialInv, LogInv;
    var s' := DoInsert(s, p, id, f);
    if f != Broken && Inserts(s, p, id) {
      hide Inv;
      InsertedKeeps(opening, s, s', p, id, f);
    } else {
      InsertExitProc(s, p, s'.procs[p].pc);
      Steps.LocalStep(opening, s, s', p);
    }
  }

  // ---------------------------------------------------------------- failed rows

  ghost predicate Fails(s: State, p: Pid, f: Fault) {
    CanFailRow(s, p, f) && f != Broken && Failable(s.rows[s.procs[p].id])
  }

  lemma FailedRows(s: State, p: Pid, f: Fault)
    requires Fails(s, p, f) && RowInv(s.rows, s.creator, s.committed)
    ensures RowInv(DoFailRow(s, p, f).rows, s.creator, s.committed)
    ensures s.rows[s.procs[p].id].status == TxStatus.Pending
  {
    var id, rows' := s.procs[p].id, DoFailRow(s, p, f).rows;
    assert rows' == s.rows[id := s.rows[id].(status := TxStatus.Failed)];
    assert RowOk(s.rows[id], s.creator[id], s.committed);
    hide Fails, DoFailRow;
    forall r | r in rows' ensures RowOk(rows'[r], s.creator[r], s.committed) && rows'[r].key == s.rows[r].key {
      assert RowOk(s.rows[r], s.creator[r], s.committed);
    }
    SameKeys(s.rows, rows', s.creator, s.committed, s.committed);
  }

  lemma FailedGrows(s: State, s': State, p: Pid, f: Fault)
    requires Fails(s, p, f) && s' == DoFailRow(s, p, f)
    requires s.rows[s.procs[p].id].status == TxStatus.Pending
    requires Born(p, s.procs[p].req, s.procs[p].id, s.rows, s.creator)
    ensures Grows(s, s')
    ensures forall q :: q in s.procs && q != p ==> Spares(s, s', q)
  {
    assert Grows(s, s');
  }

  /** Where the fail-step of p goes on: with the answers it may then hold. */
  lemma FailedTransfer(
    p: Pid, q: Request, begun: bool, pc': Pc, holds: bool, id: TxId, txn: Option<Txn>, done: bool, dead: bool,
    rows: map<TxId, Row>, rows': map<TxId, Row>, creator: map<TxId, Birth>, doomed: set<Pid>)
    requires TransferInv(p, q, AtFailRow(begun), holds, id, txn, done, dead, rows, creator, doomed)
    requires rows.Keys <= rows'.Keys
    requires txn.Some? && txn.value.sent ==> rows'[id] == rows[id]
    requires (pc' == AtFetch(begun) && (rows'[id].status == TxStatus.Failed || Settledness(rows'[id])))
      || (pc' == AtExit(Failure) && begun)
      || (pc'.AtStore? && !pc'.settled && FinalOk(q.key, pc'.answer, rows', creator, doomed))
    ensures TransferInv(p, q, pc', holds, id, txn, done, dead, rows', creator, doomed)
  {
    hide AnswerOk, FinalOk;
  }

  lemma FailRowTurn(s: State, s': State, p: Pid, f: Fault)
    requires CanFailRow(s, p, f) && s' == DoFailRow(s, p, f)
    requires Born(p, s.procs[p].req, s.procs[p].id, s.rows, s.creator)
    requires RowOk(s.rows[s.procs[p].id], s.creator[s.procs[p].id], s.committed)
    requires !s.procs[p].pc.begun ==> p in s.doomed
    ensures p in s'.procs && s'.procs[p].Transfer? && s'.procs[p] == s.procs[p].(pc := s'.procs[p].pc)
    ensures var id, begun, pc' := s.procs[p].id, s.procs[p].pc.begun, s'.procs[p].pc;
      || (pc' == AtFetch(begun) && (s'.rows[id].status == TxStatus.Failed || Settledness(s'.rows[id])))
      || (pc' == AtExit(Failure) && begun)
      || (pc'.AtStore? && !pc'.settled && FinalOk(s.procs[p].req.key, pc'.answer, s'.rows, s.creator, s.doomed))
  {
    hide FinalOk;
    var proc := s.procs[p];
    FailAnswer(p, proc.req, proc.id, s.rows, s.creator, s.committed, s.doomed);
    FailAnswer(p, proc.req, proc.id, s'.rows, s.creator, s.committed, s.doomed);
  }

  lemma FailRowProc(s: State, s': State, p: Pid, f: Fault)
    requires CanFailRow(s, p, f) && ProcOk(s, p) && s' == DoFailRow(s, p, f)
    requires s.procs[p].id in s.creator
    requires RowOk(s.rows[s.procs[p].id], s.creator[s.procs[p].id], s.committed)
    ensures ProcOk(s', p)
  {
    hide TransferInv, RowOk, FinalOk, NetterInv, PosterInv, Born, OnFailError;
    FailRowFacts(s, p, f);
    FailRowTurn(s, s', p, f);
    var proc := s.procs[p];
    FailedTransfer(p, proc.req, proc.pc.begun, s'.procs[p].pc, proc.holds, proc.id, TxnOf(s.txns, p),
                   p in s.committed, p in s.doomed, s.rows, s'.rows, s.creator, s.doomed);
  }

  lemma FailRowFacts(s: State, p: Pid, f: Fault)
    requires CanFailRow(s, p, f) && ProcOk(s, p)
    ensures Born(p, s.procs[p].req, s.procs[p].id, s.rows, s.creator)
    ensures !s.procs[p].pc.begun ==> p in s.doomed
    ensures p in s.txns && s.txns[p].sent ==> s.procs[p].id in s.txns[p].rows
  {
    hide NetterInv, PosterInv, AnswerOk, FinalOk, StageOk;
  }

  lemma FailedDb(s: State, s': State, p: Pid, f: Fault)
    requires Fails(s, p, f) && s' == DoFailRow(s, p, f) && DbInv(s.accounts, s.rows, s.txns)
    ensures DbInv(s'.accounts, s'.rows, s'.txns)
  {
    hide DbInv;
    RowsGrowDb(s.accounts, s.rows, s'.rows, s.txns);
  }

  lemma FailedLog(s: State, s': State, p: Pid, f: Fault)
    requires Fails(s, p, f) && s' == DoFailRow(s, p, f) && LogInv(s.log, s.rows, s.creator)
    ensures LogInv(s.log, s'.rows, s'.creator)
  {
    hide LogInv;
    LogFrame(s.log, s.rows, s.creator, s'.rows, s'.creator);
  }

  lemma FailedKeeps(opening: map<AccountId, Account>, s: State, s': State, p: Pid, f: Fault)
    requires Inv(opening, s) && Fails(s, p, f) && s' == DoFailRow(s, p, f)
    ensures Inv(opening, s')
  {
    hide ProcInv, DbInv, RowOk, CacheInv, SerialInv, LogInv, Spares, Grows;
    FailRowFacts(s, p, f);
    FailedRows(s, p, f);
    FailRowProc(s, s', p, f);
    FailedGrows(s, s', p, f);
    SparedProcs(s, s', p);
    CacheGrows(s, s', s.cache);
    FailedDb(s, s', p, f);
    FailedLog(s, s', p, f);
    FailedFrame(s, s', p, f);
    hide Inv, ProcOk, RowInv, DoFailRow, Fails;
    RowStep(opening, s, s', p);
  }

  lemma FailedFrame(s: State, s': State, p: Pid, f: Fault)
    requires Fails(s, p, f) && s' == DoFailRow(s, p, f)
    ensures Calls(s, p) && Calls(s', p)
    ensures s' == s.(rows := s'.rows, procs := s.procs[p := s'.procs[p]])
  {}

  lemma FailRowKeeps(opening: map<AccountId, Account>, s: State, p: Pid, f: Fault)
    requires Inv(opening, s) && CanFailRow(s, p, f)
    ensures Inv(opening, DoFailRow(s, p, f))
  {
    hide ProcInv, DbInv, CacheInv, SerialInv, LogInv, RowOk;
    var s' := DoFailRow(s, p, f);
    if Fails(s, p, f) {
      hide Inv;
      FailedKeeps(opening, s, s', p, f);
    } else {
      FailRowFacts(s, p, f);
      FailRowProc(s, s', p, f);
      Steps.LocalStep(opening, s, s', p);
    }
  }

  // -------------------------------------------------------------------- commits

  /** The private view of a transaction is what executing its entries, all at
      once and now, makes of the committed accounts. */
  lemma CommitIsSerial(accounts: map<AccountId, Account>, rows: map<TxId, Row>, t: Txn)
    requires TxnOk(accounts, rows, t)
    ensures PostAll(accounts, t.posts) == Some(accounts + t.accts)
  {
    PostAllIsAfterPosts(accounts, t.posts);
    forall a | a in accounts && a !in t.accts {
      AfterUntouched(a, accounts[a], t.posts);
    }
    assert PostAll(accounts, t.posts).value == accounts + t.accts;
  }

  lemma CommitDb(s: State, s': State, p: Pid)
    requires CanServerCommit(s, p) && s' == DoServerCommit(s, p) && DbInv(s.accounts, s.rows, s.txns)
    ensures DbInv(s'.accounts, s'.rows, s'.txns)
  {
    assert TxnOk(s.accounts, s.rows, s.txns[p]);
    forall q | q in s'.txns ensures TxnOk(s'.accounts, s'.rows, s'.txns[q]) {
      hide TxnOk;
      assert Disjoint(s.txns[p], s.txns[q]);
      TxnFrame(s.accounts, s.rows, s'.accounts, s'.rows, s.txns[q]);
    }
  }

  /** What the unit of a sent transaction posts is what the transaction posted. */
  lemma UnitIsTxn(s: State, p: Pid)
    requires CanServerCommit(s, p) && ProcOk(s, p)
    ensures EventOf(UnitOf(s.procs[p])) == Event.Posting(s.txns[p].posts)
  {
    hide AnswerOk, FinalOk, ClaimsOk, ListedOk, IsNetting;
  }

  lemma CommitSerial(opening: map<AccountId, Account>, s: State, s': State, p: Pid)
    requires CanServerCommit(s, p) && s' == DoServerCommit(s, p) && ProcOk(s, p)
    requires TxnOk(s.accounts, s.rows, s.txns[p])
    requires SerialInv(opening, s.accounts, s.journal, s.log)
    ensures SerialInv(opening, s'.accounts, s'.journal, s'.log)
  {
    hide ProcInv, TxnOk, SerialInv;
    UnitIsTxn(s, p);
    CommitIsSerial(s.accounts, s.rows, s.txns[p]);
    SerialSnoc(opening, s.accounts, s.journal, s.log, UnitOf(s.procs[p]), s'.accounts);
  }

  // What a commit publishes, by the kind of process.

  ghost predicate SettlesOne(s: State, p: Pid) {
    && CanServerCommit(s, p) && s.procs[p].Transfer?
    && var q, id := s.procs[p].req, s.procs[p].id;
    && Born(p, q, id, s.rows, s.creator) && s.rows[id] == NewRow(q)
    && s.txns[p].rows.Keys == {id} && IsSettledRow(q, s.txns[p].rows[id])
  }

  ghost predicate ReconcilesListed(s: State, p: Pid) {
    && CanServerCommit(s, p) && s.procs[p].Netter?
    && var run := s.procs[p].run;
    && DistinctIds(run.listed) && IsNetting(FlowsOf(run.listed), run.positions)
    && s.txns[p].rows.Keys == IdsOf(run.listed)
    && forall l :: l in run.listed ==>
         && l.id in s.rows && s.rows[l.id] == l.row && l.row.status == TxStatus.Settled
         && s.txns[p].rows[l.id] == l.row.(status := TxStatus.Reconciled)
  }

  lemma CommitKinds(s: State, p: Pid)
    requires CanServerCommit(s, p) && ProcOk(s, p) && RowInv(s.rows, s.creator, s.committed)
    ensures s.procs[p].Transfer? ==> SettlesOne(s, p)
    ensures s.procs[p].Poster? ==> s.txns[p].rows == map[]
    ensures s.procs[p].Netter? ==> ReconcilesListed(s, p)
  {
    match s.procs[p]
    case Transfer(q, pc, holds, id) => TransferCommit(s, p);
    case Poster(_, _) =>
    case Netter(_, _) => NetterCommit(s, p);
  }

  lemma TransferCommit(s: State, p: Pid)
    requires CanServerCommit(s, p) && ProcOk(s, p) && RowInv(s.rows, s.creator, s.committed)
    requires s.procs[p].Transfer?
    ensures SettlesOne(s, p)
  {
    hide NetterInv, PosterInv, AnswerOk, FinalOk, StageOk;
    var id := s.procs[p].id;
    assert RowOk(s.rows[id], s.creator[id], s.committed);
  }

  lemma NetterCommit(s: State, p: Pid)
    requires CanServerCommit(s, p) && ProcOk(s, p) && s.procs[p].Netter?
    ensures ReconcilesListed(s, p)
  {
    hide TransferInv, PosterInv, IsNetting;
    forall l | l in s.procs[p].run.listed ensures l.id in IdsOf(s.procs[p].run.listed) {}
  }

  lemma SettlesRows(s: State, s': State, p: Pid)
    requires SettlesOne(s, p) && s' == DoServerCommit(s, p)
    requires RowInv(s.rows, s.creator, s.committed)
    ensures RowInv(s'.rows, s'.creator, s'.committed)
  {
    hide RowOk;
    var id := s.procs[p].id;
    SettledRowOk(s, p);
    forall r | r in s'.rows
      ensures r in s.rows && s'.rows[r].key == s.rows[r].key && RowOk(s'.rows[r], s.creator[r], s'.committed)
    {
      if r != id {
        assert r !in s.txns[p].rows;
        SameRowOk(s.rows[r], s.creator[r], s.committed, p);
      }
    }
    hide SettlesOne, DoServerCommit;
    SameKeys(s.rows, s'.rows, s.creator, s.committed, s'.committed);
  }

  lemma SettledRowOk(s: State, p: Pid)
    requires SettlesOne(s, p)
    ensures var id := s.procs[p].id;
      && s.txns[p].rows[id].key == s.rows[id].key
      && RowOk(s.txns[p].rows[id], s.creator[id], s.committed + {p})
  {}

  lemma SettlesGrows(s: State, s': State, p: Pid)
    requires SettlesOne(s, p) && s' == DoServerCommit(s, p)
    requires forall q :: q in s.txns && q != p ==> Disjoint(s.txns[p], s.txns[q])
    ensures Grows(s, s')
    ensures forall q :: q in s.procs && q != p ==> Spares(s, s', q)
  {
    assert Grows(s, s');
    forall q | q in s.procs && q != p ensures Spares(s, s', q) {
      hide Grows, SameTransfer;
      if q in s.txns {
        assert Disjoint(s.txns[p], s.txns[q]);
      }
    }
  }

  lemma SameKeys(rows: map<TxId, Row>, rows': map<TxId, Row>, creator: map<TxId, Birth>, committed: set<Pid>, committed': set<Pid>)
    requires RowInv(rows, creator, committed) && rows'.Keys == rows.Keys
    requires forall r :: r in rows' ==> rows'[r].key == rows[r].key && RowOk(rows'[r], creator[r], committed')
    ensures RowInv(rows', creator, committed')
  {
    hide RowOk;
  }

  lemma ReconciledRowOk(row: Row, birth: Birth, committed: set<Pid>, p: Pid)
    requires RowOk(row, birth, committed) && row.status == TxStatus.Settled && birth.pid != p
    ensures RowOk(row.(status := TxStatus.Reconciled), birth, committed + {p})
  {}

  lemma ReconcilesRows(s: State, s': State, p: Pid)
    requires CanServerCommit(s, p) && ReconcilesListed(s, p) && s' == DoServerCommit(s, p)
    requires RowInv(s.rows, s.creator, s.committed)
    requires forall r :: r in s.creator ==> s.creator[r].pid != p
    ensures RowInv(s'.rows, s'.creator, s'.committed)
  {
    hide IsNetting, ReconcilesListed, RowOk;
    ReconciledValue(s, p);
    forall r | r in s'.rows
      ensures r in s.rows && s'.rows[r].key == s.rows[r].key && RowOk(s'.rows[r], s.creator[r], s'.committed)
    {
      if r in s.txns[p].rows {
        ReconciledRowOk(s.rows[r], s.creator[r], s.committed, p);
      } else {
        SameRowOk(s.rows[r], s.creator[r], s.committed, p);
      }
    }
    SameKeys(s.rows, s'.rows, s.creator, s.committed, s'.committed);
  }

  lemma SameRowOk(row: Row, birth: Birth, committed: set<Pid>, p: Pid)
    requires RowOk(row, birth, committed) && birth.pid != p
    ensures RowOk(row, birth, committed + {p})
  {}

  lemma ReconciledValue(s: State, p: Pid)
    requires ReconcilesListed(s, p)
    ensures forall r :: r in s.txns[p].rows ==>
      r in s.rows && s.rows[r].status == TxStatus.Settled && s.txns[p].rows[r] == s.rows[r].(status := TxStatus.Reconciled)
  {
    hide IsNetting;
    var listed := s.procs[p].run.listed;
    forall r | r in s.txns[p].rows
      ensures r in s.rows && s.rows[r].status == TxStatus.Settled && s.txns[p].rows[r] == s.rows[r].(status := TxStatus.Reconciled)
    {
      assert r in IdsOf(listed);
      var l :| l in listed && l.id == r;
    }
  }

  lemma ReconcilesGrows(s: State, s': State, p: Pid)
    requires ReconcilesListed(s, p) && s' == DoServerCommit(s, p)
    requires forall q :: q in s.txns && q != p ==> Disjoint(s.txns[p], s.txns[q])
    ensures Grows(s, s')
    ensures forall q :: q in s.procs && q != p ==> Spares(s, s', q)
  {
    ReconciledRowsGrow(s, s', p);
    hide ReconcilesListed, Grows, SameTransfer;
    forall q | q in s.procs && q != p ensures Spares(s, s', q) {
      if q in s.txns {
        assert Disjoint(s.txns[p], s.txns[q]);
      }
    }
  }

  lemma ReconciledRowsGrow(s: State, s': State, p: Pid)
    requires ReconcilesListed(s, p) && s' == DoServerCommit(s, p)
    ensures Grows(s, s')
  {
    ReconciledValue(s, p);
    hide ReconcilesListed;
  }

  lemma SettlesLog(s: State, s': State, p: Pid)
    requires SettlesOne(s, p) && s' == DoServerCommit(s, p) && LogInv(s.log, s.rows, s.creator)
    requires forall r :: r in SettledIn(s.log) ==> r in s.rows && Settledness(s.rows[r])
    ensures LogInv(s'.log, s'.rows, s'.creator)
  {
    hide IsNetting;
    var u := SettleUnit(s.procs[p].id, s.procs[p].req);
    LogSnoc(s.log, u);
    forall v | v in s'.log ensures UnitOk(v, s'.rows, s'.creator) {
      assert v == u || UnitOk(v, s.rows, s.creator);
    }
  }

  lemma ReconcilesLog(s: State, s': State, p: Pid)
    requires ReconcilesListed(s, p) && s' == DoServerCommit(s, p) && LogInv(s.log, s.rows, s.creator)
    requires forall r :: r in ReconciledIn(s.log) ==> r in s.rows && s.rows[r].status == TxStatus.Reconciled
    ensures LogInv(s'.log, s'.rows, s'.creator)
  {
    LogSnoc(s.log, UnitOf(s.procs[p]));
    ReconciledUnit(s, s', p);
    ReconciledUnits(s, s', p);
    ReconciledValue(s, p);
    assert UnitOf(s.procs[p]).NettingUnit? && IdsOf(UnitOf(s.procs[p]).listed) == s.txns[p].rows.Keys;
    hide ReconcilesListed, UnitOk, IdsOf;
    forall v | v in s'.log ensures UnitOk(v, s'.rows, s'.creator) {
      assert v == UnitOf(s.procs[p]) || v in s.log;
    }
  }

  lemma ReconciledUnit(s: State, s': State, p: Pid)
    requires ReconcilesListed(s, p) && s' == DoServerCommit(s, p)
    ensures UnitOk(UnitOf(s.procs[p]), s'.rows, s'.creator)
  {
    hide IsNetting;
    assert forall l :: l in s.procs[p].run.listed ==> l.id in s.txns[p].rows;
  }

  lemma ReconciledUnits(s: State, s': State, p: Pid)
    requires ReconcilesListed(s, p) && s' == DoServerCommit(s, p)
    ensures forall v :: UnitOk(v, s.rows, s.creator) ==> UnitOk(v, s'.rows, s'.creator)
  {
    ReconciledValue(s, p);
    hide IsNetting, ReconcilesListed;
  }

  lemma PostsLog(s: State, s': State, p: Pid)
    requires CanServerCommit(s, p) && s' == DoServerCommit(s, p) && s.procs[p].Poster? && s.txns[p].rows == map[]
    requires LogInv(s.log, s.rows, s.creator) && s.procs[p].entry.origin == None
    ensures LogInv(s'.log, s'.rows, s'.creator)
  {
    hide IsNetting;
    LogSnoc(s.log, PostUnit(s.procs[p].entry));
    assert s'.rows == s.rows;
  }

  lemma {:induction false} LoggedRows(log: seq<Unit>, rows: map<TxId, Row>, creator: map<TxId, Birth>)
    requires forall u :: u in log ==> UnitOk(u, rows, creator)
    ensures forall r :: r in SettledIn(log) ==> r in rows && Settledness(rows[r])
    ensures forall r :: r in ReconciledIn(log) ==> r in rows && rows[r].status == TxStatus.Reconciled
  {
    hide IsNetting;
    if log != [] {
      var init, u := log[..|log| - 1], log[|log| - 1];
      assert u in log && UnitOk(u, rows, creator);
      forall v | v in init ensures UnitOk(v, rows, creator) {
        assert v in log;
      }
      LoggedRows(init, rows, creator);
    }
  }

  lemma CommitLog(s: State, s': State, p: Pid)
    requires CanServerCommit(s, p) && s' == DoServerCommit(s, p) && ProcOk(s, p)
    requires RowInv(s.rows, s.creator, s.committed) && LogInv(s.log, s.rows, s.creator)
    ensures LogInv(s'.log, s'.rows, s'.creator)
  {
    CommitKinds(s, p);
    LoggedRows(s.log, s.rows, s.creator);
    hide LogInv, SettlesOne, ReconcilesListed, RowInv, TransferInv, NetterInv;
    match s.procs[p]
    case Transfer(_, _, _, _) => SettlesLog(s, s', p);
    case Poster(_, _) => PostsLog(s, s', p);
    case Netter(_, _) => ReconcilesLog(s, s', p);
  }

  lemma PostedRows(s: State, s': State, p: Pid)
    requires CanServerCommit(s, p) && s' == DoServerCommit(s, p) && s.txns[p].rows == map[]
    requires RowInv(s.rows, s.creator, s.committed) && forall r :: r in s.creator ==> s.creator[r].pid != p
    ensures RowInv(s'.rows, s'.creator, s'.committed)
  {
    assert s'.rows == s.rows;
    forall r | r in s'.rows ensures RowOk(s'.rows[r], s.creator[r], s'.committed) {
      assert RowOk(s.rows[r], s.creator[r], s.committed);
    }
  }

  lemma CommitRows(s: State, s': State, p: Pid)
    requires CanServerCommit(s, p) && s' == DoServerCommit(s, p) && ProcOk(s, p)
    requires RowInv(s.rows, s.creator, s.committed)
    requires !s.procs[p].Transfer? ==> forall r :: r in s.creator ==> s.creator[r].pid != p
    ensures RowInv(s'.rows, s'.creator, s'.committed)
  {
    CommitKinds(s, p);
    hide SettlesOne, ReconcilesListed, ProcInv;
    match s.procs[p]
    case Transfer(_, _, _, _) => hide RowInv; SettlesRows(s, s', p);
    case Poster(_, _) => PostedRows(s, s', p);
    case Netter(_, _) => hide RowInv; ReconcilesRows(s, s', p);
  }

  lemma PostsGrow(s: State, s': State, p: Pid)
    requires CanServerCommit(s, p) && s' == DoServerCommit(s, p) && s.txns[p].rows == map[]
    ensures Grows(s, s')
    ensures forall q :: q in s.procs && q != p ==> Spares(s, s', q)
  {
    assert s'.rows == s.rows;
  }

  lemma CommitGrows(s: State, s': State, p: Pid)
    requires CanServerCommit(s, p) && s' == DoServerCommit(s, p) && ProcOk(s, p)
    requires RowInv(s.rows, s.creator, s.committed)
    requires forall q :: q in s.txns && q != p ==> Disjoint(s.txns[p], s.txns[q])
    ensures Grows(s, s')
    ensures forall q :: q in s.procs && q != p ==> Spares(s, s', q)
  {
    CommitKinds(s, p);
    hide SettlesOne, ReconcilesListed, ProcInv, RowInv, Grows, Spares;
    match s.procs[p]
    case Transfer(_, _, _, _) => SettlesGrows(s, s', p);
    case Poster(_, _) =>
      PostsGrow(s, s', p);
    case Netter(_, _) => ReconcilesGrows(s, s', p);
  }

  /** A call whose database transaction took effect, wherever it stands. */
  lemma CommittedTransfer(s: State, s': State, p: Pid)
    requires SettlesOne(s, p) && s' == DoServerCommit(s, p) && ProcOk(s, p) && Grows(s, s')
    ensures ProcOk(s', p)
  {
    hide NetterInv, PosterInv, Grows, Full, FinalOk, AnswerOk;
    CommittedAnswers(s, s', p);
  }

  lemma CommittedAnswers(s: State, s': State, p: Pid)
    requires Calls(s, p) && ProcOk(s, p) && Grows(s, s')
    ensures s.procs[p].pc.AtStore? ==>
      FinalOk(s.procs[p].req.key, s.procs[p].pc.answer, s'.rows, s'.creator, s'.doomed)
    ensures Late(s.procs[p].pc) && s.procs[p].pc.out.Returned? ==>
      AnswerOk(s.procs[p].req.key, s.procs[p].pc.out.answer, s'.rows, s'.creator, s'.doomed)
  {
    hide AnswerOk, StageOk, Full, NetterInv, PosterInv, Grows;
    var pc := s.procs[p].pc;
    if pc.AtStore? {
      AnswerGrows(s, s', s.procs[p].req.key, pc.answer);
    } else if Late(pc) && pc.out.Returned? {
      AnswerGrows(s, s', s.procs[p].req.key, pc.out.answer);
    }
  }

  lemma CommittedNetter(s: State, s': State, p: Pid)
    requires ReconcilesListed(s, p) && s' == DoServerCommit(s, p) && ProcOk(s, p)
    ensures ProcOk(s', p)
  {
    hide TransferInv, PosterInv, IsNetting, ClaimsOk;
  }

  lemma CommitProc(s: State, s': State, p: Pid)
    requires CanServerCommit(s, p) && s' == DoServerCommit(s, p) && ProcOk(s, p)
    requires RowInv(s.rows, s.creator, s.committed) && Grows(s, s')
    ensures ProcOk(s', p)
  {
    CommitKinds(s, p);
    hide SettlesOne, ReconcilesListed, RowInv, Grows, TransferInv, NetterInv;
    match s.procs[p]
    case Transfer(_, _, _, _) => CommittedTransfer(s, s', p);
    case Poster(_, _) =>
    case Netter(_, _) => CommittedNetter(s, s', p);
  }

  lemma CommitFrame(s: State, s': State, p: Pid)
    requires CanServerCommit(s, p) && s' == DoServerCommit(s, p)
    ensures p in s.procs && p in s.txns && s'.procs == s.procs && s'.txns == s.txns - {p} && s'.cache == s.cache
    ensures s'.creator == s.creator && s'.doomed == s.doomed && s'.committed == s.committed + {p}
  {}

  lemma OpenTxnOk(s: State, p: Pid)
    requires DbInv(s.accounts, s.rows, s.txns) && p in s.txns
    ensures TxnOk(s.accounts, s.rows, s.txns[p])
    ensures forall q :: q in s.txns && q != p ==> Disjoint(s.txns[p], s.txns[q])
  {}

  lemma CommitKeeps(opening: map<AccountId, Account>, s: State, s': State, p: Pid)
    requires Inv(opening, s) && CanServerCommit(s, p) && s' == DoServerCommit(s, p)
    ensures Inv(opening, s')
  {
    hide ProcInv, DbInv, TxnOk, Disjoint, RowInv, CacheInv, SerialInv, LogInv, Spares, Grows,
         CanServerCommit, DoServerCommit;
    CommitFrame(s, s', p);
    OpenTxnOk(s, p);
    CommitGrows(s, s', p);
    CommitDb(s, s', p);
    CommitRows(s, s', p);
    CommitSerial(opening, s, s', p);
    CommitLog(s, s', p);
    CommitProc(s, s', p);
    SparedProcs(s, s', p);
    CacheGrows(s, s', s.cache);
  }
}
