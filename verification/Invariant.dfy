/** The inductive invariant of the engine, group by group, and the lemmas that
    carry each group over a change of the parts it reads. */
module Invariant {
  import opened Types
  import opened Ledger
  import opened Netting
  import opened Protocol
  import Lifecycle

  // ------------------------------------------------- open database transactions

  /** A transaction's private view is what its entries make of the committed
      accounts, and the entries would all be accepted there one by one. */
  ghost predicate TxnOk(accounts: map<AccountId, Account>, rows: map<TxId, Row>, t: Txn) {
    && t.accts.Keys <= accounts.Keys
    && t.rows.Keys <= rows.Keys
    && TouchedBy(t.posts) <= t.accts.Keys
    && (forall a :: a in t.accts ==> t.accts[a] == AfterPosts(a, accounts[a], t.posts))
    && PostAll(accounts, t.posts).Some?
  }

  ghost predicate Disjoint(t: Txn, u: Txn) {
    t.accts.Keys !! u.accts.Keys && t.rows.Keys !! u.rows.Keys
  }

  ghost predicate DbInv(accounts: map<AccountId, Account>, rows: map<TxId, Row>, txns: map<Pid, Txn>) {
    && (forall p :: p in txns ==> TxnOk(accounts, rows, txns[p]))
    && (forall p, q :: p in txns && q in txns && p != q ==> Disjoint(txns[p], txns[q]))
  }

  lemma TxnFrame(accounts: map<AccountId, Account>, rows: map<TxId, Row>,
                 accounts': map<AccountId, Account>, rows': map<TxId, Row>, t: Txn)
    requires TxnOk(accounts, rows, t)
    requires forall a :: a in t.accts ==> a in accounts' && accounts'[a] == accounts[a]
    requires rows.Keys <= rows'.Keys
    ensures TxnOk(accounts', rows', t)
  {
    PostAllFrame(accounts, accounts', t.posts);
  }

  // ------------------------------------------------------------------------ rows

  predicate SameTransfer(row: Row, row': Row) {
    row' == row.(status := row'.status, settledAt := row'.settledAt)
  }

  predicate IsSettledRow(q: Request, row: Row) {
    row.settledAt.Some? && row == SettledRow(NewRow(q), row.settledAt.value)
  }

  predicate Settledness(row: Row) {
    row.status == TxStatus.Settled || row.status == TxStatus.Reconciled
  }

  /** A committed row is its request's, PENDING or FAILED until its creator's
      database transaction takes effect, SETTLED or RECONCILED afterwards. */
  ghost predicate RowOk(row: Row, birth: Birth, committed: set<Pid>) {
    && SameTransfer(NewRow(birth.req), row)
    && if birth.pid in committed
       then Settledness(row) && row.settledAt.Some?
       else (row.status == TxStatus.Pending || row.status == TxStatus.Failed) && row.settledAt == None
  }

  ghost predicate RowInv(rows: map<TxId, Row>, creator: map<TxId, Birth>, committed: set<Pid>) {
    && rows.Keys == creator.Keys
    && (forall r :: r in rows ==> RowOk(rows[r], creator[r], committed))
    && (forall r, r' :: r in rows && r' in rows && r != r' ==>
          rows[r].key != rows[r'].key && creator[r].pid != creator[r'].pid)
  }

  // -------------------------------------------------------------- cached answers

  /** An answer for key k: some earlier stage of the row with that key, or the
      zero transaction, and then the creator of the row with that key failed
      to begin and the row can never settle. */
  ghost predicate AnswerOk(k: Key, ans: Answer, rows: map<TxId, Row>, creator: map<TxId, Birth>, doomed: set<Pid>) {
    match ans
    case Snapshot(id, row) =>
      && id in rows && rows[id].key == k && SameTransfer(row, rows[id])
      && Lifecycle.Follows(row.status, rows[id].status)
    case NoTransaction => exists r :: r in rows && DoomedRow(r, k, rows, creator, doomed)
  }

  ghost predicate DoomedRow(r: TxId, k: Key, rows: map<TxId, Row>, creator: map<TxId, Birth>, doomed: set<Pid>)
    requires r in rows
  {
    rows[r].key == k && r in creator && creator[r].pid in doomed
  }

  /** What is cached, besides the marker, is a final result: the zero
      transaction, or a row that is FAILED, SETTLED or RECONCILED for good. */
  ghost predicate FinalOk(k: Key, ans: Answer, rows: map<TxId, Row>, creator: map<TxId, Birth>, doomed: set<Pid>) {
    && AnswerOk(k, ans, rows, creator, doomed)
    && (ans.Snapshot? ==> ans.row.status == TxStatus.Failed || Settledness(ans.row))
  }

  ghost predicate CacheInv(cache: map<Key, Cached>, rows: map<TxId, Row>, creator: map<TxId, Birth>, doomed: set<Pid>) {
    forall k :: k in cache && cache[k].Final? ==> FinalOk(k, cache[k].answer, rows, creator, doomed)
  }

  // ------------------------------------------------------------------- processes

  predicate Early(pc: Pc) {
    pc.AtLookup? || pc.AtAcquire? || pc.AtRecheck? || pc.AtReadSource? || pc.AtReadDestination?
    || pc.AtReadClearing? || pc.AtCreate? || pc.AtDuplicate?
  }

  predicate Late(pc: Pc) {
    pc.AtExit? || pc.AtDone?
  }

  /** Everything a transfer's database transaction must have done to commit. */
  predicate Full(id: TxId, q: Request, t: Txn) {
    && t.posts == Legs(id, q)
    && t.rows.Keys == {id} && IsSettledRow(q, t.rows[id])
  }

  predicate StageOk(pc: Pc, id: TxId, q: Request, t: Txn) {
    && !t.sent
    && match pc
       case AtLeg1 => t.posts == [] && t.rows == map[]
       case AtMarkProcessing => t.posts == [ClearingEntry(id, q)] && t.rows == map[]
       case AtLeg2 => t.posts == [ClearingEntry(id, q)] && t.rows == map[id := NewRow(q).(status := TxStatus.Processing)]
       case AtMarkSettled => t.posts == Legs(id, q) && t.rows == map[id := NewRow(q).(status := TxStatus.Processing)]
       case AtSendCommit(row) => Full(id, q, t) && t.rows[id] == row
       case _ => true
  }

  ghost predicate Born(p: Pid, q: Request, id: TxId, rows: map<TxId, Row>, creator: map<TxId, Birth>) {
    id in rows && id in creator && creator[id] == Birth(p, q)
  }

  /** Invariant of one Transfer call: txn is its open database transaction, if
      any; done and dead say whether it took effect or failed to begin. */
  ghost predicate TransferInv(
    p: Pid, q: Request, pc: Pc, holds: bool, id: TxId, txn: Option<Txn>, done: bool, dead: bool,
    rows: map<TxId, Row>, creator: map<TxId, Birth>, doomed: set<Pid>)
  {
    && ValidRequest(q)
    && (holds || pc.AtLookup? || pc.AtAcquire? || pc.AtRecheck? ==> q.cached)
    && (Early(pc) ==> txn == None && !done && !dead && forall r :: r in creator ==> creator[r].pid != p)
    && (!Early(pc) && !Late(pc) ==> Born(p, q, id, rows, creator))
    && (pc.AtBegin? || InTxn(pc) ==> !done && !dead && rows[id].status == TxStatus.Pending)
    && (pc.AtBegin? ==> txn == None)
    && (InTxn(pc) && txn.Some? ==> StageOk(pc, id, q, txn.value))
    && (pc.AtSendCommit? ==> IsSettledRow(q, pc.row))
    && (pc.AtSent? ==> !dead && IsSettledRow(q, pc.row) && (txn.Some? ==> txn.value.sent))
    && (txn.Some? ==> !done && !dead && Born(p, q, id, rows, creator))
    && (txn.Some? && txn.value.sent ==> Full(id, q, txn.value) && rows[id].status == TxStatus.Pending)
    && ((pc.AtFailRow? || pc.AtFetch?) && !pc.begun ==> dead)
    && (dead ==> !done)
    && (pc.AtFetch? ==> rows[id].status == TxStatus.Failed || Settledness(rows[id]))
    && (pc.AtStore? ==> FinalOk(q.key, pc.answer, rows, creator, doomed) && (pc.settled ==> pc.answer.Snapshot?))
    && (Late(pc) && pc.out.Returned? ==> AnswerOk(q.key, pc.out.answer, rows, creator, doomed))
  }

  ghost predicate PosterInv(e: Entry, stage: PostStage, txn: Option<Txn>, done: bool) {
    && e.origin == None
    && (txn.Some? ==>
          var t := txn.value;
          && !done && t.rows == map[] && (t.sent <==> stage == PostSent)
          && t.posts == if stage == PostDue then [] else [e])
  }

  /** The listed rows, as they stand in the committed database: still SETTLED,
      or reconciled since, by this run or another. */
  ghost predicate ListedOk(listed: seq<Listed>, rows: map<TxId, Row>) {
    && DistinctIds(listed)
    && forall l :: l in listed ==>
         && l.id in rows && l.row.status == TxStatus.Settled && l.row.settledAt.Some?
         && (rows[l.id] == l.row || rows[l.id] == l.row.(status := TxStatus.Reconciled))
  }

  ghost predicate ClaimsOk(listed: seq<Listed>, t: Txn, rows: map<TxId, Row>) {
    && t.rows.Keys <= IdsOf(listed)
    && forall l :: l in listed && l.id in t.rows ==>
         l.id in rows && rows[l.id] == l.row && t.rows[l.id] == l.row.(status := TxStatus.Reconciled)
  }

  ghost predicate NetterInv(run: RunStage, txn: Option<Txn>, done: bool, rows: map<TxId, Row>) {
    && (!run.Listing? ==> ListedOk(run.listed, rows) && IsNetting(FlowsOf(run.listed), run.positions))
    && (txn.Some? ==>
          var t := txn.value;
          && !done && t.posts == [] && (t.sent <==> run.RunSent?)
          && match run
             case Listing => t.rows == map[]
             case Updating(listed, _, todo) => ClaimsOk(listed, t, rows) && t.rows.Keys !! todo && todo <= IdsOf(listed)
             case RunSent(listed, _) => ClaimsOk(listed, t, rows) && t.rows.Keys == IdsOf(listed))
  }

  ghost predicate ProcInv(
    p: Pid, proc: Proc, txn: Option<Txn>, done: bool, dead: bool,
    rows: map<TxId, Row>, creator: map<TxId, Birth>, doomed: set<Pid>)
  {
    match proc
    case Transfer(q, pc, holds, id) => TransferInv(p, q, pc, holds, id, txn, done, dead, rows, creator, doomed)
    case Poster(e, stage) => PosterInv(e, stage, txn, done)
    case Netter(_, run) => NetterInv(run, txn, done, rows)
  }

  function TxnOf(txns: map<Pid, Txn>, p: Pid): Option<Txn> {
    if p in txns then Some(txns[p]) else None
  }

  ghost predicate ProcOk(s: State, p: Pid)
    requires p in s.procs
  {
    ProcInv(p, s.procs[p], TxnOf(s.txns, p), p in s.committed, p in s.doomed, s.rows, s.creator, s.doomed)
  }

  // --------------------------------------------------------------------- history

  /** The committed database is what the committed units make of the opening
      accounts when they are executed one at a time, in commit order. */
  ghost predicate SerialInv(
    opening: map<AccountId, Account>, accounts: map<AccountId, Account>, journal: seq<Entry>, log: seq<Unit>)
  {
    Replay(opening, Events(log)) == Some(accounts) && JournalOf(Events(log)) == journal
  }

  ghost predicate UnitOk(u: Unit, rows: map<TxId, Row>, creator: map<TxId, Birth>) {
    match u
    case SettleUnit(id, q) => id in rows && id in creator && creator[id].req == q && Settledness(rows[id])
    case PostUnit(e) => e.origin == None
    case StatusUnit(_, _) => true
    case NettingUnit(listed, positions) =>
      && DistinctIds(listed) && IsNetting(FlowsOf(listed), positions)
      && forall l :: l in listed ==>
           l.id in rows && l.row.status == TxStatus.Settled && rows[l.id] == l.row.(status := TxStatus.Reconciled)
  }

  ghost predicate LogInv(log: seq<Unit>, rows: map<TxId, Row>, creator: map<TxId, Birth>) {
    && (forall u :: u in log ==> UnitOk(u, rows, creator))
    && SettledOnce(log) && ReconciledOnce(log)
    && (forall r :: r in rows && Settledness(rows[r]) ==> r in SettledIn(log))
    && (forall r :: r in rows && rows[r].status == TxStatus.Reconciled ==> r in ReconciledIn(log))
  }

  ghost predicate Inv(opening: map<AccountId, Account>, s: State) {
    && DbInv(s.accounts, s.rows, s.txns)
    && RowInv(s.rows, s.creator, s.committed)
    && CacheInv(s.cache, s.rows, s.creator, s.doomed)
    && s.txns.Keys <= s.procs.Keys
    && s.committed <= s.procs.Keys && s.doomed <= s.procs.Keys
    && (forall r :: r in s.creator ==> s.creator[r].pid in s.procs && s.procs[s.creator[r].pid].Transfer?)
    && (forall p :: p in s.procs ==> ProcOk(s, p))
    && SerialInv(opening, s.accounts, s.journal, s.log)
    && LogInv(s.log, s.rows, s.creator)
  }

  lemma InitialInv(opening: map<AccountId, Account>)
    ensures Inv(opening, InitialState(opening))
  {}

  // ----------------------------------------------------------------- monotonicity

  /** The changes of a committed row's status that one step can make. */
  predicate Moves(a: TxStatus, b: TxStatus) {
    || a == b
    || (a == TxStatus.Pending && (b == TxStatus.Failed || b == TxStatus.Settled))
    || (a == TxStatus.Settled && b == TxStatus.Reconciled)
  }

  /** Rows are never deleted, keep their transfer, and move along the table of
      allowed transitions; history only grows. */
  ghost predicate Grows(s: State, s': State) {
    && (forall r :: r in s.rows ==>
          && r in s'.rows && SameTransfer(s.rows[r], s'.rows[r])
          && Moves(s.rows[r].status, s'.rows[r].status)
          && (s.rows[r].settledAt.Some? ==> s'.rows[r].settledAt == s.rows[r].settledAt))
    && (forall r :: r in s.creator ==> r in s'.creator && s'.creator[r] == s.creator[r])
    && s.doomed <= s'.doomed
  }

  lemma FollowsTransitive(a: TxStatus, b: TxStatus, c: TxStatus)
    requires Lifecycle.Follows(a, b) && Lifecycle.Follows(b, c)
    ensures Lifecycle.Follows(a, c)
  {}

  lemma AnswerGrows(s: State, s': State, k: Key, ans: Answer)
    requires Grows(s, s') && AnswerOk(k, ans, s.rows, s.creator, s.doomed)
    ensures AnswerOk(k, ans, s'.rows, s'.creator, s'.doomed)
  {
    match ans
    case Snapshot(id, row) =>
      FollowsTransitive(row.status, s.rows[id].status, s'.rows[id].status);
    case NoTransaction =>
      var r :| r in s.rows && DoomedRow(r, k, s.rows, s.creator, s.doomed);
      assert r in s'.rows && DoomedRow(r, k, s'.rows, s'.creator, s'.doomed);
  }

  lemma CacheGrows(s: State, s': State, cache: map<Key, Cached>)
    requires Grows(s, s') && CacheInv(cache, s.rows, s.creator, s.doomed)
    ensures CacheInv(cache, s'.rows, s'.creator, s'.doomed)
  {
    forall k | k in cache && cache[k].Final?
      ensures FinalOk(k, cache[k].answer, s'.rows, s'.creator, s'.doomed)
    {
      AnswerGrows(s, s', k, cache[k].answer);
    }
  }

  /** What a step of one process may do to another, q: rows q created change
      only once they are SETTLED, and rows q has locked not at all. */
  ghost predicate Spares(s: State, s': State, q: Pid)
    requires q in s.procs
  {
    && Grows(s, s')
    && q in s'.procs && s'.procs[q] == s.procs[q]
    && TxnOf(s'.txns, q) == TxnOf(s.txns, q)
    && (q in s'.committed <==> q in s.committed)
    && (q in s'.doomed <==> q in s.doomed)
    && (forall r :: r in s'.creator && r !in s.creator ==> s'.creator[r].pid != q)
    && (forall r :: r in s.rows && r in s.creator && s.creator[r].pid == q && s.rows[r].status == TxStatus.Pending ==>
          s'.rows[r].status == TxStatus.Pending)
    && (q in s.txns ==> forall r :: r in s.txns[q].rows && r in s.rows ==> s'.rows[r] == s.rows[r])
  }

  lemma SparedTransfer(s: State, s': State, p: Pid)
    requires p in s.procs && s.procs[p].Transfer? && ProcOk(s, p) && Spares(s, s', p)
    ensures ProcOk(s', p)
  {
    var proc := s.procs[p];
    if proc.pc.AtStore? {
      AnswerGrows(s, s', proc.req.key, proc.pc.answer);
    }
    if Late(proc.pc) && proc.pc.out.Returned? {
      AnswerGrows(s, s', proc.req.key, proc.pc.out.answer);
    }
  }

  lemma SparedNetter(s: State, s': State, p: Pid)
    requires p in s.procs && s.procs[p].Netter? && ProcOk(s, p) && Spares(s, s', p)
    ensures ProcOk(s', p)
  {}

  lemma SparedProcs(s: State, s': State, p: Pid)
    requires forall q :: q in s.procs ==> ProcOk(s, q)
    requires forall q :: q in s.procs && q != p ==> Spares(s, s', q)
    ensures forall q :: q in s.procs && q != p ==> q in s'.procs && ProcOk(s', q)
  {
    forall q | q in s.procs && q != p ensures q in s'.procs && ProcOk(s', q) {
      match s.procs[q]
      case Transfer(_, _, _, _) => SparedTransfer(s, s', q);
      case Poster(_, _) =>
      case Netter(_, _) => SparedNetter(s, s', q);
    }
  }

  /** The answers the fail-step of p may come to hold: the row as it is, once it
      is no longer PENDING, or the zero transaction. */
  lemma FailAnswer(p: Pid, q: Request, id: TxId, rows: map<TxId, Row>, creator: map<TxId, Birth>, committed: set<Pid>, doomed: set<Pid>)
    requires Born(p, q, id, rows, creator) && RowOk(rows[id], creator[id], committed)
    ensures p in doomed ==> FinalOk(q.key, NoTransaction, rows, creator, doomed)
    ensures rows[id].status != TxStatus.Pending ==> FinalOk(q.key, Snapshot(id, rows[id]), rows, creator, doomed)
    ensures !Failable(rows[id]) ==> rows[id].status == TxStatus.Failed || Settledness(rows[id])
  {
    assert p in doomed ==> DoomedRow(id, q.key, rows, creator, doomed);
  }
}
