/** The engine as a state machine. Any number of transfers, single posts and
    netting runs interleave at the level of one database statement, one cache
    command or one server decision; account statuses change and cache entries
    expire at any time.

    A database transaction keeps its writes private until it commits. It holds a
    row lock on every account and transaction row of its private view. A commit
    is sent, takes effect (or not) at the server, and is reported (or not) to
    the caller as three separate steps; statements and cache commands may fail
    with or without having taken effect. Isolation conflicts, deadlock victims
    and lost connections are ServerAbort and GiveUp steps, enabled at any time. */
module Protocol {
  import opened Types
  import opened Ledger
  import opened Netting

  // ------------------------------------------------------------------ the state

  /** An open database transaction: its view of the accounts and transaction
      rows it has locked, the entries it has inserted, and whether the client
      has sent COMMIT. */
  datatype Txn = Txn(accts: map<AccountId, Account>, posts: seq<Entry>, rows: map<TxId, Row>, sent: bool)

  const EMPTY_TXN: Txn := Txn(map[], [], map[], false)

  /** A transaction as a caller or the cache sees it; NoTransaction is the zero
      value that a failed begin followed by a failed fail-step leaves. */
  datatype Answer = NoTransaction | Snapshot(id: TxId, row: Row)

  datatype Cached = Marker | Final(answer: Answer)

  datatype Outcome = Returned(answer: Answer) | InProgress | Failure | Crashed

  /** Where a Transfer call stands. */
  datatype Pc =
    | AtLookup | AtAcquire | AtRecheck
    | AtReadSource | AtReadDestination(src: Account) | AtReadClearing(src: Account, dst: Account)
    | AtCreate | AtDuplicate
    | AtBegin | AtLeg1 | AtMarkProcessing | AtLeg2 | AtMarkSettled | AtSendCommit(row: Row)
    | AtSent(row: Row)
    | AtFailRow(begun: bool) | AtFetch(begun: bool) | AtStore(answer: Answer, settled: bool)
    | AtExit(out: Outcome) | AtDone(out: Outcome)

  datatype PostStage = PostDue | PostMade | PostSent

  datatype Filter = Filter(start: int, end: int, currency: Currency)

  datatype Listed = Listed(id: TxId, row: Row)

  datatype RunStage =
    | Listing
    | Updating(listed: seq<Listed>, positions: seq<NetPosition>, todo: set<TxId>)
    | RunSent(listed: seq<Listed>, positions: seq<NetPosition>)

  // holds is idemLocked; id is the created transaction's, once there is one.
  datatype Proc =
    | Transfer(req: Request, pc: Pc, holds: bool, id: TxId)
    | Poster(entry: Entry, stage: PostStage)
    | Netter(filter: Filter, run: RunStage)

  /** One committed unit of work. */
  datatype Unit =
    | SettleUnit(id: TxId, req: Request)
    | PostUnit(entry: Entry)
    | StatusUnit(account: AccountId, status: AccountStatus)
    | NettingUnit(listed: seq<Listed>, positions: seq<NetPosition>)

  datatype Birth = Birth(pid: Pid, req: Request)

  /** accounts, journal and rows are the committed database; the last four
      fields are history: who created each row, which processes' transactions
      took effect, which failed to begin one, and the committed units in order. */
  datatype State = State(
    accounts: map<AccountId, Account>, journal: seq<Entry>, rows: map<TxId, Row>,
    txns: map<Pid, Txn>, cache: map<Key, Cached>, procs: map<Pid, Proc>,
    creator: map<TxId, Birth>, committed: set<Pid>, doomed: set<Pid>, log: seq<Unit>)

  function InitialState(opening: map<AccountId, Account>): State {
    State(opening, [], map[], map[], map[], map[], map[], {}, {}, [])
  }

  // ------------------------------------------------------------------ the steps

  /** Fine: done and reported. Lost: done, but the caller sees an error.
      Broken: not done, and the caller sees an error. */
  datatype Fault = Fine | Lost | Broken

  datatype Label =
    | Arrive(p: Pid, proc: Proc)
    | Expire(k: Key)
    | SetStatus(a: AccountId, st: AccountStatus)
    | Get(p: Pid, ok: bool)
    | SetNX(p: Pid, f: Fault)
    | Reget(p: Pid, ok: bool)
    | ReadSource(p: Pid, ok: bool)
    | ReadDestination(p: Pid, ok: bool)
    | ReadClearing(p: Pid, ok: bool)
    | Insert(p: Pid, id: TxId, f: Fault)
    | FindExisting(p: Pid, id: TxId, ok: bool)
    | BeginTx(p: Pid, ok: bool)
    | Lock(p: Pid, a: AccountId)
    | PostEntry(p: Pid)
    | MarkProcessing(p: Pid)
    | MarkSettled(p: Pid, now: int)
    | SendCommit(p: Pid)
    | GiveUp(p: Pid)
    | ServerCommit(p: Pid)
    | ServerAbort(p: Pid)
    | Ack(p: Pid)
    | CommitError(p: Pid)
    | FailRow(p: Pid, f: Fault)
    | Fetch(p: Pid, ok: bool)
    | StoreAnswer(p: Pid, f: Fault)
    | Unlock(p: Pid, ok: bool)
    | Crash(p: Pid)
    | ListRows(p: Pid, rows: seq<Listed>, positions: seq<NetPosition>)
    | Claim(p: Pid, r: TxId)
    | FinishRun(p: Pid)

  /** White space, as strings.TrimSpace strips it. */
  predicate IsSpace(ch: char) {
    || ch in {' ', '\t', '\n', '\U{000B}', '\U{000C}', '\r', '\U{0085}', '\U{00A0}', '\U{1680}'}
    || '\U{2000}' <= ch <= '\U{200A}'
    || ch in {'\U{2028}', '\U{2029}', '\U{202F}', '\U{205F}', '\U{3000}'}
  }

  /** Blanks, tabs and line ends are white space, and no printing ASCII character is. */
  lemma SpacesAndInk(ch: char)
    ensures ch in {' ', '\t', '\n', '\r'} ==> IsSpace(ch)
    ensures '!' <= ch <= '~' ==> !IsSpace(ch)
  {}

  predicate Blank(s: string) {
    forall i :: 0 <= i < |s| ==> IsSpace(s[i])
  }

  /** validateTransferRequest; other requests end before any effect. */
  predicate ValidRequest(q: Request) {
    && !Blank(q.key) && !Blank(q.currency)
    && q.from != NIL_ACCOUNT && q.to != NIL_ACCOUNT && q.from != q.to && q.amount > 0
  }

  predicate Incoming(proc: Proc) {
    match proc
    case Transfer(q, pc, holds, _) =>
      ValidRequest(q) && !holds && pc == if q.cached then AtLookup else AtReadSource
    case Poster(e, stage) => e.origin == None && stage == PostDue
    case Netter(_, run) => run == Listing
  }

  function NewRow(q: Request): Row {
    Row(q.key, q.from, q.to, q.amount, q.currency, TxStatus.Pending, None)
  }

  function SettledRow(row: Row, now: int): Row {
    row.(status := TxStatus.Settled, settledAt := Some(now))
  }

  /** The checks Transfer makes on the snapshots of source and destination. */
  predicate SnapshotsPass(q: Request, src: Account, dst: Account) {
    && src.currency == q.currency && dst.currency == q.currency
    && src.status == Active && dst.status == Active
    && src.balance >= q.amount
  }

  predicate KeyTaken(rows: map<TxId, Row>, k: Key) {
    exists r :: r in rows && rows[r].key == k
  }

  predicate AccountFree(txns: map<Pid, Txn>, a: AccountId) {
    forall p :: p in txns ==> a !in txns[p].accts
  }

  predicate RowFree(txns: map<Pid, Txn>, r: TxId) {
    forall p :: p in txns ==> r !in txns[p].rows
  }

  /** The accounts of the post a process is about to make. */
  function WantedBy(proc: Proc): set<AccountId> {
    if proc.Transfer? && proc.pc == AtLeg1 then {proc.req.from, proc.req.clearing}
    else if proc.Transfer? && proc.pc == AtLeg2 then {proc.req.clearing, proc.req.to}
    else if proc.Poster? && proc.stage == PostDue then Touched(proc.entry.lines)
    else {}
  }

  function Missing(s: State, p: Pid): set<AccountId>
    requires p in s.procs && p in s.txns
  {
    WantedBy(s.procs[p]) * s.accounts.Keys - s.txns[p].accts.Keys
  }

  function EntryDue(proc: Proc): Option<Entry> {
    if proc.Transfer? && proc.pc == AtLeg1 then Some(ClearingEntry(proc.id, proc.req))
    else if proc.Transfer? && proc.pc == AtLeg2 then Some(SettlementEntry(proc.id, proc.req))
    else if proc.Poster? && proc.stage == PostDue then Some(proc.entry)
    else None
  }

  predicate Selected(row: Row, f: Filter) {
    && row.status == TxStatus.Settled
    && row.settledAt.Some? && f.start <= row.settledAt.value < f.end
    && (f.currency == "" || row.currency == f.currency)
  }

  function IdsOf(listed: seq<Listed>): set<TxId> {
    set l | l in listed :: l.id
  }

  lemma IdsOfSnoc(listed: seq<Listed>, l: Listed)
    ensures IdsOf(listed + [l]) == IdsOf(listed) + {l.id}
  {
    assert l in listed + [l];
    assert forall k :: k in listed ==> k in listed + [l];
  }

  ghost predicate DistinctIds(listed: seq<Listed>) {
    forall i, j :: 0 <= i < j < |listed| ==> listed[i].id != listed[j].id
  }

  /** The result of the listing query: the selected rows, each once, by settling
      time and then id. */
  ghost predicate IsListing(rows: map<TxId, Row>, f: Filter, listed: seq<Listed>) {
    && DistinctIds(listed)
    && (forall l :: l in listed ==> l.id in rows && rows[l.id] == l.row)
    && (forall r :: r in rows ==> (Selected(rows[r], f) <==> r in IdsOf(listed)))
    && (forall i, j :: 0 <= i < j < |listed| ==>
          && listed[i].row.settledAt.Some? && listed[j].row.settledAt.Some?
          && (listed[i].row.settledAt.value < listed[j].row.settledAt.value
              || (listed[i].row.settledAt == listed[j].row.settledAt && listed[i].id < listed[j].id)))
  }

  function FlowsOf(listed: seq<Listed>): (fs: seq<Flow>)
    ensures |fs| == |listed|
    ensures forall i :: 0 <= i < |listed| ==>
      fs[i] == Flow(listed[i].row.from, listed[i].row.to, listed[i].row.amount, listed[i].row.currency)
  {
    seq(|listed|, i requires 0 <= i < |listed| =>
      Flow(listed[i].row.from, listed[i].row.to, listed[i].row.amount, listed[i].row.currency))
  }

  predicate Is(s: State, p: Pid, pc: Pc) {
    p in s.procs && s.procs[p].Transfer? && s.procs[p].pc == pc
  }

  predicate InTxn(pc: Pc) {
    pc.AtLeg1? || pc.AtMarkProcessing? || pc.AtLeg2? || pc.AtMarkSettled? || pc.AtSendCommit?
  }

  // Each step is a guard and an effect.

  predicate Calls(s: State, p: Pid) {
    p in s.procs && s.procs[p].Transfer?
  }

  function Goto(s: State, p: Pid, pc: Pc): State
    requires Calls(s, p)
  {
    s.(procs := s.procs[p := s.procs[p].(pc := pc)])
  }

  function DoArrive(s: State, p: Pid, proc: Proc): State {
    var s1 := s.(procs := s.procs[p := proc]);
    if proc.Transfer? then s1 else s1.(txns := s.txns[p := EMPTY_TXN])
  }

  function DoSetStatus(s: State, a: AccountId, st: AccountStatus): State
    requires a in s.accounts
  {
    s.(accounts := s.accounts[a := s.accounts[a].(status := st, version := s.accounts[a].version + 1)],
       log := s.log + [StatusUnit(a, st)])
  }

  /** What a call does with a cached value. */
  function OnCached(c: Cached): Pc {
    match c
    case Marker => AtExit(InProgress)
    case Final(ans) => AtExit(Returned(ans))
  }

  function DoGet(s: State, p: Pid, ok: bool): State
    requires Is(s, p, AtLookup)
  {
    var k := s.procs[p].req.key;
    Goto(s, p, if !ok then AtExit(Failure) else if k in s.cache then OnCached(s.cache[k]) else AtAcquire)
  }

  function DoSetNX(s: State, p: Pid, f: Fault): State
    requires Is(s, p, AtAcquire)
  {
    var proc, k := s.procs[p], s.procs[p].req.key;
    if f == Broken then Goto(s, p, AtExit(Failure))
    else if k in s.cache then Goto(s, p, if f == Fine then AtRecheck else AtExit(Failure))
    else
      var proc' := if f == Fine then proc.(pc := AtReadSource, holds := true) else proc.(pc := AtExit(Failure));
      s.(cache := s.cache[k := Marker], procs := s.procs[p := proc'])
  }

  function DoReget(s: State, p: Pid, ok: bool): State
    requires Is(s, p, AtRecheck)
  {
    var k := s.procs[p].req.key;
    Goto(s, p, if ok && k in s.cache then OnCached(s.cache[k]) else AtExit(InProgress))
  }

  function DoReadSource(s: State, p: Pid, ok: bool): State
    requires Is(s, p, AtReadSource)
  {
    var a := s.procs[p].req.from;
    Goto(s, p, if ok && a in s.accounts then AtReadDestination(s.accounts[a]) else AtExit(Failure))
  }

  predicate CanReadDestination(s: State, p: Pid) {
    Calls(s, p) && s.procs[p].pc.AtReadDestination?
  }

  function DoReadDestination(s: State, p: Pid, ok: bool): State
    requires CanReadDestination(s, p)
  {
    var a := s.procs[p].req.to;
    Goto(s, p, if ok && a in s.accounts then AtReadClearing(s.procs[p].pc.src, s.accounts[a]) else AtExit(Failure))
  }

  predicate CanReadClearing(s: State, p: Pid) {
    Calls(s, p) && s.procs[p].pc.AtReadClearing?
  }

  function DoReadClearing(s: State, p: Pid, ok: bool): State
    requires CanReadClearing(s, p)
  {
    var q, pc := s.procs[p].req, s.procs[p].pc;
    var pass := ok && SnapshotsPass(q, pc.src, pc.dst) && q.clearing in s.accounts
      && s.accounts[q.clearing].currency == q.currency && s.accounts[q.clearing].status == Active;
    Goto(s, p, if pass then AtCreate else AtExit(Failure))
  }

  function DoInsert(s: State, p: Pid, id: TxId, f: Fault): State
    requires Is(s, p, AtCreate)
  {
    var q := s.procs[p].req;
    if f == Broken then Goto(s, p, AtExit(Failure))
    else if KeyTaken(s.rows, q.key) then Goto(s, p, if f == Fine then AtDuplicate else AtExit(Failure))
    else if q.from !in s.accounts || q.to !in s.accounts then Goto(s, p, AtExit(Failure))
    else
      s.(rows := s.rows[id := NewRow(q)], creator := s.creator[id := Birth(p, q)],
         procs := s.procs[p := s.procs[p].(pc := if f == Fine then AtBegin else AtExit(Failure), id := id)])
  }

  predicate CanFindExisting(s: State, p: Pid, id: TxId, ok: bool) {
    Is(s, p, AtDuplicate) && (ok ==> id in s.rows && s.rows[id].key == s.procs[p].req.key)
  }

  function DoFindExisting(s: State, p: Pid, id: TxId, ok: bool): State
    requires CanFindExisting(s, p, id, ok)
  {
    Goto(s, p, AtExit(if ok then Returned(Snapshot(id, s.rows[id])) else Failure))
  }

  function DoBeginTx(s: State, p: Pid, ok: bool): State
    requires Is(s, p, AtBegin)
  {
    if ok then Goto(s, p, AtLeg1).(txns := s.txns[p := EMPTY_TXN])
    else Goto(s, p, AtFailRow(false)).(doomed := s.doomed + {p})
  }

  predicate Runs(s: State, p: Pid) {
    p in s.procs && p in s.txns
  }

  predicate CanLock(s: State, p: Pid, a: AccountId) {
    Runs(s, p) && Missing(s, p) != {} && a == Min(Missing(s, p)) && AccountFree(s.txns, a)
  }

  function DoLock(s: State, p: Pid, a: AccountId): State
    requires CanLock(s, p, a)
  {
    s.(txns := s.txns[p := s.txns[p].(accts := s.txns[p].accts[a := s.accounts[a]])])
  }

  predicate CanPost(s: State, p: Pid) {
    && Runs(s, p) && EntryDue(s.procs[p]).Some?
    && Missing(s, p) == {} && PostOk(s.txns[p].accts, EntryDue(s.procs[p]).value)
  }

  function AfterPost(proc: Proc): Proc {
    match proc
    case Transfer(_, pc, _, _) => proc.(pc := if pc == AtLeg1 then AtMarkProcessing else AtMarkSettled)
    case Poster(_, _) => proc.(stage := PostMade)
    case Netter(_, _) => proc
  }

  function DoPost(s: State, p: Pid): State
    requires CanPost(s, p)
  {
    var e, t := EntryDue(s.procs[p]).value, s.txns[p];
    s.(txns := s.txns[p := t.(accts := Apply(t.accts, e), posts := t.posts + [e])],
       procs := s.procs[p := AfterPost(s.procs[p])])
  }

  /** The first guarded status update reads the committed row, which must be
      free to lock. */
  predicate CanMarkProcessing(s: State, p: Pid) {
    && Is(s, p, AtMarkProcessing) && p in s.txns
    && s.procs[p].id in s.rows && RowFree(s.txns, s.procs[p].id)
    && s.rows[s.procs[p].id].status == TxStatus.Pending
  }

  function DoMarkProcessing(s: State, p: Pid): State
    requires CanMarkProcessing(s, p)
  {
    var id, t := s.procs[p].id, s.txns[p];
    Goto(s, p, AtLeg2).(txns := s.txns[p := t.(rows := t.rows[id := s.rows[id].(status := TxStatus.Processing)])])
  }

  predicate CanMarkSettled(s: State, p: Pid) {
    && Is(s, p, AtMarkSettled) && p in s.txns && s.procs[p].id in s.txns[p].rows
    && s.txns[p].rows[s.procs[p].id].status == TxStatus.Processing
  }

  function DoMarkSettled(s: State, p: Pid, now: int): State
    requires CanMarkSettled(s, p)
  {
    var id, t := s.procs[p].id, s.txns[p];
    var row := SettledRow(t.rows[id], now);
    Goto(s, p, AtSendCommit(row)).(txns := s.txns[p := t.(rows := t.rows[id := row])])
  }

  predicate CanSendCommit(s: State, p: Pid) {
    && Runs(s, p)
    && match s.procs[p]
       case Transfer(_, pc, _, _) => pc.AtSendCommit?
       case Poster(_, stage) => stage == PostMade
       case Netter(_, _) => false
  }

  function AfterSend(proc: Proc): Proc
    requires proc.Transfer? ==> proc.pc.AtSendCommit?
  {
    match proc
    case Transfer(_, pc, _, _) => proc.(pc := AtSent(pc.row))
    case Poster(_, _) => proc.(stage := PostSent)
    case Netter(_, _) => proc
  }

  function DoSendCommit(s: State, p: Pid): State
    requires CanSendCommit(s, p)
  {
    s.(txns := s.txns[p := s.txns[p].(sent := true)], procs := s.procs[p := AfterSend(s.procs[p])])
  }

  predicate CanGiveUp(s: State, p: Pid) {
    Calls(s, p) && InTxn(s.procs[p].pc)
  }

  function UnitOf(proc: Proc): Unit
    requires proc.Netter? ==> proc.run.RunSent?
  {
    match proc
    case Transfer(q, _, _, id) => SettleUnit(id, q)
    case Poster(e, _) => PostUnit(e)
    case Netter(_, run) => NettingUnit(run.listed, run.positions)
  }

  predicate CanServerCommit(s: State, p: Pid) {
    Runs(s, p) && s.txns[p].sent && (s.procs[p].Netter? ==> s.procs[p].run.RunSent?)
  }

  /** The private writes of p become the committed state, all at once. */
  function DoServerCommit(s: State, p: Pid): State
    requires CanServerCommit(s, p)
  {
    var t := s.txns[p];
    s.(accounts := s.accounts + t.accts, journal := s.journal + t.posts, rows := s.rows + t.rows,
       txns := s.txns - {p}, committed := s.committed + {p}, log := s.log + [UnitOf(s.procs[p])])
  }

  predicate CanAck(s: State, p: Pid) {
    Calls(s, p) && s.procs[p].pc.AtSent? && p in s.committed
  }

  function DoAck(s: State, p: Pid): State
    requires CanAck(s, p)
  {
    Goto(s, p, AtStore(Snapshot(s.procs[p].id, s.procs[p].pc.row), true))
  }

  predicate CanCommitError(s: State, p: Pid) {
    Calls(s, p) && s.procs[p].pc.AtSent?
  }

  predicate Failable(row: Row) {
    row.status == TxStatus.Pending || row.status == TxStatus.Processing
  }

  predicate CanFailRow(s: State, p: Pid, f: Fault) {
    && Calls(s, p) && s.procs[p].pc.AtFailRow? && s.procs[p].id in s.rows
    && (Failable(s.rows[s.procs[p].id]) && f != Broken ==> RowFree(s.txns, s.procs[p].id))
  }

  /** Where an error of the fail-step leads: out, or, when the database
      transaction never began, on to caching the zero transaction. */
  function OnFailError(begun: bool): Pc {
    if begun then AtExit(Failure) else AtStore(NoTransaction, false)
  }

  function DoFailRow(s: State, p: Pid, f: Fault): State
    requires CanFailRow(s, p, f)
  {
    var id, begun := s.procs[p].id, s.procs[p].pc.begun;
    if f == Broken then Goto(s, p, OnFailError(begun))
    else if !Failable(s.rows[id]) then Goto(s, p, if f == Fine then AtFetch(begun) else OnFailError(begun))
    else
      var row := s.rows[id].(status := TxStatus.Failed);
      Goto(s, p, if f == Fine then AtStore(Snapshot(id, row), false) else OnFailError(begun)).(rows := s.rows[id := row])
  }

  predicate CanFetch(s: State, p: Pid) {
    Calls(s, p) && s.procs[p].pc.AtFetch? && s.procs[p].id in s.rows
  }

  function DoFetch(s: State, p: Pid, ok: bool): State
    requires CanFetch(s, p)
  {
    var id := s.procs[p].id;
    Goto(s, p, if ok then AtStore(Snapshot(id, s.rows[id]), false) else OnFailError(s.procs[p].pc.begun))
  }

  predicate CanStore(s: State, p: Pid) {
    Calls(s, p) && s.procs[p].pc.AtStore?
  }

  function DoStore(s: State, p: Pid, f: Fault): State
    requires CanStore(s, p)
  {
    var proc := s.procs[p];
    var failed := proc.req.cached && f != Fine;
    var proc' :=
      if !proc.pc.settled then proc.(pc := AtExit(Failure), holds := false)
      else if failed then proc.(pc := AtExit(Failure))
      else proc.(pc := AtExit(Returned(proc.pc.answer)), holds := false);
    s.(cache := if proc.req.cached && f != Broken then s.cache[proc.req.key := Final(proc.pc.answer)] else s.cache,
       procs := s.procs[p := proc'])
  }

  predicate CanUnlock(s: State, p: Pid) {
    Calls(s, p) && s.procs[p].pc.AtExit?
  }

  /** The deferred unlock deletes whatever the key holds by then. */
  function DoUnlock(s: State, p: Pid, ok: bool): State
    requires CanUnlock(s, p)
  {
    var proc := s.procs[p];
    Goto(s, p, AtDone(proc.pc.out)).(cache := if proc.holds && ok then s.cache - {proc.req.key} else s.cache)
  }

  predicate CanCrash(s: State, p: Pid) {
    Calls(s, p) && !s.procs[p].pc.AtDone?
  }

  predicate Nets(s: State, p: Pid) {
    Runs(s, p) && s.procs[p].Netter?
  }

  ghost predicate CanListRows(s: State, p: Pid, listed: seq<Listed>, positions: seq<NetPosition>) {
    && Nets(s, p) && s.procs[p].run == Listing
    && IsListing(s.rows, s.procs[p].filter, listed) && IsNetting(FlowsOf(listed), positions)
  }

  function DoListRows(s: State, p: Pid, listed: seq<Listed>, positions: seq<NetPosition>): State
    requires Nets(s, p)
  {
    s.(procs := s.procs[p := s.procs[p].(run := Updating(listed, positions, IdsOf(listed)))])
  }

  predicate CanClaim(s: State, p: Pid, r: TxId) {
    && Nets(s, p) && s.procs[p].run.Updating?
    && r in s.procs[p].run.todo && r in s.rows && RowFree(s.txns, r)
  }

  /** One row of the guarded bulk update: it counts only if it is still SETTLED. */
  function DoClaim(s: State, p: Pid, r: TxId): State
    requires CanClaim(s, p, r)
  {
    var run, t := s.procs[p].run, s.txns[p];
    s.(procs := s.procs[p := s.procs[p].(run := run.(todo := run.todo - {r}))],
       txns := s.txns[p :=
         if s.rows[r].status == TxStatus.Settled
         then t.(rows := t.rows[r := s.rows[r].(status := TxStatus.Reconciled)]) else t])
  }

  predicate CanFinishRun(s: State, p: Pid) {
    && Nets(s, p) && s.procs[p].run.Updating? && s.procs[p].run.todo == {}
    && |s.txns[p].rows| == |s.procs[p].run.listed|
  }

  function DoFinishRun(s: State, p: Pid): State
    requires CanFinishRun(s, p)
  {
    var run := s.procs[p].run;
    s.(procs := s.procs[p := s.procs[p].(run := RunSent(run.listed, run.positions))],
       txns := s.txns[p := s.txns[p].(sent := true)])
  }

  /** s' is the state after step l from s. */
  ghost predicate Step(s: State, l: Label, s': State) {
    match l
    case Arrive(p, proc) => p !in s.procs && Incoming(proc) && s' == DoArrive(s, p, proc)
    case Expire(k) => k in s.cache && s' == s.(cache := s.cache - {k})
    case SetStatus(a, st) => a in s.accounts && AccountFree(s.txns, a) && s' == DoSetStatus(s, a, st)
    case Get(p, ok) => Is(s, p, AtLookup) && s' == DoGet(s, p, ok)
    case SetNX(p, f) => Is(s, p, AtAcquire) && s' == DoSetNX(s, p, f)
    case Reget(p, ok) => Is(s, p, AtRecheck) && s' == DoReget(s, p, ok)
    case ReadSource(p, ok) => Is(s, p, AtReadSource) && s' == DoReadSource(s, p, ok)
    case ReadDestination(p, ok) => CanReadDestination(s, p) && s' == DoReadDestination(s, p, ok)
    case ReadClearing(p, ok) => CanReadClearing(s, p) && s' == DoReadClearing(s, p, ok)
    case Insert(p, id, f) => Is(s, p, AtCreate) && id !in s.rows && s' == DoInsert(s, p, id, f)
    case FindExisting(p, id, ok) => CanFindExisting(s, p, id, ok) && s' == DoFindExisting(s, p, id, ok)
    case BeginTx(p, ok) => Is(s, p, AtBegin) && s' == DoBeginTx(s, p, ok)
    case Lock(p, a) => CanLock(s, p, a) && s' == DoLock(s, p, a)
    case PostEntry(p) => CanPost(s, p) && s' == DoPost(s, p)
    case MarkProcessing(p) => CanMarkProcessing(s, p) && s' == DoMarkProcessing(s, p)
    case MarkSettled(p, now) => CanMarkSettled(s, p) && s' == DoMarkSettled(s, p, now)
    case SendCommit(p) => CanSendCommit(s, p) && s' == DoSendCommit(s, p)
    case GiveUp(p) => CanGiveUp(s, p) && s' == Goto(s, p, AtFailRow(true))
    case ServerCommit(p) => CanServerCommit(s, p) && s' == DoServerCommit(s, p)
    case ServerAbort(p) => p in s.txns && s' == s.(txns := s.txns - {p})
    case Ack(p) => CanAck(s, p) && s' == DoAck(s, p)
    case CommitError(p) => CanCommitError(s, p) && s' == Goto(s, p, AtFailRow(true))
    case FailRow(p, f) => CanFailRow(s, p, f) && s' == DoFailRow(s, p, f)
    case Fetch(p, ok) => CanFetch(s, p) && s' == DoFetch(s, p, ok)
    case StoreAnswer(p, f) => CanStore(s, p) && s' == DoStore(s, p, f)
    case Unlock(p, ok) => CanUnlock(s, p) && s' == DoUnlock(s, p, ok)
    case Crash(p) => CanCrash(s, p) && s' == Goto(s, p, AtDone(Crashed))
    case ListRows(p, listed, positions) =>
      CanListRows(s, p, listed, positions) && s' == DoListRows(s, p, listed, positions)
    case Claim(p, r) => CanClaim(s, p, r) && s' == DoClaim(s, p, r)
    case FinishRun(p) => CanFinishRun(s, p) && s' == DoFinishRun(s, p)
  }

  ghost predicate SomeStep(s: State, s': State) {
    exists l :: Step(s, l, s')
  }

  /** A run of the engine from accounts with the given opening balances. */
  ghost predicate Run(opening: map<AccountId, Account>, ss: seq<State>) {
    && ss != [] && ss[0] == InitialState(opening)
    && forall i :: 0 <= i < |ss| - 1 ==> SomeStep(ss[i], ss[i + 1])
  }

  // --------------------------------------------------------- reading the history

  function EventOf(u: Unit): Event {
    match u
    case SettleUnit(id, q) => Event.Posting(Legs(id, q))
    case PostUnit(e) => Event.Posting([e])
    case StatusUnit(a, st) => StatusSet(a, st)
    case NettingUnit(_, _) => Event.Posting([])
  }

  function Events(log: seq<Unit>): seq<Event> {
    if log == [] then [] else Events(log[..|log| - 1]) + [EventOf(log[|log| - 1])]
  }

  function SettledIn(log: seq<Unit>): set<TxId> {
    if log == [] then {}
    else
      var u := log[|log| - 1];
      SettledIn(log[..|log| - 1]) + if u.SettleUnit? then {u.id} else {}
  }

  ghost predicate SettledOnce(log: seq<Unit>) {
    log == [] ||
    var init, u := log[..|log| - 1], log[|log| - 1];
    SettledOnce(init) && (u.SettleUnit? ==> u.id !in SettledIn(init))
  }

  function ReconciledIn(log: seq<Unit>): set<TxId> {
    if log == [] then {}
    else
      var u := log[|log| - 1];
      ReconciledIn(log[..|log| - 1]) + if u.NettingUnit? then IdsOf(u.listed) else {}
  }

  ghost predicate ReconciledOnce(log: seq<Unit>) {
    log == [] ||
    var init, u := log[..|log| - 1], log[|log| - 1];
    ReconciledOnce(init) && (u.NettingUnit? ==> IdsOf(u.listed) !! ReconciledIn(init))
  }
}
