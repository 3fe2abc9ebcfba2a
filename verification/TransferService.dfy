/** The transfer service for one caller at a time: the idempotency store, the
    stale snapshots, the row under its unique key, one database transaction for
    both legs and both status updates, and the compensation when it fails. Every
    call into the store or the database may report an error, with or without
    having taken effect. */
module TransferService {
  import opened Types
  import opened Ledger
  import opened Protocol
  import opened Storage
  import opened Refinement
  import LedgerRepository
  import TransactionRepository

  /** The idempotency store, by idempotency key. */
  class Store {
    var data: map<Key, Cached>

    constructor ()
      ensures data == map[]
    {
      data := map[];
    }
  }

  datatype TransferRequest = TransferRequest(key: Key, from: AccountId, to: AccountId, amount: int, currency: Currency)

  /** How each outside call of one Transfer turns out. meanwhile is what another
      caller puts under the key between the lookup and the claim, if anything. */
  datatype Faults = Faults(
    get: bool, meanwhile: Option<Cached>, setnx: Fault, reget: bool,
    readSource: bool, readDestination: bool, readClearing: bool,
    create: Fault, find: bool, begin: bool,
    leg1: bool, processing: bool, leg2: bool, settled: bool, commit: Fault,
    fail: Fault, fetch: bool, store: Fault, unlock: bool)

  const NO_FAULTS: Faults := Faults(
    true, None, Fine, true, true, true, true, Fine, true, true,
    true, true, true, true, Fine, Fine, true, Fine, true)

  /** The checks before the row is created. */
  predicate Accepts(m: map<AccountId, Account>, q: Request) {
    && q.from in m && q.to in m && q.clearing in m
    && SnapshotsPass(q, m[q.from], m[q.to])
    && m[q.clearing].currency == q.currency && m[q.clearing].status == Active
  }

  // The errors that the service names; Wrapped is any other.
  datatype TransferError =
    | InvalidTransfer | CurrencyMismatch | InsufficientFunds | ClearingAccountNotFound | Wrapped

  /** Why the checks before the row is created fail, if they do. */
  function Refusal(m: map<AccountId, Account>, q: Request): (why: Option<TransferError>)
    ensures why == None <==> Accepts(m, q)
  {
    if q.from !in m || q.to !in m then Some(Wrapped)
    else if m[q.from].currency != q.currency || m[q.to].currency != q.currency then Some(CurrencyMismatch)
    else if m[q.from].status != Active || m[q.to].status != Active then Some(InvalidTransfer)
    else if m[q.from].balance < q.amount then Some(InsufficientFunds)
    else if q.clearing !in m then Some(ClearingAccountNotFound)
    else if m[q.clearing].currency != q.currency then Some(CurrencyMismatch)
    else if m[q.clearing].status != Active then Some(InvalidTransfer)
    else None
  }

  /** Which error the checks give, by the accounts: a missing one first, then the
      currencies, the statuses and the funds of the two ends, then the clearing
      account; none if all is well. */
  ghost predicate RefusedFor(m: map<AccountId, Account>, q: Request, why: Option<TransferError>) {
    && (why == Some(Wrapped) <==> q.from !in m || q.to !in m)
    && (q.from in m && q.to in m ==>
          var s, d := m[q.from], m[q.to];
          var same := s.currency == q.currency && d.currency == q.currency;
          var open := s.status == Active && d.status == Active;
          && (!same ==> why == Some(CurrencyMismatch))
          && (same && !open ==> why == Some(InvalidTransfer))
          && (same && open && s.balance < q.amount ==> why == Some(InsufficientFunds))
          && (same && open && s.balance >= q.amount ==>
                && (q.clearing !in m ==> why == Some(ClearingAccountNotFound))
                && (q.clearing in m && m[q.clearing].currency != q.currency ==> why == Some(CurrencyMismatch))
                && (q.clearing in m && m[q.clearing].currency == q.currency ==>
                      why == if m[q.clearing].status == Active then None else Some(InvalidTransfer))))
  }

  lemma RefusalIs(m: map<AccountId, Account>, q: Request)
    ensures RefusedFor(m, q, Refusal(m, q))
  {}

  /** The errors that only the accounts can be the reason for. */
  predicate Named(why: Option<TransferError>) {
    why.Some? && why.value in {InvalidTransfer, CurrencyMismatch, ClearingAccountNotFound}
  }

  /** Why the database transaction fails, when its entries are not acceptable and
      nothing else goes wrong: only the first leg reports short funds as such. */
  function PostError(m: map<AccountId, Account>, q: Request, id: TxId): TransferError {
    if LedgerRepository.RunsShort(m, ClearingEntry(id, q)) then InsufficientFunds else Wrapped
  }

  datatype Tables = Tables(accounts: map<AccountId, Account>, journal: seq<Entry>, rows: map<TxId, Row>)

  /** The only three things a call may do to the tables: nothing; add its row,
      PENDING or FAILED, and move no money; or add its row SETTLED together with
      both legs, each accepted where the other calls left the accounts. */
  ghost predicate Effect(t: Tables, t': Tables, q: Request, id: TxId, now: int) {
    || t' == t
    || (&& !KeyTaken(t.rows, q.key)
        && (t' == t.(rows := t.rows[id := NewRow(q)])
            || t' == t.(rows := t.rows[id := NewRow(q).(status := TxStatus.Failed)])))
    || (&& !KeyTaken(t.rows, q.key) && PostAll(t.accounts, Legs(id, q)).Some?
        && t' == SettledTables(t, q, id, now))
  }

  function SettledTables(t: Tables, q: Request, id: TxId, now: int): Tables
    requires PostAll(t.accounts, Legs(id, q)).Some?
  {
    Tables(PostAll(t.accounts, Legs(id, q)).value, t.journal + Legs(id, q), t.rows[id := SettledRow(NewRow(q), now)])
  }

  /** What a call that claims its key does when no outside call fails. */
  ghost predicate Ideal(
    t: Tables, t': Tables, q: Request, id: TxId, now: int, out: Outcome, why: Option<TransferError>)
  {
    if !Accepts(t.accounts, q) then t' == t && out == Failure && why == Refusal(t.accounts, q)
    else if KeyTaken(t.rows, q.key) then
      && t' == t && out.Returned? && out.answer.Snapshot? && why == None
      && out.answer.id in t.rows && t.rows[out.answer.id] == out.answer.row && out.answer.row.key == q.key
    else if PostAll(t.accounts, Legs(id, q)).Some? then
      && t' == SettledTables(t, q, id, now)
      && out == Returned(Snapshot(id, SettledRow(NewRow(q), now))) && why == None
    else
      && t' == t.(rows := t.rows[id := NewRow(q).(status := TxStatus.Failed)])
      && out == Failure && why == Some(PostError(t.accounts, q, id))
  }

  /** The calls that create their row and learn of it. */
  predicate Opens(f: Faults, t: Tables, q: Request) {
    && f.readSource && f.readDestination && f.readClearing && Accepts(t.accounts, q)
    && f.create == Fine && !KeyTaken(t.rows, q.key)
  }

  /** The faults after which an opened call caches the zero transaction. */
  predicate ZeroFaults(f: Faults) {
    !f.begin && f.fail != Fine && f.store != Broken
  }

  predicate ZeroCached(data: map<Key, Cached>, key: Key) {
    key in data && data[key] == Final(NoTransaction)
  }

  /** How a call ends that finds another caller's value under its key. */
  function Refused(v: Cached, f: Faults): Outcome {
    if f.setnx != Fine then Failure
    else if !f.reget then InProgress
    else match v
      case Marker => InProgress
      case Final(answer) => Returned(answer)
  }

  class Service {
    const db: Database
    const repo: TransactionRepository.Repository
    const ledger: LedgerRepository.Service
    const store: Store?
    const clearing: AccountId

    constructor (db: Database, repo: TransactionRepository.Repository, ledger: LedgerRepository.Service,
                 store: Store?, clearing: AccountId)
      requires repo.db == db && ledger.repo.db == db
      ensures this.db == db && this.store == store && this.clearing == clearing && Wired()
    {
      this.db, this.repo, this.ledger, this.store, this.clearing := db, repo, ledger, store, clearing;
    }

    ghost predicate Wired() {
      repo.db == db && ledger.repo.db == db
    }

    ghost function View(): Tables
      reads db
    {
      Tables(db.accounts, db.journal, db.rows)
    }

    /** The tables and the store are those of engine state w. */
    ghost predicate Mirrors(w: State)
      reads db, store
    {
      && Shows(db, w)
      && (store != null ==> w.cache == store.data)
    }

    function RequestOf(req: TransferRequest): Request {
      Request(req.key, req.from, req.to, req.amount, req.currency, clearing, store != null)
    }

    // ------------------------------------------------------ idempotency store

    /** None: nothing cached, go on. */
    method TryReturnCached(key: Key, ok: bool) returns (r: Option<Outcome>)
      ensures r == None <==> store == null || (ok && key !in store.data)
      ensures store != null && !ok ==> r == Some(Failure)
      ensures store != null && ok && key in store.data ==> r.Some? && OnCached(store.data[key]) == AtExit(r.value)
      ensures store != null && ok && key in store.data && store.data[key] == Marker ==> r == Some(InProgress)
      ensures store != null && ok && key in store.data && store.data[key].Final? ==>
        r == Some(Returned(store.data[key].answer))
    {
      if store == null {
        return None;
      }
      if !ok {
        return Some(Failure);
      }
      if key !in store.data {
        return None;
      }
      match store.data[key] {
        case Marker => return Some(InProgress);
        case Final(answer) => return Some(Returned(answer));
      }
    }

    /** Ok(true): the key is now this caller's to unlock. */
    method AcquireExclusive(key: Key, f: Fault, reget: bool) returns (r: Result<bool, Outcome>)
      modifies store
      ensures store == null ==> r == Ok(false)
      ensures store != null ==>
        && (r.Ok? <==> f == Fine && key !in old(store.data))
        && (r.Ok? ==> r.value)
        && store.data == (if f != Broken && key !in old(store.data) then old(store.data)[key := Marker] else old(store.data))
        && (r.Err? && f != Fine ==> r.error == Failure)
        && (r.Err? && f == Fine && !reget ==> r.error == InProgress)
        && (r.Err? && f == Fine && reget ==> OnCached(old(store.data)[key]) == AtExit(r.error))
        && (r.Err? && f == Fine && reget && old(store.data)[key] == Marker ==> r.error == InProgress)
        && (r.Err? && f == Fine && reget && old(store.data)[key].Final? ==>
              r.error == Returned(old(store.data)[key].answer))
    {
      if store == null {
        return Ok(false);
      }
      if f == Broken {
        return Err(Failure);
      }
      var free := key !in store.data;
      if free {
        store.data := store.data[key := Marker];
      }
      if f == Lost {
        return Err(Failure);
      }
      if free {
        return Ok(true);
      }
      if !reget {
        return Err(InProgress);
      }
      match store.data[key] {
        case Marker => return Err(InProgress);
        case Final(answer) => return Err(Returned(answer));
      }
    }

    method StoreResult(key: Key, answer: Answer, f: Fault) returns (ok: bool)
      modifies store
      ensures ok <==> store == null || f == Fine
      ensures store != null ==>
        store.data == if f == Broken then old(store.data) else old(store.data)[key := Final(answer)]
    {
      if store == null {
        return true;
      }
      if f != Broken {
        store.data := store.data[key := Final(answer)];
      }
      ok := f == Fine;
    }

    // --------------------------------------------------- the database transaction

    /** Both legs and both status updates, inside an open transaction; on an
        error the caller rolls back whatever has been done. */
    method PostBothLegs(q: Request, id: TxId, now: int, f: Faults) returns (r: Result<Row, TransferError>)
      requires Wired() && id in db.rows && db.rows[id].status == TxStatus.Pending
      modifies db
      ensures r.Ok? <==>
        f.leg1 && f.processing && f.leg2 && f.settled && PostAll(old(db.accounts), Legs(id, q)).Some?
      ensures r.Ok? ==>
        && r.value == SettledRow(old(db.rows)[id], now)
        && View() == Tables(PostAll(old(db.accounts), Legs(id, q)).value, old(db.journal) + Legs(id, q), old(db.rows)[id := r.value])
      ensures r.Err? ==> r.error == if f.leg1 then PostError(old(db.accounts), q, id) else Wrapped
      ensures r.Err? ==> r.error in {InsufficientFunds, Wrapped}
      ensures r == Err(InsufficientFunds) <==>
        f.leg1 && LedgerRepository.RunsShort(old(db.accounts), ClearingEntry(id, q))
    {
      hide PostOk, Apply, LedgerRepository.RunsShort;
      TwoEntries(db.accounts, ClearingEntry(id, q), SettlementEntry(id, q));
      ClearingBalances(id, q);
      var posted := ledger.PostJournalEntryTx(ClearingEntry(id, q));
      if posted.Err? || !f.leg1 {
        return Err(if f.leg1 && posted == Err(LedgerRepository.InsufficientFunds) then InsufficientFunds else Wrapped);
      }
      FitsNotShort(old(db.accounts), ClearingEntry(id, q));
      var processing := repo.UpdateStatus(id, TxStatus.Pending, TxStatus.Processing, None);
      if processing.Err? || !f.processing {
        return Err(Wrapped);
      }
      posted := ledger.PostJournalEntryTx(SettlementEntry(id, q));
      if posted.Err? || !f.leg2 {
        return Err(Wrapped);
      }
      var settled := repo.UpdateStatus(id, TxStatus.Processing, TxStatus.Settled, Some(now));
      if settled.Err? || !f.settled {
        return Err(Wrapped);
      }
      r := Ok(settled.value);
    }

    // ------------------------------------------------------------ compensation

    /** Fails the row, or finds it no longer PENDING or PROCESSING and fetches it. */
    method FailOrFetch(id: TxId, f: Fault, fetch: bool) returns (r: Option<Row>)
      requires Wired() && id in db.rows
      modifies db`rows
      ensures db.rows == RowsAfterFail(old(db.rows), id, f)
      ensures db.rows == if f != Broken && old(db.rows)[id].status in {TxStatus.Pending, TxStatus.Processing}
        then old(db.rows)[id := old(db.rows)[id].(status := TxStatus.Failed)] else old(db.rows)
      ensures r.Some? <==> Told(old(db.rows)[id], f, fetch)
      ensures r.Some? <==> f == Fine && (old(db.rows)[id].status in {TxStatus.Pending, TxStatus.Processing} || fetch)
      ensures r.Some? ==> r.value == db.rows[id]
    {
      if f == Broken {
        return None;
      }
      var failable := Failable(db.rows[id]);
      var failed := repo.FailTransaction(id);
      if f == Lost || (!failable && !fetch) || failed.Err? {
        return None;
      }
      r := Some(failed.value);
    }

    /** What follows a database transaction that was rolled back or never began:
        fail the row on its own connection, and cache what became of it. */
    method FailTx(q: Request, id: TxId, begun: bool, f: Faults, locked: bool, ghost w0: State, ghost p: Pid)
      returns (holds: bool, ghost w: State)
      requires Wired() && Mirrors(w0) && q.cached == (store != null) && id in db.rows
      requires p in w0.procs && w0.procs[p] == Proc.Transfer(q, AtFailRow(begun), locked, id)
      modifies db`rows, store
      ensures Mirrors(w) && Reaches(w0, w)
      ensures p in w.procs && w.procs[p] == Proc.Transfer(q, AtExit(Failure), holds, id)
      ensures db.rows == RowsAfterFail(old(db.rows), id, f.fail)
      ensures holds == (locked && begun && !Told(old(db.rows)[id], f.fail, f.fetch))
      ensures store != null ==>
        store.data == if begun && !Told(old(db.rows)[id], f.fail, f.fetch) then old(store.data)
          else CacheAfter(old(store.data), q,
            if Told(old(db.rows)[id], f.fail, f.fetch) then Snapshot(id, db.rows[id]) else NoTransaction, f.store)
      ensures store != null && !ZeroCached(old(store.data), q.key) ==>
        (ZeroCached(store.data, q.key) <==> !begun && !Told(old(db.rows)[id], f.fail, f.fetch) && f.store != Broken)
    {
      hide Reaches, CanFailRow;
      CanFailAlone(w0, p, f.fail);
      w := Compensates(w0, p, f.fail, f.fetch, f.store);
      var failed := FailOrFetch(id, f.fail, f.fetch);
      if begun && failed == None {
        return locked, w;
      }
      var answer := if failed.Some? then Snapshot(id, failed.value) else NoTransaction;
      var stored := StoreResult(q.key, answer, f.store);
      holds := false;
    }

    // --------------------------------------------------------------- settlement

    /** Begin, both legs and commit, or roll back. Ok: the commit was reported.
        Err: it was not, whether or not it took effect. */
    method CommitBothLegs(q: Request, id: TxId, now: int, f: Faults, ghost w0: State, ghost p: Pid)
      returns (r: Result<Row, TransferError>, ghost w: State)
      requires Wired() && Mirrors(w0) && ReadyToBegin(w0, p)
      requires w0.procs[p].id == id && w0.procs[p].req == q
      modifies db
      ensures r.Ok? ==>
        && r.value == SettledRow(old(db.rows)[id], now)
        && Reaches(w0, AfterSettling(w0, p, db.accounts, now)) && w == AfterSettling(w0, p, db.accounts, now)
      ensures r.Err? ==>
        && Reaches(w0, w) && w.procs == w0.procs[p := w0.procs[p].(pc := AtFailRow(true))]
      ensures Mirrors(w)
      ensures AllOrNothing(old(View()), View(), q, id, now)
      ensures r.Ok? ==> db.rows[id] == r.value
      ensures f == NO_FAULTS ==> (r.Ok? <==> PostAll(old(db.accounts), Legs(id, q)).Some?)
      ensures f == NO_FAULTS && r.Err? ==> r.error == PostError(old(db.accounts), q, id)
      ensures r.Err? ==> r.error in {InsufficientFunds, Wrapped}
    {
      hide Step, Path, Reaches, SomeStep, PostAll, Legs, PostError;
      var accounts, journal, rows := db.accounts, db.journal, db.rows;
      var settled := PostBothLegs(q, id, now, f);
      if settled.Err? || f.commit == Broken {
        db.accounts, db.journal, db.rows := accounts, journal, rows;
        RollsBack(w0, p);
        w := Goto(w0, p, AtFailRow(true));
        return Err(if settled.Err? then settled.error else Wrapped), w;
      }
      Settles(w0, p, now);
      w := AfterSettling(w0, p, db.accounts, now);
      if f.commit == Lost {
        Misreported(w0, p, db.accounts, now);
        w := Goto(w, p, AtFailRow(true));
        return Err(Wrapped), w;
      }
      r := settled;
    }

    /** Everything after the row is created. */
    method Settle(q: Request, id: TxId, now: int, f: Faults, locked: bool, ghost w0: State, ghost p: Pid)
      returns (out: Outcome, why: Option<TransferError>, holds: bool, ghost w: State)
      requires Wired() && Mirrors(w0) && q.cached == (store != null)
      requires ReadyToBegin(w0, p) && w0.procs[p] == Proc.Transfer(q, AtBegin, locked, id)
      modifies db, store
      ensures Mirrors(w) && Reaches(w0, w)
      ensures p in w.procs && w.procs[p] == Proc.Transfer(q, AtExit(out), holds, id)
      ensures SettleEffect(old(View()), View(), q, id, now) && id in db.rows
      ensures f == NO_FAULTS ==>
        && !holds && (store != null ==> store.data == old(store.data)[q.key := Final(Snapshot(id, db.rows[id]))])
        && if PostAll(old(db.accounts), Legs(id, q)).Some?
           then db.rows[id].status == TxStatus.Settled && out == Returned(Snapshot(id, db.rows[id])) && why == None
           else
             db.rows[id].status == TxStatus.Failed && out == Failure
             && why == Some(PostError(old(db.accounts), q, id))
      ensures out != InProgress && (why.Some? <==> out == Failure)
      ensures why.Some? ==> why.value in {InsufficientFunds, Wrapped}
      ensures !f.begin ==> !holds
      ensures store != null && !ZeroCached(old(store.data), q.key) ==>
        && (ZeroCached(store.data, q.key) <==> ZeroFaults(f))
        && (ZeroCached(store.data, q.key) ==> !holds)
    {
      hide Step, Path, Reaches, SomeStep, PostAll, Legs, ReadyToBegin, SettleEffect, AllOrNothing, RowsAfterFail, PostError;
      hide AfterSettling;
      Ready(w0, p);
      ghost var t := View();
      Unchanged(t, q, id, now);
      ghost var w1;
      if !f.begin {
        ThenFailed(t, t, q, id, now, f.fail);
        w1 := NeverBegan(w0, p);
        holds, w := FailTx(q, id, false, f, locked, w1, p);
        Then(w0, w1, w);
        return Failure, Some(Wrapped), holds, w;
      }
      var settled;
      settled, w1 := CommitBothLegs(q, id, now, f, w0, p);
      ThenFailed(t, View(), q, id, now, f.fail);
      if settled.Err? {
        holds, w := FailTx(q, id, true, f, locked, w1, p);
        Then(w0, w1, w);
        return Failure, Some(settled.error), holds, w;
      }
      out, why, holds, w := ReportSettled(q, id, settled.value, now, f.store, locked, w0, p);
    }

    /** Caches and returns a settled transfer whose commit was reported. */
    method ReportSettled(q: Request, id: TxId, row: Row, now: int, f: Fault, locked: bool, ghost w0: State, ghost p: Pid)
      returns (out: Outcome, why: Option<TransferError>, holds: bool, ghost w: State)
      requires ReadyToBegin(w0, p) && w0.procs[p] == Proc.Transfer(q, AtBegin, locked, id)
      requires q.cached == (store != null) && row == SettledRow(w0.rows[id], now)
      requires Mirrors(AfterSettling(w0, p, db.accounts, now))
      requires Reaches(w0, AfterSettling(w0, p, db.accounts, now))
      modifies store
      ensures Mirrors(w) && Reaches(w0, w)
      ensures p in w.procs && w.procs[p] == Proc.Transfer(q, AtExit(out), holds, id)
      ensures out == if store == null || f == Fine then Returned(Snapshot(id, row)) else Failure
      ensures why == (if out == Failure then Some(Wrapped) else None) && holds == (locked && out == Failure)
      ensures store != null ==> store.data == CacheAfter(old(store.data), q, Snapshot(id, row), f)
    {
      hide Reaches;
      var answer := Snapshot(id, row);
      var ok := StoreResult(q.key, answer, f);
      w := Reports(w0, p, db.accounts, now, f);
      if ok {
        out, why, holds := Returned(answer), None, false;
      } else {
        out, why, holds := Failure, Some(Wrapped), locked;
      }
    }

    // ------------------------------------------------------------- the whole call

    /** Looks the key up and claims it. Err: the call ends here. Unless another
        caller gets in between, this is a stretch of an engine run; if one does,
        its value stays, and decides how the call ends. */
    method Claim(q: Request, f: Faults, ghost w0: State, ghost p: Pid) returns (r: Result<bool, Outcome>, ghost w: State)
      requires Mirrors(w0) && q.cached == (store != null)
      requires Stands(w0, p, q, if q.cached then AtLookup else AtReadSource, false)
      modifies store
      ensures r.Ok? || f.meanwhile.None? ==>
        && Mirrors(w) && Reaches(w0, w)
        && Stands(w, p, q, if r.Ok? then AtReadSource else AtExit(r.error), r == Ok(true))
      ensures r.Ok? <==>
        (store == null || (f.get && q.key !in old(store.data) && f.meanwhile == None && f.setnx == Fine))
      ensures r.Ok? ==> r.value == (store != null)
      ensures r.Ok? && store != null ==> store.data == old(store.data)[q.key := Marker]
      ensures store != null && !f.get ==> r == Err(Failure) && store.data == old(store.data)
      ensures store != null && f.get && q.key in old(store.data) ==>
        store.data == old(store.data) && r.Err? && OnCached(store.data[q.key]) == AtExit(r.error)
      ensures store != null && f.get && q.key !in old(store.data) && f.meanwhile.Some? ==>
        r == Err(Refused(f.meanwhile.value, f)) && store.data == old(store.data)[q.key := f.meanwhile.value]
      ensures store != null && r.Err? && f.meanwhile == None && !ZeroCached(old(store.data), q.key) ==>
        !ZeroCached(store.data, q.key)
    {
      hide Step, Path, Reaches, SomeStep;
      Stay(w0);
      w := w0;
      if store != null {
        GetOne(w0, p, f.get);
        w := DoGet(w0, p, f.get);
      }
      var hit := TryReturnCached(q.key, f.get);
      if hit.Some? {
        return Err(hit.value), w;
      }
      if store != null && f.meanwhile.Some? {
        store.data := store.data[q.key := f.meanwhile.value];
      } else if store != null {
        ghost var w1 := w;
        ClaimOne(w1, p, f.setnx);
        w := DoSetNX(w1, p, f.setnx);
        Then(w0, w1, w);
      }
      r := AcquireExclusive(q.key, f.setnx, f.reget);
    }

    /** The claim and, if it succeeds, the attempt. */
    method ClaimAndAttempt(q: Request, id: TxId, now: int, f: Faults, ghost w0: State, ghost p: Pid)
      returns (out: Outcome, why: Option<TransferError>, holds: bool, ghost w: State)
      requires Wired() && Mirrors(w0) && q.cached == (store != null) && ValidRequest(q) && id !in db.rows
      requires Stands(w0, p, q, if q.cached then AtLookup else AtReadSource, false)
      modifies db, store
      ensures Effect(old(View()), View(), q, id, now)
      ensures Named(why) ==> why == Refusal(old(db.accounts), q)
      ensures why.Some? <==> out == Failure
      ensures f.meanwhile.None? ==> Mirrors(w) && Reaches(w0, w) && Stands(w, p, q, AtExit(out), holds)
      ensures f == NO_FAULTS && (store == null || q.key !in old(store.data)) ==>
        Ideal(old(View()), View(), q, id, now, out, why)
      ensures f == NO_FAULTS && store != null && q.key !in old(store.data) ==>
        && holds == (id !in db.rows)
        && store.data == Remembered(old(store.data)[q.key := Marker], q.key, id, db.rows)
      ensures store != null && f.get && q.key in old(store.data) ==>
        && View() == old(View()) && store.data == old(store.data) && !holds
        && OnCached(store.data[q.key]) == AtExit(out)
      ensures store != null && f.get && q.key !in old(store.data) && f.meanwhile.Some? ==>
        && View() == old(View()) && store.data == old(store.data)[q.key := f.meanwhile.value] && !holds
        && out == Refused(f.meanwhile.value, f)
      ensures store != null && f.meanwhile == None && q.key !in old(store.data) ==>
        && (ZeroCached(store.data, q.key) <==>
              f.get && f.setnx == Fine && Opens(f, old(View()), q) && ZeroFaults(f))
        && (ZeroCached(store.data, q.key) ==> !holds)
    {
      hide Path, Reaches, PostAll, Legs, ValidRequest, KeyTaken, Accepts, Effect, Ideal, OnCached, Opens, ZeroFaults, Refused;
      Outcomes(View(), q, id, now);
      var claimed;
      claimed, w := Claim(q, f, w0, p);
      if claimed.Err? {
        return claimed.error, if claimed.error == Failure then Some(Wrapped) else None, false, w;
      }
      ghost var w1 := w;
      out, why, holds, w := Attempt(q, id, now, f, claimed.value, w1, p);
      Then(w0, w1, w);
    }

    /** The whole call, its deferred unlock included. */
    method Transfer(req: TransferRequest, id: TxId, now: int, f: Faults, ghost world: State, ghost p: Pid)
      returns (out: Outcome, why: Option<TransferError>, ghost after: State)
      requires Wired() && Mirrors(world) && p !in world.procs && id !in db.rows
      modifies db, store
      ensures Effect(old(View()), View(), RequestOf(req), id, now)
      // The row that a call adds is its request, field by field.
      ensures forall r :: r in old(db.rows) ==> r in db.rows && db.rows[r] == old(db.rows)[r]
      ensures forall r :: r in db.rows && r !in old(db.rows) ==> r == id
      ensures id in db.rows ==>
        var row := db.rows[id];
        && row.key == req.key && row.from == req.from && row.to == req.to
        && row.amount == req.amount && row.currency == req.currency
        && row.status in {TxStatus.Pending, TxStatus.Failed, TxStatus.Settled}
        && row.settledAt == if row.status == TxStatus.Settled then Some(now) else None
      // The journal grows by its two entries exactly if the row is SETTLED.
      ensures db.journal == old(db.journal) +
        if id in db.rows && db.rows[id].status == TxStatus.Settled
        then [Entry(Some(id), "transfer clearing", req.currency, Posted, "transfer-service",
                    [Line(req.from, Debit, req.amount), Line(clearing, Credit, req.amount)]),
              Entry(Some(id), "transfer settlement", req.currency, Posted, "transfer-service",
                    [Line(clearing, Debit, req.amount), Line(req.to, Credit, req.amount)])]
        else []
      ensures why.Some? <==> out == Failure
      // A proper request is never refused as such; only its accounts can make it invalid.
      ensures
        (|| (forall i :: 0 <= i < |req.key| ==> IsSpace(req.key[i]))
         || (forall i :: 0 <= i < |req.currency| ==> IsSpace(req.currency[i]))
         || req.from == 0 || req.to == 0 || req.from == req.to || req.amount <= 0) ==>
        out == Failure && why == Some(InvalidTransfer) && View() == old(View())
      ensures
        (&& (exists i :: 0 <= i < |req.key| && !IsSpace(req.key[i]))
         && (exists i :: 0 <= i < |req.currency| && !IsSpace(req.currency[i]))
         && req.from != 0 && req.to != 0 && req.from != req.to && req.amount > 0
         && (why == Some(InvalidTransfer) || why == Some(CurrencyMismatch) || why == Some(ClearingAccountNotFound))) ==>
        RefusedFor(old(db.accounts), RequestOf(req), why)
      ensures !ValidRequest(RequestOf(req)) ==>
        && out == Failure && why == Some(InvalidTransfer)
        && View() == old(View()) && (store != null ==> store.data == old(store.data))
      ensures ValidRequest(RequestOf(req)) && f.meanwhile.None? ==>
        && Mirrors(after) && Reaches(world, after) && Calls(after, p) && after.procs[p].pc == AtDone(out)
      ensures ValidRequest(RequestOf(req)) && f == NO_FAULTS && (store == null || req.key !in old(store.data)) ==>
        Ideal(old(View()), View(), RequestOf(req), id, now, out, why)
      ensures ValidRequest(RequestOf(req)) && f == NO_FAULTS && store != null && req.key !in old(store.data) ==>
        store.data == Remembered(old(store.data), req.key, id, db.rows)
      ensures ValidRequest(RequestOf(req)) && store != null && f.get && req.key in old(store.data) ==>
        && View() == old(View()) && store.data == old(store.data)
        && out == match store.data[req.key] { case Marker => InProgress case Final(answer) => Returned(answer) }
      // Another caller claimed the key, or finished, after the lookup.
      ensures
        ValidRequest(RequestOf(req)) && store != null && f.get && req.key !in old(store.data) && f.meanwhile.Some? ==>
        && View() == old(View()) && store.data == old(store.data)[req.key := f.meanwhile.value]
        && out == (if f.setnx != Fine then Failure
                   else if !f.reget || f.meanwhile.value == Marker then InProgress
                   else Returned(f.meanwhile.value.answer))
      // When exactly the zero transaction is cached.
      ensures ValidRequest(RequestOf(req)) && store != null && f.meanwhile == None && req.key !in old(store.data) ==>
        (ZeroCached(store.data, req.key) <==>
          f.get && f.setnx == Fine && Opens(f, old(View()), RequestOf(req)) && ZeroFaults(f))
    {
      var q := RequestOf(req);
      ProperRequest(q);
      if !ValidRequest(q) {
        hide PostAll, Legs, ValidRequest, KeyTaken;
        return Failure, Some(InvalidTransfer), world;
      }
      hide *;
      RefusalIs(db.accounts, q);
      out, why, after := TransferValid(q, id, now, f, world, p);
      EffectIs(old(View()), View(), q, id, now);
      NamedAre(why);
      if f.meanwhile.Some? {
        RefusedIs(f.meanwhile.value, f);
      }
    }

    /** The call for a valid request. */
    method TransferValid(q: Request, id: TxId, now: int, f: Faults, ghost world: State, ghost p: Pid)
      returns (out: Outcome, why: Option<TransferError>, ghost after: State)
      requires Wired() && Mirrors(world) && p !in world.procs && id !in db.rows
      requires ValidRequest(q) && q.cached == (store != null)
      modifies db, store
      ensures Effect(old(View()), View(), q, id, now)
      ensures Named(why) ==> why == Refusal(old(db.accounts), q)
      ensures why.Some? <==> out == Failure
      ensures f.meanwhile.None? ==>
        && Mirrors(after) && Reaches(world, after) && Calls(after, p) && after.procs[p].pc == AtDone(out)
      ensures f == NO_FAULTS && (store == null || q.key !in old(store.data)) ==>
        Ideal(old(View()), View(), q, id, now, out, why)
      ensures f == NO_FAULTS && store != null && q.key !in old(store.data) ==>
        store.data == Remembered(old(store.data), q.key, id, db.rows)
      ensures store != null && f.get && q.key in old(store.data) ==>
        && View() == old(View()) && store.data == old(store.data)
        && out == match store.data[q.key] { case Marker => InProgress case Final(answer) => Returned(answer) }
      ensures store != null && f.get && q.key !in old(store.data) && f.meanwhile.Some? ==>
        && View() == old(View()) && store.data == old(store.data)[q.key := f.meanwhile.value]
        && out == Refused(f.meanwhile.value, f)
      ensures store != null && f.meanwhile == None && q.key !in old(store.data) ==>
        (ZeroCached(store.data, q.key) <==>
          f.get && f.setnx == Fine && Opens(f, old(View()), q) && ZeroFaults(f))
    {
      hide Reaches, PostAll, Legs, ValidRequest, KeyTaken, Accepts, Effect, Ideal, Remembered, Refusal, Named, Opens,
           ZeroFaults, Refused;
      ghost var w0 := Arrives(world, p, q);
      var holds;
      out, why, holds, after := ClaimAndAttempt(q, id, now, f, w0, p);
      if f.meanwhile.None? {
        Then(world, w0, after);
      }
      if store != null && q.key !in old(store.data) {
        Forgets(old(store.data), q.key, id, db.rows);
      }
      after := Release(q, out, holds, f, world, after, p);
    }

    /** The deferred unlock deletes whatever the key holds by then. */
    method Release(q: Request, out: Outcome, holds: bool, f: Faults, ghost world: State, ghost w: State, ghost p: Pid)
      returns (ghost after: State)
      requires f.meanwhile.None? ==> Mirrors(w) && Reaches(world, w) && Stands(w, p, q, AtExit(out), holds)
      modifies store
      ensures store != null ==>
        store.data == if holds && f.unlock then old(store.data) - {q.key} else old(store.data)
      ensures f.meanwhile.None? ==>
        Mirrors(after) && Reaches(world, after) && Calls(after, p) && after.procs[p].pc == AtDone(out)
    {
      hide Reaches;
      after := w;
      if f.meanwhile.None? {
        after := Leaves(world, w, p, out, f.unlock);
      }
      if holds && f.unlock && store != null {
        store.data := store.data - {q.key};
      }
    }

    /** From the claim to the created row: Some when the call ends before. */
    method Prepare(q: Request, id: TxId, now: int, f: Faults, ghost w0: State, ghost p: Pid)
      returns (out: Option<Outcome>, why: Option<TransferError>, ghost w: State)
      requires Wired() && Mirrors(w0) && ValidRequest(q) && id !in db.rows
      requires Is(w0, p, AtReadSource) && w0.procs[p].req == q
      modifies db`rows
      ensures Mirrors(w) && Reaches(w0, w)
      ensures Stands(w, p, q, if out.Some? then AtExit(out.value) else AtBegin, w0.procs[p].holds)
      ensures Effect(old(View()), View(), q, id, now)
      ensures Named(why) ==> why == Refusal(old(db.accounts), q)
      ensures why.Some? <==> out == Some(Failure)
      ensures out.Some? && f == NO_FAULTS ==>
        Ideal(old(View()), View(), q, id, now, out.value, why) && id !in db.rows
      ensures out == None <==> Opens(f, old(View()), q)
      ensures out == None ==>
        && Accepts(db.accounts, q) && !KeyTaken(old(db.rows), q.key) && db.rows == old(db.rows)[id := NewRow(q)]
        && ReadyToBegin(w, p) && w.procs[p].id == id
    {
      hide Step, Path, Reaches, SomeStep, PostAll, Legs, ValidRequest, KeyTaken, ReadyToBegin, Accepts, Effect, Ideal, Goto;
      hide Refusal;
      Outcomes(View(), q, id, now);
      why := CheckSnapshots(q, f);
      SnapshotsLead(w0, p, q, f);
      ghost var pc := if why == None then AtCreate else AtExit(Failure);
      GotoTwice(w0, p, pc);
      w := Goto(w0, p, pc);
      if why.Some? {
        return Some(Failure), why, w;
      }
      AcceptsExist(db.accounts, q);
      out, w := CreateOrFind(q, id, f, w, p);
      Then(w0, Goto(w0, p, pc), w);
      why := if out == Some(Failure) then Some(Wrapped) else None;
    }

    /** Everything after the key is claimed. */
    method Attempt(q: Request, id: TxId, now: int, f: Faults, locked: bool, ghost w0: State, ghost p: Pid)
      returns (out: Outcome, why: Option<TransferError>, holds: bool, ghost w: State)
      requires Wired() && Mirrors(w0) && q.cached == (store != null) && ValidRequest(q) && id !in db.rows
      requires Stands(w0, p, q, AtReadSource, locked)
      modifies db, store
      ensures Mirrors(w) && Reaches(w0, w) && Stands(w, p, q, AtExit(out), holds)
      ensures Effect(old(View()), View(), q, id, now)
      ensures Named(why) ==> why == Refusal(old(db.accounts), q)
      ensures why.Some? <==> out == Failure
      ensures f == NO_FAULTS ==> Ideal(old(View()), View(), q, id, now, out, why)
      ensures f == NO_FAULTS ==> holds == (locked && id !in db.rows)
      ensures f == NO_FAULTS && store != null ==> store.data == Remembered(old(store.data), q.key, id, db.rows)
      ensures store != null && !ZeroCached(old(store.data), q.key) ==>
        && (ZeroCached(store.data, q.key) <==> Opens(f, old(View()), q) && ZeroFaults(f))
        && (ZeroCached(store.data, q.key) ==> !holds)
    {
      hide Step, Path, Reaches, SomeStep, PostAll, Legs, ValidRequest, KeyTaken, ReadyToBegin, Accepts, Effect, Ideal, SettleEffect;
      hide Opens, PostError, Refusal, ZeroFaults;
      var found;
      found, why, w := Prepare(q, id, now, f, w0, p);
      if found.Some? {
        return found.value, why, locked, w;
      }
      ghost var w1 := w;
      out, why, holds, w := Settle(q, id, now, f, locked, w1, p);
      Then(w0, w1, w);
      CreatedThenSettled(old(View()), View(), q, id, now, out, why);
    }

    /** The checks on the stale snapshots, in the order the service makes them. */
    method CheckSnapshots(q: Request, f: Faults) returns (why: Option<TransferError>)
      ensures why == None <==> f.readSource && f.readDestination && f.readClearing && Accepts(db.accounts, q)
      ensures f.readSource && f.readDestination && f.readClearing ==> why == Refusal(db.accounts, q)
      ensures why.Some? && why != Refusal(db.accounts, q) ==> why == Some(Wrapped)
      ensures f.readSource && f.readDestination && f.readClearing ==> RefusedFor(db.accounts, q, why)
    {
      RefusalIs(db.accounts, q);
      if !f.readSource || q.from !in db.accounts {
        return Some(Wrapped);
      }
      var source := db.accounts[q.from];
      if !f.readDestination || q.to !in db.accounts {
        return Some(Wrapped);
      }
      var destination := db.accounts[q.to];
      if source.currency != q.currency || destination.currency != q.currency {
        return Some(CurrencyMismatch);
      }
      if source.status != Active || destination.status != Active {
        return Some(InvalidTransfer);
      }
      if source.balance < q.amount {
        return Some(InsufficientFunds);
      }
      if !f.readClearing {
        return Some(Wrapped);
      }
      if q.clearing !in db.accounts {
        return Some(ClearingAccountNotFound);
      }
      var clr := db.accounts[q.clearing];
      if clr.currency != q.currency {
        return Some(CurrencyMismatch);
      }
      if clr.status != Active {
        return Some(InvalidTransfer);
      }
      why := None;
    }

    method CreateRow(q: Request, id: TxId, f: Fault) returns (r: Result<Row, TransactionRepository.RepositoryError>)
      requires Wired() && ValidRequest(q) && id !in db.rows && q.from in db.accounts && q.to in db.accounts
      modifies db`rows
      ensures db.rows == if f == Broken || KeyTaken(old(db.rows), q.key) then old(db.rows) else old(db.rows)[id := NewRow(q)]
      ensures r.Ok? <==> f == Fine && !KeyTaken(old(db.rows), q.key)
      ensures r == Err(TransactionRepository.DuplicateIdempotencyKey) <==> f == Fine && KeyTaken(old(db.rows), q.key)
    {
      if f == Broken {
        return Err(TransactionRepository.ConnectionLost);
      }
      r := repo.CreateTransaction(id, NewRow(q));
      if f == Lost {
        r := Err(TransactionRepository.ConnectionLost);
      }
    }

    method FindExisting(key: Key, ok: bool) returns (r: Result<Listed, TransactionRepository.RepositoryError>)
      requires Wired()
      ensures r.Ok? <==> ok && KeyTaken(db.rows, key)
      ensures r.Ok? ==> r.value.id in db.rows && r.value.row == db.rows[r.value.id] && r.value.row.key == key
    {
      if !ok {
        return Err(TransactionRepository.ConnectionLost);
      }
      r := repo.GetTransactionByIdempotencyKey(key);
    }

    /** Creates the row, or finds the one that already has the key. */
    method CreateOrFind(q: Request, id: TxId, f: Faults, ghost w0: State, ghost p: Pid)
      returns (out: Option<Outcome>, ghost w: State)
      requires Wired() && Mirrors(w0) && ValidRequest(q) && id !in db.rows
      requires q.from in db.accounts && q.to in db.accounts
      requires Is(w0, p, AtCreate) && w0.procs[p].req == q
      modifies db`rows
      ensures Mirrors(w) && Reaches(w0, w)
      ensures db.rows == old(db.rows) || (!KeyTaken(old(db.rows), q.key) && db.rows == old(db.rows)[id := NewRow(q)])
      ensures out == None <==> f.create == Fine && !KeyTaken(old(db.rows), q.key)
      ensures out != Some(InProgress)
      ensures Stands(w, p, q, if out.Some? then AtExit(out.value) else AtBegin, w0.procs[p].holds)
      ensures out == None ==> db.rows == old(db.rows)[id := NewRow(q)] && ReadyToBegin(w, p) && w.procs[p].id == id
      ensures db.rows == old(db.rows)
        || db.rows == old(db.rows)[id := Row(q.key, q.from, q.to, q.amount, q.currency, TxStatus.Pending, None)]
      ensures out.Some? && KeyTaken(old(db.rows), q.key) && f.create == Fine && f.find ==>
        && db.rows == old(db.rows) && out.value.Returned? && out.value.answer.Snapshot?
        && out.value.answer.id in db.rows && db.rows[out.value.answer.id] == out.value.answer.row
        && out.value.answer.row.key == q.key
    {
      hide Reaches, ValidRequest, KeyTaken, ReadyToBegin;
      w := Inserts(w0, p, q, id, f.create);
      var created := CreateRow(q, id, f.create);
      if created.Ok? {
        return None, w;
      }
      if created.error != TransactionRepository.DuplicateIdempotencyKey {
        return Some(Failure), w;
      }
      var existing := FindExisting(q.key, f.find);
      ghost var found := if existing.Ok? then existing.value.id else 0;
      w := Finds(w0, w, p, found, existing.Ok?);
      out := Some(if existing.Ok? then Returned(Snapshot(existing.value.id, existing.value.row)) else Failure);
    }
  }

  lemma ClearingBalances(id: TxId, q: Request)
    ensures Balanced(ClearingEntry(id, q).lines)
  {
    var e := ClearingEntry(id, q);
    TransferLinesBalance(e.lines[0], e.lines[1]);
  }

  lemma FitsNotShort(m: map<AccountId, Account>, e: Entry)
    requires PostOk(m, e)
    ensures !LedgerRepository.RunsShort(m, e)
  {}

  /** Call p for request q stands at pc. */
  ghost predicate Stands(w: State, p: Pid, q: Request, pc: Pc, holds: bool) {
    Calls(w, p) && w.procs[p].req == q && w.procs[p].pc == pc && w.procs[p].holds == holds
  }

  function Remembered(data: map<Key, Cached>, key: Key, id: TxId, rows: map<TxId, Row>): map<Key, Cached> {
    if id in rows then data[key := Final(Snapshot(id, rows[id]))] else data
  }

  /** Unlocking leaves nothing of the claim when no result was remembered. */
  lemma Forgets(data: map<Key, Cached>, key: Key, id: TxId, rows: map<TxId, Row>)
    requires key !in data
    ensures id in rows ==> Remembered(data[key := Marker], key, id, rows) == Remembered(data, key, id, rows)
    ensures id !in rows ==> Remembered(data[key := Marker], key, id, rows) - {key} == Remembered(data, key, id, rows)
  {
    assert data[key := Marker] - {key} == data;
  }

  lemma ProperRequest(q: Request)
    ensures ValidRequest(q) <==>
      && (exists i :: 0 <= i < |q.key| && !IsSpace(q.key[i])) && (exists i :: 0 <= i < |q.currency| && !IsSpace(q.currency[i]))
      && q.from != 0 && q.to != 0 && q.from != q.to && q.amount > 0
  {}

  lemma RefusedIs(v: Cached, f: Faults)
    ensures Refused(v, f) ==
      if f.setnx != Fine then Failure
      else if !f.reget || v == Marker then InProgress
      else Returned(v.answer)
  {}

  lemma NamedAre(why: Option<TransferError>)
    ensures Named(why) <==>
      why == Some(InvalidTransfer) || why == Some(CurrencyMismatch) || why == Some(ClearingAccountNotFound)
  {}

  /** What the effect of a call on the tables says of the row and the journal. */
  lemma EffectIs(t: Tables, t': Tables, q: Request, id: TxId, now: int)
    requires Effect(t, t', q, id, now) && id !in t.rows
    ensures forall r :: r in t.rows ==> r in t'.rows && t'.rows[r] == t.rows[r]
    ensures forall r :: r in t'.rows && r !in t.rows ==> r == id
    ensures id in t'.rows ==>
      var row := t'.rows[id];
      && row.key == q.key && row.from == q.from && row.to == q.to && row.amount == q.amount && row.currency == q.currency
      && row.status in {TxStatus.Pending, TxStatus.Failed, TxStatus.Settled}
      && row.settledAt == if row.status == TxStatus.Settled then Some(now) else None
    ensures t'.journal == t.journal +
      if id in t'.rows && t'.rows[id].status == TxStatus.Settled
      then [Entry(Some(id), "transfer clearing", q.currency, Posted, "transfer-service",
                  [Line(q.from, Debit, q.amount), Line(q.clearing, Credit, q.amount)]),
            Entry(Some(id), "transfer settlement", q.currency, Posted, "transfer-service",
                  [Line(q.clearing, Debit, q.amount), Line(q.to, Credit, q.amount)])]
      else []
  {
    hide PostAll, KeyTaken;
    assert t.journal + [] == t.journal;
  }

  /** The calls that end before their database transaction begins. */
  lemma Outcomes(t: Tables, q: Request, id: TxId, now: int)
    ensures Effect(t, t, q, id, now)
    ensures !KeyTaken(t.rows, q.key) ==> Effect(t, t.(rows := t.rows[id := NewRow(q)]), q, id, now)
    ensures !Accepts(t.accounts, q) ==> Ideal(t, t, q, id, now, Failure, Refusal(t.accounts, q))
    ensures forall r :: r in t.rows && t.rows[r].key == q.key && Accepts(t.accounts, q) ==>
      Ideal(t, t, q, id, now, Returned(Snapshot(r, t.rows[r])), None)
  {
    hide PostAll, Legs, Accepts;
  }

  lemma CreatedThenSettled(
    t: Tables, t': Tables, q: Request, id: TxId, now: int, out: Outcome, why: Option<TransferError>)
    requires !KeyTaken(t.rows, q.key)
    requires SettleEffect(t.(rows := t.rows[id := NewRow(q)]), t', q, id, now)
    ensures Effect(t, t', q, id, now)
    ensures
      (&& Accepts(t.accounts, q) && id in t'.rows
       && if PostAll(t.accounts, Legs(id, q)).Some?
          then t'.rows[id].status == TxStatus.Settled && out == Returned(Snapshot(id, t'.rows[id])) && why == None
          else t'.rows[id].status == TxStatus.Failed && out == Failure && why == Some(PostError(t.accounts, q, id)))
      ==> Ideal(t, t', q, id, now, out, why)
  {
    hide PostAll, Legs, Accepts, KeyTaken;
  }

  lemma Arrives(world: State, p: Pid, q: Request) returns (w: State)
    requires p !in world.procs && ValidRequest(q)
    ensures Reaches(world, w) && w == world.(procs := w.procs)
    ensures Stands(w, p, q, if q.cached then AtLookup else AtReadSource, false)
  {
    hide ValidRequest, Reaches;
    var proc := Proc.Transfer(q, if q.cached then AtLookup else AtReadSource, false, 0);
    ArriveOne(world, p, proc);
    w := DoArrive(world, p, proc);
  }

  lemma Leaves(world: State, w: State, p: Pid, out: Outcome, unlock: bool) returns (after: State)
    requires Reaches(world, w) && Calls(w, p) && w.procs[p].pc == AtExit(out)
    ensures Reaches(world, after) && Calls(after, p) && after.procs[p].pc == AtDone(out)
    ensures after == w.(procs := after.procs,
      cache := if w.procs[p].holds && unlock then w.cache - {w.procs[p].req.key} else w.cache)
  {
    hide Reaches;
    UnlockOne(w, p, unlock);
    after := DoUnlock(w, p, unlock);
    Then(world, w, after);
  }

  /** The exact settlement criterion for a call that claims its key: between
      accounts fit to settle, in the absence of errors, the transfer settles if
      and only if the source covers the amount; otherwise it leaves no row. */
  lemma IdealSettlesIffCovered(
    t: Tables, t': Tables, q: Request, id: TxId, now: int, out: Outcome, why: Option<TransferError>)
    requires Settleable(t.accounts, q) && !KeyTaken(t.rows, q.key) && id !in t.rows
    requires Ideal(t, t', q, id, now, out, why)
    ensures out.Returned? <==> t.accounts[q.from].balance >= q.amount
    ensures out.Returned? <==> id in t'.rows && t'.rows[id].status == TxStatus.Settled
    ensures !out.Returned? ==> t' == t && why == Some(InsufficientFunds)
  {
    hide PostAll, Legs;
    SettlesIffCovered(t.accounts, id, q);
    assert q.from in {q.from, q.clearing, q.to} && q.to in {q.from, q.clearing, q.to} && q.clearing in {q.from, q.clearing, q.to};
  }

  /** Whatever goes wrong in a call, either no account changes, or its row is
      SETTLED, the journal has exactly its two entries more, and the amount has
      moved from the source's credit position to the destination's, with every
      other balance as before. */
  lemma MoneyMovesOnlyBySettling(t: Tables, t': Tables, q: Request, id: TxId, now: int)
    requires Effect(t, t', q, id, now) && ValidRequest(q) && id !in t.rows
    ensures t'.journal == t.journal || t'.journal == t.journal + Legs(id, q)
    ensures t'.journal == t.journal <==> !(id in t'.rows && t'.rows[id].status == TxStatus.Settled)
    ensures t'.journal == t.journal ==> t'.accounts == t.accounts
    ensures t'.journal != t.journal ==>
      && t'.accounts.Keys == t.accounts.Keys && q.from in t.accounts && q.to in t.accounts
      && -DebitBalance(t'.accounts[q.from]) == -DebitBalance(t.accounts[q.from]) - q.amount
      && -DebitBalance(t'.accounts[q.to]) == -DebitBalance(t.accounts[q.to]) + q.amount
      && forall a :: a in t.accounts && a != q.from && a != q.to ==> t'.accounts[a].balance == t.accounts[a].balance
  {
    assert |t.journal + Legs(id, q)| == |t.journal| + 2;
    hide PostAll, Legs, KeyTaken, DebitBalance;
    if PostAll(t.accounts, Legs(id, q)).Some? {
      TransferMoves(t.accounts, id, q);
    }
  }

  lemma CanFailAlone(s: State, p: Pid, f: Fault)
    requires Calls(s, p) && s.procs[p].pc.AtFailRow? && s.procs[p].id in s.rows && s.txns == map[]
    ensures CanFailRow(s, p, f)
  {}

  lemma Inserts(s: State, p: Pid, q: Request, id: TxId, f: Fault) returns (s': State)
    requires Is(s, p, AtCreate) && s.procs[p].req == q && id !in s.rows && s.txns == map[]
    requires q.from in s.accounts && q.to in s.accounts
    ensures Reaches(s, s')
    ensures var taken := KeyTaken(s.rows, q.key);
      var made := f != Broken && !taken;
      && s' == s.(rows := if made then s.rows[id := NewRow(q)] else s.rows, procs := s'.procs, creator := s'.creator)
      && Stands(s', p, q, if f != Fine then AtExit(Failure) else if taken then AtDuplicate else AtBegin, s.procs[p].holds)
      && (f == Fine && !taken ==> ReadyToBegin(s', p) && s'.procs[p].id == id)
  {
    hide Reaches, KeyTaken;
    InsertOne(s, p, id, f);
    s' := DoInsert(s, p, id, f);
  }

  lemma Finds(s0: State, s: State, p: Pid, id: TxId, ok: bool) returns (s': State)
    requires Reaches(s0, s) && CanFindExisting(s, p, id, ok)
    ensures Reaches(s0, s') && s' == s.(procs := s'.procs)
    ensures Stands(s', p, s.procs[p].req, AtExit(if ok then Returned(Snapshot(id, s.rows[id])) else Failure), s.procs[p].holds)
  {
    hide Reaches;
    FindOne(s, p, id, ok);
    s' := DoFindExisting(s, p, id, ok);
    Then(s0, s, s');
  }

  lemma AcceptsExist(m: map<AccountId, Account>, q: Request)
    requires Accepts(m, q)
    ensures q.from in m && q.to in m
  {}

  lemma SnapshotsLead(s: State, p: Pid, q: Request, f: Faults)
    requires Is(s, p, AtReadSource) && s.procs[p].req == q
    ensures Reaches(s, Goto(s, p,
      if f.readSource && f.readDestination && f.readClearing && Accepts(s.accounts, q) then AtCreate else AtExit(Failure)))
  {
    hide Reaches, Goto;
    SnapshotsOne(s, p, f.readSource, f.readDestination, f.readClearing);
    forall pc ensures
      var s1 := Goto(s, p, pc);
      && s1.accounts == s.accounts && Calls(s1, p) && s1.procs[p] == s.procs[p].(pc := pc)
      && forall pc2 :: Goto(s1, p, pc2) == Goto(s, p, pc2)
    {
      GotoTwice(s, p, pc);
    }
  }

  /** The effect of the database transaction on the tables. */
  ghost predicate AllOrNothing(t: Tables, t': Tables, q: Request, id: TxId, now: int) {
    || t' == t
    || (&& PostAll(t.accounts, Legs(id, q)).Some? && id in t.rows
        && t' == Tables(PostAll(t.accounts, Legs(id, q)).value, t.journal + Legs(id, q),
                        t.rows[id := SettledRow(t.rows[id], now)]))
  }

  lemma Unchanged(t: Tables, q: Request, id: TxId, now: int)
    ensures AllOrNothing(t, t, q, id, now)
  {}

  lemma ThenFailed(t: Tables, t1: Tables, q: Request, id: TxId, now: int, f: Fault)
    requires id in t.rows && t.rows[id].status == TxStatus.Pending && AllOrNothing(t, t1, q, id, now)
    ensures id in t1.rows && SettleEffect(t, t1, q, id, now)
    ensures SettleEffect(t, t1.(rows := RowsAfterFail(t1.rows, id, f)), q, id, now)
    ensures id in RowsAfterFail(t1.rows, id, f)
    ensures PostAll(t.accounts, Legs(id, q)).None? && f != Broken ==>
      RowsAfterFail(t1.rows, id, f)[id].status == TxStatus.Failed
  {
    hide PostAll, Legs;
  }

  /** What happens to the tables after the row id has been created. */
  ghost predicate SettleEffect(t: Tables, t': Tables, q: Request, id: TxId, now: int) {
    && id in t.rows
    && (|| t' == t
        || t' == t.(rows := t.rows[id := t.rows[id].(status := TxStatus.Failed)])
        || (&& PostAll(t.accounts, Legs(id, q)).Some?
            && t' == Tables(PostAll(t.accounts, Legs(id, q)).value, t.journal + Legs(id, q),
                            t.rows[id := SettledRow(t.rows[id], now)])))
  }

  // ------------------------------------------------------- the zero transaction

  /** A call has claimed its key and created its row. */
  lemma Opened(s0: State, p: Pid, q: Request, id: TxId) returns (s: State)
    requires s0.txns == map[] && p !in s0.procs && id !in s0.rows && q.key !in s0.cache
    requires ValidRequest(q) && q.cached && Accepts(s0.accounts, q) && !KeyTaken(s0.rows, q.key)
    ensures Reaches(s0, s) && ReadyToBegin(s, p) && s.procs[p].id == id && s.procs[p].req == q
    ensures s.txns == map[] && s.rows == s0.rows[id := NewRow(q)]
  {
    hide Reaches, ValidRequest, KeyTaken, Accepts, ReadyToBegin, Goto;
    var s1 := Claimed(s0, p, q);
    SnapshotsLead(s1, p, q, NO_FAULTS);
    var s2 := Goto(s1, p, AtCreate);
    GotoTwice(s1, p, AtCreate);
    Then(s0, s1, s2);
    AcceptsExist(s0.accounts, q);
    s := Inserts(s2, p, q, id, Fine);
    Then(s0, s2, s);
  }

  lemma Claimed(s0: State, p: Pid, q: Request) returns (s: State)
    requires p !in s0.procs && q.key !in s0.cache && ValidRequest(q) && q.cached
    ensures Reaches(s0, s) && Stands(s, p, q, AtReadSource, true)
    ensures s == s0.(procs := s.procs, cache := s.cache)
  {
    hide Reaches, ValidRequest;
    var s1 := Arrives(s0, p, q);
    GetOne(s1, p, true);
    var s2 := DoGet(s1, p, true);
    Then(s0, s1, s2);
    ClaimOne(s2, p, Fine);
    s := DoSetNX(s2, p, Fine);
    Then(s0, s2, s);
  }

  /** The zero transaction can be cached: whatever the accounts and the request,
      if the request passes its checks, a failed begin and a failed fail-step are
      enough, and the row stays PENDING. */
  lemma ZeroIsReachable(m: map<AccountId, Account>, q: Request) returns (ss: seq<State>)
    requires ValidRequest(q) && q.cached && Accepts(m, q)
    ensures Run(m, ss) && ZeroCached(ss[|ss| - 1].cache, q.key)
    ensures ss[|ss| - 1].rows == map[0 := NewRow(q)]
  {
    hide Reaches, ValidRequest, Accepts, ReadyToBegin;
    var s0 := InitialState(m);
    var s1 := Opened(s0, 1, q, 0);
    var s2 := NeverBegan(s1, 1);
    Then(s0, s1, s2);
    Ready(s1, 1);
    CanFailAlone(s2, 1, Broken);
    var s3 := Compensates(s2, 1, Broken, true, Fine);
    Then(s0, s2, s3);
    assert Run(m, [s0]);
    ReachedStatesAreInRuns(m, [s0], s3);
    ss :| Run(m, ss) && ss[|ss| - 1] == s3;
  }

  lemma ZeroCanBeCached() returns (m: map<AccountId, Account>, ss: seq<State>, k: Key)
    ensures Run(m, ss) && ZeroCached(ss[|ss| - 1].cache, k) && KeyTaken(ss[|ss| - 1].rows, k)
  {
    var acct := Account(Liability, "EUR", 1, Active, 0);
    m := map[1 := acct, 2 := acct, 3 := acct];
    k := "k";
    var q := Request(k, 1, 2, 1, "EUR", 3, true);
    assert !IsSpace(q.key[0]) && !IsSpace(q.currency[0]);
    hide Run;
    ss := ZeroIsReachable(m, q);
    assert 0 in ss[|ss| - 1].rows;
  }
}
