/** What the engine guarantees in every run: any number of concurrent transfers,
    posts, netting runs and status changes, with any pattern of faults. */
module Guarantees {
  import opened Types
  import opened Ledger
  import opened Netting
  import opened Protocol
  import opened Invariant
  import Steps
  import Commits
  import Safety
  import Lifecycle

  // ------------------------------------------------------------ the serial order

  /** Serializability: in every reachable state the committed accounts and
      journal are exactly what the committed units produce when executed one at
      a time, in commit order, from the opening accounts, every check passing;
      and the transfers among those units are the SETTLED and RECONCILED rows,
      each once. Transfers that failed, or are still running, left no trace. */
  lemma Serializable(opening: map<AccountId, Account>, ss: seq<State>, i: nat)
    requires Run(opening, ss) && i < |ss|
    ensures var s := ss[i];
      && Replay(opening, Events(s.log)) == Some(s.accounts)
      && s.journal == JournalOf(Events(s.log))
      && SettledOnce(s.log)
      && (forall r :: r in SettledIn(s.log) <==> r in s.rows && Settledness(s.rows[r]))
      && (forall u :: u in s.log && u.SettleUnit? ==> u.id in s.rows && SameTransfer(NewRow(u.req), s.rows[u.id]))
  {
    hide ProcInv, DbInv, CacheInv, IsNetting;
    Safety.RunsAreSafe(opening, ss, i);
    LogFacts(ss[i]);
  }

  lemma LogFacts(s: State)
    requires RowInv(s.rows, s.creator, s.committed) && LogInv(s.log, s.rows, s.creator)
    ensures forall r :: r in SettledIn(s.log) <==> r in s.rows && Settledness(s.rows[r])
    ensures forall r :: r in ReconciledIn(s.log) <==> r in s.rows && s.rows[r].status == TxStatus.Reconciled
    ensures forall u :: u in s.log && u.SettleUnit? ==>
      u.id in s.rows && u.id in s.creator && s.creator[u.id].req == u.req && SameTransfer(NewRow(u.req), s.rows[u.id])
  {
    hide IsNetting;
    Commits.LoggedRows(s.log, s.rows, s.creator);
    forall u | u in s.log && u.SettleUnit?
      ensures u.id in s.rows && u.id in s.creator && s.creator[u.id].req == u.req && SameTransfer(NewRow(u.req), s.rows[u.id])
    {
      assert UnitOk(u, s.rows, s.creator);
      assert RowOk(s.rows[u.id], s.creator[u.id], s.committed);
    }
  }

  // -------------------------------------------------------------- atomic outcome

  /** The journal entries that belong to transaction r, in order. */
  function EntriesFor(journal: seq<Entry>, r: TxId): seq<Entry> {
    if journal == [] then []
    else
      var e := journal[|journal| - 1];
      EntriesFor(journal[..|journal| - 1], r) + if e.origin == Some(r) then [e] else []
  }

  lemma {:induction false} EntriesForConcat(j: seq<Entry>, k: seq<Entry>, r: TxId)
    ensures EntriesFor(j + k, r) == EntriesFor(j, r) + EntriesFor(k, r)
  {
    if k == [] {
      assert j + k == j;
    } else {
      assert (j + k)[..|j + k| - 1] == j + k[..|k| - 1];
      EntriesForConcat(j, k[..|k| - 1], r);
    }
  }

  lemma EntriesForUnit(u: Unit, r: TxId)
    requires u.PostUnit? ==> u.entry.origin == None
    ensures EntriesFor(EntriesOf(EventOf(u)), r) ==
      if u.SettleUnit? && u.id == r then Legs(u.id, u.req) else []
  {
    match u
    case SettleUnit(id, q) =>
      var e, f := ClearingEntry(id, q), SettlementEntry(id, q);
      assert [e, f][..1] == [e];
      assert EntriesFor([e], r) == EntriesFor([e][..0], r) + if e.origin == Some(r) then [e] else [];
    case PostUnit(e) => assert [e][..0] == [];
    case StatusUnit(_, _) =>
    case NettingUnit(_, _) =>
  }

  lemma {:induction false} EntriesForLog(log: seq<Unit>, rows: map<TxId, Row>, creator: map<TxId, Birth>, r: TxId)
    requires forall u :: u in log ==> UnitOk(u, rows, creator)
    requires SettledOnce(log)
    ensures EntriesFor(JournalOf(Events(log)), r) ==
      if r in SettledIn(log) && r in creator then Legs(r, creator[r].req) else []
  {
    hide UnitOk, EntriesFor, JournalOf, Events, EntriesOf, EventOf, Legs;
    if log == [] {
      NoEntries(r);
    } else {
      var init, u := log[..|log| - 1], log[|log| - 1];
      assert u in log;
      assert forall v :: v in init ==> v in log;
      EntriesForLog(init, rows, creator, r);
      JournalSnoc(log);
      EntriesForConcat(JournalOf(Events(init)), EntriesOf(EventOf(u)), r);
      KindFacts(u, rows, creator);
      EntriesForUnit(u, r);
    }
  }

  lemma NoEntries(r: TxId)
    ensures EntriesFor(JournalOf(Events([])), r) == []
  {}

  lemma KindFacts(u: Unit, rows: map<TxId, Row>, creator: map<TxId, Birth>)
    requires UnitOk(u, rows, creator)
    ensures u.PostUnit? ==> u.entry.origin == None
    ensures u.SettleUnit? ==> u.id in creator && creator[u.id].req == u.req
  {
    hide IsNetting;
  }

  lemma JournalSnoc(log: seq<Unit>)
    requires log != []
    ensures JournalOf(Events(log)) == JournalOf(Events(log[..|log| - 1])) + EntriesOf(EventOf(log[|log| - 1]))
  {
    hide EntriesOf, EventOf;
    var evs := Events(log);
    assert evs[..|evs| - 1] == Events(log[..|log| - 1]);
  }

  /** Atomic outcome: a SETTLED or RECONCILED row has exactly its two entries,
      clearing then settlement; a PENDING or FAILED row has none; no other
      status is ever visible; and no entry refers to a row that does not exist.
      It holds even when COMMIT reports an error after taking effect. */
  lemma AtomicOutcome(opening: map<AccountId, Account>, ss: seq<State>, i: nat, r: TxId)
    requires Run(opening, ss) && i < |ss|
    ensures var s := ss[i];
      if r !in s.rows then EntriesFor(s.journal, r) == []
      else if Settledness(s.rows[r])
      then exists q: Request :: SameTransfer(NewRow(q), s.rows[r]) && EntriesFor(s.journal, r) == Legs(r, q)
      else (s.rows[r].status == TxStatus.Pending || s.rows[r].status == TxStatus.Failed) && EntriesFor(s.journal, r) == []
  {
    hide ProcInv, DbInv, CacheInv, IsNetting;
    Safety.RunsAreSafe(opening, ss, i);
    var s := ss[i];
    LogFacts(s);
    EntriesForLog(s.log, s.rows, s.creator, r);
    if r in s.rows {
      assert RowOk(s.rows[r], s.creator[r], s.committed);
    }
  }

  /** The entries of a settled row say what the row says: the first debits its
      source and credits the clearing account, the second debits that and credits
      its destination, each by the amount and in the currency of the row, both
      POSTED by the transfer service for this row; the row is dated. */
  lemma EntriesNameTheRow(opening: map<AccountId, Account>, ss: seq<State>, i: nat, r: TxId)
    requires Run(opening, ss) && i < |ss| && r in ss[i].rows
    requires ss[i].rows[r].status == TxStatus.Settled || ss[i].rows[r].status == TxStatus.Reconciled
    ensures ss[i].rows[r].settledAt.Some?
    ensures r in ss[i].creator
    ensures var row, c := ss[i].rows[r], ss[i].creator[r].req.clearing;
      EntriesFor(ss[i].journal, r) == [
        Entry(Some(r), "transfer clearing", row.currency, Posted, "transfer-service",
              [Line(row.from, Debit, row.amount), Line(c, Credit, row.amount)]),
        Entry(Some(r), "transfer settlement", row.currency, Posted, "transfer-service",
              [Line(c, Debit, row.amount), Line(row.to, Credit, row.amount)])]
  {
    hide ProcInv, DbInv, CacheInv, IsNetting;
    Safety.RunsAreSafe(opening, ss, i);
    var s := ss[i];
    LogFacts(s);
    EntriesForLog(s.log, s.rows, s.creator, r);
    hide EntriesFor, SettledOnce, Events, JournalOf;
    assert RowOk(s.rows[r], s.creator[r], s.committed);
  }

  /** A row that is not settled is PENDING or FAILED and has no settling time. */
  lemma UnsettledRows(opening: map<AccountId, Account>, ss: seq<State>, i: nat, r: TxId)
    requires Run(opening, ss) && i < |ss| && r in ss[i].rows
    ensures ss[i].rows[r].status in {TxStatus.Settled, TxStatus.Reconciled, TxStatus.Pending, TxStatus.Failed}
    ensures ss[i].rows[r].settledAt.Some? <==> ss[i].rows[r].status in {TxStatus.Settled, TxStatus.Reconciled}
  {
    SettledRowsAreDated(opening, ss, i, r);
    RowStatusDates(opening, ss, i, r);
    AtomicOutcome(opening, ss, i, r);
  }

  /** The row of a transfer is its creator's request, field by field. */
  lemma RowsAreRequested(opening: map<AccountId, Account>, ss: seq<State>, i: nat, r: TxId)
    requires Run(opening, ss) && i < |ss| && r in ss[i].rows
    ensures r in ss[i].creator
    ensures var row, q := ss[i].rows[r], ss[i].creator[r].req;
      row.key == q.key && row.from == q.from && row.to == q.to && row.amount == q.amount && row.currency == q.currency
  {
    hide ProcInv, DbInv, CacheInv, SerialInv, LogInv;
    Safety.RunsAreSafe(opening, ss, i);
    assert RowOk(ss[i].rows[r], ss[i].creator[r], ss[i].committed);
  }

  // ---------------------------------------------------------------- exactly once

  /** The journal entries of every transaction with key k. */
  function EntriesOfKey(journal: seq<Entry>, rows: map<TxId, Row>, k: Key): seq<Entry> {
    if journal == [] then []
    else
      var e := journal[|journal| - 1];
      EntriesOfKey(journal[..|journal| - 1], rows, k)
      + if e.origin.Some? && e.origin.value in rows && rows[e.origin.value].key == k then [e] else []
  }

  lemma {:induction false} OneRowPerKey(journal: seq<Entry>, rows: map<TxId, Row>, k: Key, r: TxId)
    requires r in rows && rows[r].key == k
    requires forall r' :: r' in rows && rows[r'].key == k ==> r' == r
    ensures EntriesOfKey(journal, rows, k) == EntriesFor(journal, r)
  {
    if journal != [] {
      OneRowPerKey(journal[..|journal| - 1], rows, k, r);
    }
  }

  lemma {:induction false} NoRowNoEntries(journal: seq<Entry>, rows: map<TxId, Row>, k: Key)
    requires !KeyTaken(rows, k)
    ensures EntriesOfKey(journal, rows, k) == []
  {
    if journal != [] {
      NoRowNoEntries(journal[..|journal| - 1], rows, k);
    }
  }

  /** Exactly once per key: whatever the callers sharing a key do, and whenever
      the cache forgets its marker, at most one row has the key, and the journal
      holds for it either nothing or one clearing and settlement pair. */
  lemma ExactlyOncePerKey(opening: map<AccountId, Account>, ss: seq<State>, i: nat, k: Key)
    requires Run(opening, ss) && i < |ss|
    ensures var s := ss[i];
      && (forall r, r' :: r in s.rows && r' in s.rows && s.rows[r].key == k && s.rows[r'].key == k ==> r == r')
      && (EntriesOfKey(s.journal, s.rows, k) == []
          || exists r: TxId, q: Request :: r in s.rows && q.key == k && EntriesOfKey(s.journal, s.rows, k) == Legs(r, q))
  {
    hide ProcInv, DbInv, CacheInv, SerialInv, LogInv, RowOk;
    Safety.RunsAreSafe(opening, ss, i);
    var s := ss[i];
    if KeyTaken(s.rows, k) {
      var r :| r in s.rows && s.rows[r].key == k;
      OneRowPerKey(s.journal, s.rows, k, r);
      AtomicOutcome(opening, ss, i, r);
      if EntriesFor(s.journal, r) != [] {
        var q :| SameTransfer(NewRow(q), s.rows[r]) && EntriesFor(s.journal, r) == Legs(r, q);
        assert q.key == k;
      }
    } else {
      NoRowNoEntries(s.journal, s.rows, k);
    }
  }

  /** Rows are never deleted or re-pointed, so a key's one row is the only one
      it ever has; its status only moves along the table. */
  lemma {:induction false} RowsPersist(opening: map<AccountId, Account>, ss: seq<State>, i: nat, j: nat, r: TxId)
    requires Run(opening, ss) && i <= j < |ss| && r in ss[i].rows
    ensures r in ss[j].rows && SameTransfer(ss[i].rows[r], ss[j].rows[r])
    ensures var row, row' := ss[i].rows[r], ss[j].rows[r];
      row'.key == row.key && row'.from == row.from && row'.to == row.to && row'.amount == row.amount && row'.currency == row.currency
    ensures Lifecycle.Follows(ss[i].rows[r].status, ss[j].rows[r].status)
    ensures Settledness(ss[i].rows[r]) ==> Settledness(ss[j].rows[r]) && ss[j].rows[r].settledAt == ss[i].rows[r].settledAt
    ensures ss[i].rows[r].status == TxStatus.Failed ==> ss[j].rows[r].status == TxStatus.Failed
    decreases j
  {
    hide Inv, Step;
    if i < j {
      RowsPersist(opening, ss, i, j - 1, r);
      Safety.RunsAreSafe(opening, ss, j - 1);
      assert SomeStep(ss[j - 1], ss[j]);
      var l :| Step(ss[j - 1], l, ss[j]);
      Safety.StepGrows(opening, ss[j - 1], l, ss[j]);
      SettledRowsAreDated(opening, ss, j - 1, r);
    }
  }

  /** How often the committed row r changes along ss. */
  function RowChanges(ss: seq<State>, r: TxId): nat {
    if |ss| < 2 then 0
    else
      var before, after := ss[|ss| - 2].rows, ss[|ss| - 1].rows;
      RowChanges(ss[..|ss| - 1], r) + if r in before && r in after && before[r] != after[r] then 1 else 0
  }

  /** A row changes no more often than its rank has risen: at most three times
      in any run, whatever is interleaved. */
  lemma {:induction false} RowsChangeAtMostThrice(opening: map<AccountId, Account>, ss: seq<State>, n: nat, r: TxId)
    requires Run(opening, ss) && n < |ss|
    ensures RowChanges(ss[..n + 1], r) <= (if r in ss[n].rows then Lifecycle.Rank(ss[n].rows[r].status) else 0) <= 3
  {
    if n == 0 {
      assert ss[0] == InitialState(opening);
    } else {
      hide SomeStep, Run, Lifecycle.Rank, InitialState;
      RowsChangeAtMostThrice(opening, ss, n - 1, r);
      assert ss[..n + 1][..n] == ss[..n];
      if r in ss[n - 1].rows {
        ChangedRowsClimb(opening, ss, n - 1, r);
      }
    }
  }

  lemma ChangedRowsClimb(opening: map<AccountId, Account>, ss: seq<State>, i: nat, r: TxId)
    requires Run(opening, ss) && i + 1 < |ss| && r in ss[i].rows
    ensures r in ss[i + 1].rows
    ensures ss[i + 1].rows[r] == ss[i].rows[r] ||
      Lifecycle.Rank(ss[i].rows[r].status) < Lifecycle.Rank(ss[i + 1].rows[r].status)
    ensures Lifecycle.Rank(ss[i].rows[r].status) <= Lifecycle.Rank(ss[i + 1].rows[r].status)
  {
    RowsPersist(opening, ss, i, i + 1, r);
    RowStatusDates(opening, ss, i, r);
    RowStatusDates(opening, ss, i + 1, r);
  }

  lemma RowStatusDates(opening: map<AccountId, Account>, ss: seq<State>, i: nat, r: TxId)
    requires Run(opening, ss) && i < |ss| && r in ss[i].rows
    ensures !Settledness(ss[i].rows[r]) ==> ss[i].rows[r].settledAt == None
  {
    hide ProcInv, DbInv, CacheInv, SerialInv, LogInv;
    Safety.RunsAreSafe(opening, ss, i);
    assert RowOk(ss[i].rows[r], ss[i].creator[r], ss[i].committed);
  }

  lemma SettledRowsAreDated(opening: map<AccountId, Account>, ss: seq<State>, i: nat, r: TxId)
    requires Run(opening, ss) && i < |ss| && r in ss[i].rows
    ensures Settledness(ss[i].rows[r]) ==> ss[i].rows[r].settledAt.Some?
  {
    hide ProcInv, DbInv, CacheInv, SerialInv, LogInv;
    Safety.RunsAreSafe(opening, ss, i);
    assert RowOk(ss[i].rows[r], ss[i].creator[r], ss[i].committed);
  }

  // --------------------------------------------------------------- stable replay

  ghost predicate DoomedApart(s: State) {
    forall r :: r in s.creator && s.creator[r].pid in s.doomed ==> s.creator[r].pid !in s.committed
  }

  /** Once the row of a key is SETTLED, an answer about that key names that row. */
  lemma AnswerNamesRow(s: State, k: Key, ans: Answer, r: TxId)
    requires RowInv(s.rows, s.creator, s.committed) && DoomedApart(s)
    requires AnswerOk(k, ans, s.rows, s.creator, s.doomed)
    requires r in s.rows && s.rows[r].key == k
    ensures ans.Snapshot? ==> ans.id == r && SameTransfer(ans.row, s.rows[r]) && Lifecycle.Follows(ans.row.status, s.rows[r].status)
    ensures Settledness(s.rows[r]) ==> ans.Snapshot?
  {
    assert RowOk(s.rows[r], s.creator[r], s.committed);
    if ans.NoTransaction? {
      var r' :| r' in s.rows && DoomedRow(r', k, s.rows, s.creator, s.doomed);
      assert r' == r;
    }
  }

  lemma DoomedNeverCommits(opening: map<AccountId, Account>, s: State)
    requires Inv(opening, s)
    ensures DoomedApart(s)
  {
    hide DbInv, CacheInv, SerialInv, LogInv, RowOk;
    forall r | r in s.creator && s.creator[r].pid in s.doomed ensures s.creator[r].pid !in s.committed {
      assert ProcOk(s, s.creator[r].pid);
    }
  }

  lemma AnswersAreOk(opening: map<AccountId, Account>, s: State, p: Pid)
    requires Inv(opening, s) && Calls(s, p) && Late(s.procs[p].pc) && s.procs[p].pc.out.Returned?
    ensures AnswerOk(s.procs[p].req.key, s.procs[p].pc.out.answer, s.rows, s.creator, s.doomed)
  {
    hide DbInv, CacheInv, SerialInv, LogInv, RowInv, AnswerOk, NetterInv, PosterInv, StageOk, Full;
    assert ProcOk(s, p);
  }

  /** Row r is not settled in state i, nor in any later state of the run. */
  ghost predicate NeverSettles(ss: seq<State>, i: nat, r: TxId) {
    forall j :: i <= j < |ss| ==> r in ss[j].rows && !Settledness(ss[j].rows[r])
  }

  ghost predicate Doomed(s: State, r: TxId) {
    r in s.rows && r in s.creator && s.creator[r].pid in s.doomed
  }

  lemma {:induction false} DoomedForGood(opening: map<AccountId, Account>, ss: seq<State>, i: nat, j: nat, r: TxId)
    requires Run(opening, ss) && i <= j < |ss| && Doomed(ss[i], r)
    ensures Doomed(ss[j], r)
    decreases j
  {
    hide Inv, Step;
    if i < j {
      DoomedForGood(opening, ss, i, j - 1, r);
      Safety.RunsAreSafe(opening, ss, j - 1);
      assert SomeStep(ss[j - 1], ss[j]);
      var l :| Step(ss[j - 1], l, ss[j]);
      Safety.StepGrows(opening, ss[j - 1], l, ss[j]);
    }
  }

  /** A row whose creator failed to begin never settles. */
  lemma DoomedNeverSettles(opening: map<AccountId, Account>, ss: seq<State>, i: nat, r: TxId)
    requires Run(opening, ss) && i < |ss| && Doomed(ss[i], r)
    ensures NeverSettles(ss, i, r)
  {
    hide Inv, Run, DoomedApart;
    forall j | i <= j < |ss| ensures r in ss[j].rows && !Settledness(ss[j].rows[r]) {
      DoomedForGood(opening, ss, i, j, r);
      Safety.RunsAreSafe(opening, ss, j);
      DoomedUnsettled(opening, ss[j], r);
    }
  }

  lemma DoomedUnsettled(opening: map<AccountId, Account>, s: State, r: TxId)
    requires Inv(opening, s) && Doomed(s, r)
    ensures !Settledness(s.rows[r])
  {
    DoomedNeverCommits(opening, s);
    hide ProcInv, DbInv, CacheInv, SerialInv, LogInv;
    assert RowOk(s.rows[r], s.creator[r], s.committed);
  }

  /** An answer about key k is about a row that exists and has the key; the zero
      transaction is about a doomed one. */
  lemma AnswerHasRow(s: State, k: Key, ans: Answer) returns (r: TxId)
    requires RowInv(s.rows, s.creator, s.committed) && AnswerOk(k, ans, s.rows, s.creator, s.doomed)
    ensures r in s.rows && s.rows[r].key == k
    ensures ans.NoTransaction? ==> Doomed(s, r)
  {
    if ans.Snapshot? {
      r := ans.id;
    } else {
      r :| r in s.rows && DoomedRow(r, k, s.rows, s.creator, s.doomed);
    }
  }

  /** An answer about key k in state i of a run is about row r: an earlier stage of
      it, or the zero transaction, and then r never settles. */
  ghost predicate Answers(ss: seq<State>, i: nat, k: Key, ans: Answer, r: TxId)
    requires i < |ss|
  {
    && r in ss[i].rows && ss[i].rows[r].key == k
    && match ans
       case Snapshot(id, row) =>
         id == r && SameTransfer(row, ss[i].rows[r]) && Lifecycle.Follows(row.status, ss[i].rows[r].status)
       case NoTransaction => NeverSettles(ss, i, r)
  }

  lemma AnswerInRun(opening: map<AccountId, Account>, ss: seq<State>, i: nat, k: Key, ans: Answer) returns (r: TxId)
    requires Run(opening, ss) && i < |ss|
    requires Inv(opening, ss[i]) && AnswerOk(k, ans, ss[i].rows, ss[i].creator, ss[i].doomed)
    ensures Answers(ss, i, k, ans, r)
  {
    hide Run, Doomed, NeverSettles, RowInv, AnswerOk, DoomedApart;
    DoomedNeverCommits(opening, ss[i]);
    hide DbInv, CacheInv, SerialInv, LogInv, ProcOk;
    r := AnswerHasRow(ss[i], k, ans);
    AnswerNamesRow(ss[i], k, ans, r);
    if ans.NoTransaction? {
      DoomedNeverSettles(opening, ss, i, r);
    }
  }

  /** Stable replay: whenever a call with key k returns a transaction, from the
      cache, after the unique-key violation or as its creator, there is a row
      with that key, it is the only one, and the call returns an earlier stage of
      it; or the zero transaction, and then the row never settles. */
  lemma StableReplay(opening: map<AccountId, Account>, ss: seq<State>, i: nat, p: Pid) returns (r: TxId)
    requires Run(opening, ss) && i < |ss|
    requires Calls(ss[i], p) && Late(ss[i].procs[p].pc) && ss[i].procs[p].pc.out.Returned?
    ensures Answers(ss, i, ss[i].procs[p].req.key, ss[i].procs[p].pc.out.answer, r)
    ensures forall r' :: r' in ss[i].rows && ss[i].rows[r'].key == ss[i].procs[p].req.key ==> r' == r
  {
    hide ProcInv, DbInv, CacheInv, SerialInv, LogInv, RowOk, AnswerOk, Step;
    Safety.RunsAreSafe(opening, ss, i);
    AnswersAreOk(opening, ss[i], p);
    r := AnswerInRun(opening, ss, i, ss[i].procs[p].req.key, ss[i].procs[p].pc.out.answer);
  }

  /** The cache never lies: besides the marker it holds, for a key, only the
      final state of the key's row, which the row has kept since (up to its
      reconciliation), or the zero transaction of a row that never settles. */
  lemma CacheHoldsFinalResults(opening: map<AccountId, Account>, ss: seq<State>, i: nat, k: Key) returns (r: TxId)
    requires Run(opening, ss) && i < |ss| && k in ss[i].cache && ss[i].cache[k].Final?
    ensures Answers(ss, i, k, ss[i].cache[k].answer, r)
    ensures var ans := ss[i].cache[k].answer;
      ans.Snapshot? ==>
        && (Settledness(ans.row) || ans.row.status == TxStatus.Failed)
        && (Settledness(ans.row) <==> Settledness(ss[i].rows[r]))
  {
    hide ProcInv, DbInv, SerialInv, LogInv, AnswerOk, Step;
    Safety.RunsAreSafe(opening, ss, i);
    r := AnswerInRun(opening, ss, i, k, ss[i].cache[k].answer);
    assert RowOk(ss[i].rows[r], ss[i].creator[r], ss[i].committed);
  }

  // ----------------------------------------------------------- reconciled once

  /** Reconciled exactly once: the lists of committed netting runs are pairwise
      disjoint, together they are the RECONCILED rows, and each run's positions
      are the netting of exactly the rows it flipped, as those rows still are. */
  lemma ReconciledExactlyOnce(opening: map<AccountId, Account>, ss: seq<State>, i: nat)
    requires Run(opening, ss) && i < |ss|
    ensures var s := ss[i];
      && (forall m, n :: 0 <= m < n < |s.log| && s.log[m].NettingUnit? && s.log[n].NettingUnit? ==>
            IdsOf(s.log[m].listed) !! IdsOf(s.log[n].listed))
      && (forall r :: r in s.rows && s.rows[r].status == TxStatus.Reconciled <==> RunWith(s.log, r))
      && (forall u :: u in s.log && u.NettingUnit? ==>
            && IsNetting(FlowsOf(u.listed), u.positions) && DistinctIds(u.listed)
            && forall l :: l in u.listed ==>
                 l.id in s.rows && s.rows[l.id] == l.row.(status := TxStatus.Reconciled))
  {
    hide ProcInv, DbInv, CacheInv, SerialInv, RowOk, UnitOk, IsNetting;
    Safety.RunsAreSafe(opening, ss, i);
    var s := ss[i];
    LogFacts(s);
    RunsAreDisjoint(s.log);
    forall u | u in s.log && u.NettingUnit?
      ensures IsNetting(FlowsOf(u.listed), u.positions) && DistinctIds(u.listed)
      ensures forall l :: l in u.listed ==> l.id in s.rows && s.rows[l.id] == l.row.(status := TxStatus.Reconciled)
    {
      RunFacts(u, s.rows, s.creator);
    }
    hide RunWith, IdsOf, DistinctIds, FlowsOf;
  }

  lemma RunFacts(u: Unit, rows: map<TxId, Row>, creator: map<TxId, Birth>)
    requires UnitOk(u, rows, creator) && u.NettingUnit?
    ensures IsNetting(FlowsOf(u.listed), u.positions) && DistinctIds(u.listed)
    ensures forall l :: l in u.listed ==> l.id in rows && rows[l.id] == l.row.(status := TxStatus.Reconciled)
  {
    hide IsNetting;
  }

  /** Some committed netting run lists row r. */
  ghost predicate RunWith(log: seq<Unit>, r: TxId) {
    exists m :: 0 <= m < |log| && log[m].NettingUnit? && r in IdsOf(log[m].listed)
  }

  lemma {:induction false} RunsAreDisjoint(log: seq<Unit>)
    requires ReconciledOnce(log)
    ensures forall r :: r in ReconciledIn(log) <==> RunWith(log, r)
    ensures forall m, n :: 0 <= m < n < |log| && log[m].NettingUnit? && log[n].NettingUnit? ==>
      IdsOf(log[m].listed) !! IdsOf(log[n].listed)
  {
    if log != [] {
      var init, u := log[..|log| - 1], log[|log| - 1];
      RunsAreDisjoint(init);
      forall r ensures r in ReconciledIn(log) <==> RunWith(log, r) {
        if RunWith(init, r) {
          var m :| 0 <= m < |init| && init[m].NettingUnit? && r in IdsOf(init[m].listed);
          assert log[m] == init[m];
        }
        if RunWith(log, r) {
          var m :| 0 <= m < |log| && log[m].NettingUnit? && r in IdsOf(log[m].listed);
          assert m < |init| ==> init[m] == log[m];
        }
        if u.NettingUnit? && r in IdsOf(u.listed) {
          assert log[|log| - 1] == u;
        }
      }
      forall m, n | 0 <= m < n < |log| && log[m].NettingUnit? && log[n].NettingUnit?
        ensures IdsOf(log[m].listed) !! IdsOf(log[n].listed)
      {
        assert log[m] == init[m];
        if n < |init| {
          assert log[n] == init[n];
        } else {
          assert forall r :: r in IdsOf(log[m].listed) ==> RunWith(init, r);
        }
      }
    }
  }

  /** A run commits only if it won every row it listed: with its updates done,
      it can finish if and only if it flipped all of them itself; a run that lost
      a row to another cannot, and until a run commits its writes are private. */
  lemma LosersCannotFinish(opening: map<AccountId, Account>, ss: seq<State>, i: nat, p: Pid)
    requires Run(opening, ss) && i < |ss|
    requires Nets(ss[i], p) && ss[i].procs[p].run.Updating? && ss[i].procs[p].run.todo == {}
    ensures var listed := ss[i].procs[p].run.listed;
      CanFinishRun(ss[i], p) <==> forall l :: l in listed ==> l.id in ss[i].txns[p].rows
  {
    hide DbInv, CacheInv, SerialInv, LogInv, RowInv, IsNetting, TransferInv;
    Safety.RunsAreSafe(opening, ss, i);
    var s := ss[i];
    var listed := s.procs[p].run.listed;
    assert ProcOk(s, p);
    Steps.DistinctCount(listed);
    assert |s.txns[p].rows.Keys| == |s.txns[p].rows|;
    if CanFinishRun(s, p) {
      Steps.FullSubset(s.txns[p].rows.Keys, IdsOf(listed));
      forall l | l in listed ensures l.id in s.txns[p].rows {
        assert l.id in IdsOf(listed);
      }
    }
    if forall l :: l in listed ==> l.id in s.txns[p].rows {
      assert s.txns[p].rows.Keys == IdsOf(listed);
    }
  }
}
