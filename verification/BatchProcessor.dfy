/** The daily netting run: list the day's SETTLED transfers, net them, flip
    exactly those rows to RECONCILED under a guard, and commit only if the row
    count says that none of them was lost to another run in between. */
module BatchProcessor {
  import opened Types
  import opened Netting
  import opened Protocol
  import opened Storage
  import opened Refinement
  import opened TransactionRepository
  import Settlement
  import Steps

  datatype NettingResult = NettingResult(day: int, currency: Currency, positions: seq<NetPosition>, reconciled: nat)

  datatype NettingError = BeginFailed | QueryFailed | UpdateFailed | RowsLost(expected: nat, updated: nat) | CommitFailed

  datatype RunFaults = RunFaults(begin: bool, list: bool, update: bool, commit: Fault)

  const RUN_FINE: RunFaults := RunFaults(true, true, true, Fine)

  function DayFilter(day: int, z: Zone, currency: Currency): Filter {
    var (start, end) := SettlementDayBounds(day, z);
    Filter(start, end, currency)
  }

  /** The rows that other runs take from this one: those of raced that are SETTLED. */
  function Raced(rows: map<TxId, Row>, raced: set<TxId>): map<TxId, Row> {
    Reconciling(rows, set r | r in raced && r in rows && rows[r].status == TxStatus.Settled)
  }

  function SelectedIds(rows: map<TxId, Row>, filter: Filter): set<TxId> {
    set r | r in rows && Selected(rows[r], filter)
  }

  /** raced are the rows that other runs flip, and commit, between this run's
      query and its update. The run succeeds, in the absence of database errors,
      if and only if they spare everything it listed; it then flips exactly the
      rows it listed and its positions are their netting. Otherwise it leaves
      the rows as the others left them, unless its commit took effect and
      reported an error. */
  method RunDailyNetting(db: Database, repo: Repository, day: int, z: Zone, currency: Currency,
                         raced: set<TxId>, f: RunFaults, ghost world: State, ghost p: Pid)
    returns (r: Result<NettingResult, NettingError>, ghost after: State)
    requires repo.db == db && Shows(db, world) && p !in world.procs
    modifies db`rows
    // What a successful run has done, row by row.
    ensures r.Ok? ==> db.rows.Keys == old(db.rows).Keys && forall x :: x in db.rows ==>
      var row := old(db.rows)[x];
      var start := z.midnight(z.dateOf(day));
      db.rows[x] ==
        if row.status == TxStatus.Settled
           && (x in raced
               || (row.settledAt.Some? && start <= row.settledAt.value < start + 24 * 60 * 60 * 1_000_000_000
                   && (currency == "" || row.currency == currency)))
        then row.(status := TxStatus.Reconciled) else row
    ensures r.Ok? ==>
      && r.value.day == z.midnight(z.dateOf(day)) && r.value.currency == currency
      && r.value.reconciled == |DueIds(old(db.rows), day, z, currency)|
    // Its positions are the netting of exactly the rows it flipped.
    ensures r.Ok? ==> exists listed ::
      && IsListing(old(db.rows), DayFilter(day, z, currency), listed)
      && IdsOf(listed) == DueIds(old(db.rows), day, z, currency)
      && IsNetting(FlowsOf(listed), r.value.positions)
    ensures r.Ok? && currency != "" ==> forall q :: q in r.value.positions ==> q.currency == currency
    // It succeeds exactly when the others spare everything due.
    ensures f == RUN_FINE ==> (r.Ok? <==> raced !! DueIds(old(db.rows), day, z, currency))
    ensures r.Ok? ==> raced !! DueIds(old(db.rows), day, z, currency)
    ensures r.Err? ==>
      || db.rows == old(db.rows) || db.rows == Raced(old(db.rows), raced)
      || (&& f.commit == Lost && raced !! DueIds(old(db.rows), day, z, currency)
          && db.rows == Reconciling(Raced(old(db.rows), raced), DueIds(old(db.rows), day, z, currency)))
    ensures r == Err(BeginFailed) <==> !f.begin
    ensures r == Err(QueryFailed) <==> f.begin && !f.list
    ensures r.Err? && r.error.RowsLost? ==>
      && r.error.expected == |DueIds(old(db.rows), day, z, currency)|
      && r.error.updated == |DueIds(old(db.rows), day, z, currency) - raced| < r.error.expected
    ensures raced == {} ==> Shows(db, after) && Reaches(world, after)
  {
    DueAreSelected(db.rows, day, z, currency);
    hide Reaches, IsNetting, IsListing, SelectedIds, DayFilter, DueIds, IdsOf, Raced, Reconciling, SettlementDayBounds;
    DayBegins(day, z);
    r, after := NetAndReconcile(db, repo, day, z, currency, raced, f, world, p);
    if r.Ok? {
      FlippedRows(old(db.rows), raced, day, z, currency);
      ghost var listed :|
        IsListing(old(db.rows), DayFilter(day, z, currency), listed) && IsNetting(FlowsOf(listed), r.value.positions);
      ListedIds(old(db.rows), DayFilter(day, z, currency), listed);
      if currency != "" {
        PositionsInCurrency(old(db.rows), day, z, currency, listed, r.value.positions);
      }
    }
  }

  /** The rows that a run of the day and the currency is to reconcile. */
  function DueIds(rows: map<TxId, Row>, day: int, z: Zone, currency: Currency): set<TxId> {
    set x | x in rows && rows[x].status == TxStatus.Settled && rows[x].settledAt.Some?
      && z.midnight(z.dateOf(day)) <= rows[x].settledAt.value < z.midnight(z.dateOf(day)) + 24 * 60 * 60 * 1_000_000_000
      && (currency == "" || rows[x].currency == currency)
  }

  lemma DueAreSelected(rows: map<TxId, Row>, day: int, z: Zone, currency: Currency)
    ensures SelectedIds(rows, DayFilter(day, z, currency)) == DueIds(rows, day, z, currency)
  {}

  lemma DayBegins(day: int, z: Zone)
    ensures SettlementDayBounds(day, z).0 == z.midnight(z.dateOf(day))
  {}

  /** The rows after a run that flipped all that was due, and the others' flips. */
  lemma FlippedRows(rows: map<TxId, Row>, raced: set<TxId>, day: int, z: Zone, currency: Currency)
    ensures Reconciling(Raced(rows, raced), DueIds(rows, day, z, currency)).Keys == rows.Keys
    ensures forall x :: x in rows ==>
      var row, start := rows[x], z.midnight(z.dateOf(day));
      Reconciling(Raced(rows, raced), DueIds(rows, day, z, currency))[x] ==
        if row.status == TxStatus.Settled
           && (x in raced
               || (row.settledAt.Some? && start <= row.settledAt.value < start + 24 * 60 * 60 * 1_000_000_000
                   && (currency == "" || row.currency == currency)))
        then row.(status := TxStatus.Reconciled) else row
  {}

  lemma PositionsInCurrency(rows: map<TxId, Row>, day: int, z: Zone, currency: Currency, listed: seq<Listed>,
                            positions: seq<NetPosition>)
    requires IsListing(rows, DayFilter(day, z, currency), listed) && IsNetting(FlowsOf(listed), positions)
    requires currency != ""
    ensures forall q :: q in positions ==> q.currency == currency
  {
    hide IsNetting;
    PositionsHaveFlows(FlowsOf(listed), positions);
    forall f | f in FlowsOf(listed) ensures f.currency == currency {
      var i :| 0 <= i < |listed| && FlowsOf(listed)[i] == f;
      assert listed[i] in listed && listed[i].id in IdsOf(listed);
    }
  }

  /** The query and its netting. */
  method ListAndNet(repo: Repository, filter: Filter) returns (listed: seq<Listed>, positions: seq<NetPosition>)
    ensures IsListing(repo.db.rows, filter, listed) && IsNetting(FlowsOf(listed), positions)
  {
    hide IsListing, IsNetting;
    listed := repo.ListSettledBetween(filter);
    positions := Settlement.NetPositions(FlowsOf(listed));
  }

  /** The listed rows that are still SETTLED. */
  function StillSettled(rows: map<TxId, Row>, listed: seq<Listed>): set<TxId> {
    set r | r in rows && r in IdsOf(listed) && rows[r].status == TxStatus.Settled
  }

  /** The guarded update of the listed rows. */
  method BulkReconcile(db: Database, repo: Repository, listed: seq<Listed>) returns (n: nat)
    requires repo.db == db
    modifies db`rows
    ensures n == |StillSettled(old(db.rows), listed)|
    ensures db.rows == Reconciling(old(db.rows), StillSettled(old(db.rows), listed))
  {
    var ids := [];
    assert listed[..0] == [];
    for i := 0 to |listed|
      invariant db.rows == old(db.rows)
      invariant forall r :: r in ids <==> r in IdsOf(listed[..i])
    {
      IdsOfSnoc(listed[..i], listed[i]);
      assert listed[..i] + [listed[i]] == listed[..i + 1];
      ids := ids + [listed[i].id];
    }
    assert listed[..|listed|] == listed;
    assert Matching(db.rows, ids, TxStatus.Settled) == StillSettled(db.rows, listed);
    n := repo.BulkUpdateStatus(ids, TxStatus.Settled, TxStatus.Reconciled);
    hide Matching, StillSettled;
  }

  /** The same, over the selected rows. */
  method NetAndReconcile(db: Database, repo: Repository, day: int, z: Zone, currency: Currency,
                         raced: set<TxId>, f: RunFaults, ghost world: State, ghost p: Pid)
    returns (r: Result<NettingResult, NettingError>, ghost after: State)
    requires repo.db == db && Shows(db, world) && p !in world.procs
    modifies db`rows
    ensures r.Ok? ==>
      && raced !! SelectedIds(old(db.rows), DayFilter(day, z, currency))
      && r.value.day == SettlementDayBounds(day, z).0 && r.value.currency == currency
      && r.value.reconciled == |SelectedIds(old(db.rows), DayFilter(day, z, currency))|
      && (exists listed :: IsListing(old(db.rows), DayFilter(day, z, currency), listed)
            && IsNetting(FlowsOf(listed), r.value.positions))
      && db.rows == Reconciling(Raced(old(db.rows), raced), SelectedIds(old(db.rows), DayFilter(day, z, currency)))
    ensures r.Err? ==>
      || db.rows == old(db.rows) || db.rows == Raced(old(db.rows), raced)
      || (&& f.commit == Lost && raced !! SelectedIds(old(db.rows), DayFilter(day, z, currency))
          && db.rows == Reconciling(Raced(old(db.rows), raced), SelectedIds(old(db.rows), DayFilter(day, z, currency))))
    ensures r == Err(BeginFailed) <==> !f.begin
    ensures r == Err(QueryFailed) <==> f.begin && !f.list
    ensures r.Err? && r.error.RowsLost? ==>
      && r.error.expected == |SelectedIds(old(db.rows), DayFilter(day, z, currency))|
      && r.error.updated == |SelectedIds(old(db.rows), DayFilter(day, z, currency)) - raced| < r.error.expected
    ensures f == RUN_FINE ==> (r.Ok? <==> raced !! SelectedIds(old(db.rows), DayFilter(day, z, currency)))
    ensures raced == {} ==> Shows(db, after) && Reaches(world, after)
  {
    hide IsNetting, IsListing, Reaches, Reconciling, Raced, SelectedIds, DayFilter, StillSettled, IdsOf;
    Stay(world);
    after := world;
    if !f.begin {
      return Err(BeginFailed), after;
    }
    if !f.list {
      return Err(QueryFailed), after;
    }
    var filter := DayFilter(day, z, currency);
    var listed, positions := ListAndNet(repo, filter);
    var res := NettingResult(SettlementDayBounds(day, z).0, currency, positions, |listed|);
    ListedIds(db.rows, filter, listed);
    ghost var done := NettingIsRun(world, p, filter, listed, positions);

    NoRace(db.rows);
    db.rows := Raced(db.rows, raced);
    if |listed| == 0 {
      NoRace(db.rows);
      if f.commit != Fine {
        return Err(CommitFailed), after;
      }
      return Ok(res), done;
    }
    var rows := db.rows;
    RacedRows(old(db.rows), raced, filter, listed);
    if !f.update {
      return Err(UpdateFailed), after;
    }
    var n := BulkReconcile(db, repo, listed);
    if n != |listed| {
      db.rows := rows;
      return Err(RowsLost(|listed|, n)), after;
    }
    if f.commit == Broken {
      db.rows := rows;
      return Err(CommitFailed), after;
    }
    after := done;
    if f.commit == Lost {
      return Err(CommitFailed), after;
    }
    r := Ok(res);
  }

  lemma ListedIds(rows: map<TxId, Row>, filter: Filter, listed: seq<Listed>)
    requires IsListing(rows, filter, listed)
    ensures IdsOf(listed) == SelectedIds(rows, filter) && |IdsOf(listed)| == |listed|
    ensures |listed| == 0 ==> IdsOf(listed) == {}
    ensures forall r :: r in IdsOf(listed) ==> rows[r].status == TxStatus.Settled
  {
    Steps.DistinctCount(listed);
    forall r | r in IdsOf(listed) ensures r in SelectedIds(rows, filter) {
      assert r in rows;
    }
  }

  lemma NoRace(rows: map<TxId, Row>)
    ensures Raced(rows, {}) == rows && Reconciling(rows, {}) == rows
    ensures IdsOf([]) == {}
  {}

  /** The rows that the others spare are still SETTLED, and they are all that was
      listed if and only if none was raced. */
  lemma RacedRows(rows: map<TxId, Row>, raced: set<TxId>, filter: Filter, listed: seq<Listed>)
    requires IsListing(rows, filter, listed)
    ensures StillSettled(Raced(rows, raced), listed) == SelectedIds(rows, filter) - raced
    ensures |SelectedIds(rows, filter) - raced| <= |SelectedIds(rows, filter)| == |listed|
    ensures |SelectedIds(rows, filter) - raced| == |listed| <==> raced !! SelectedIds(rows, filter)
    ensures raced !! SelectedIds(rows, filter) ==> SelectedIds(rows, filter) - raced == SelectedIds(rows, filter)
  {
    ListedIds(rows, filter, listed);
    var m := SelectedIds(rows, filter) - raced;
    assert StillSettled(Raced(rows, raced), listed) == m;
    Steps.SubsetSize(m, IdsOf(listed));
    if |m| == |listed| {
      Steps.FullSubset(m, IdsOf(listed));
    }
  }
}
