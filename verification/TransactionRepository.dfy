/** The transaction repository: inserts under the unique idempotency key, status
    updates guarded by the status they expect, and the queries of the
    settlement batch. */
module TransactionRepository {
  import opened Types
  import opened Protocol
  import opened Storage

  datatype RepositoryError =
    | DuplicateIdempotencyKey | TransactionNotFound | InvalidStatusUpdate | ConstraintViolated
    | ConnectionLost

  // ------------------------------------------------------------ listing order

  /** ORDER BY settled_at, id. */
  predicate Before(rows: map<TxId, Row>, r: TxId, t: TxId)
    requires r in rows && t in rows && rows[r].settledAt.Some? && rows[t].settledAt.Some?
  {
    rows[r].settledAt.value < rows[t].settledAt.value || (rows[r].settledAt == rows[t].settledAt && r < t)
  }

  predicate IsFirst(rows: map<TxId, Row>, todo: set<TxId>, r: TxId)
    requires forall t :: t in todo ==> t in rows && rows[t].settledAt.Some?
  {
    r in todo && forall t :: t in todo && t != r ==> Before(rows, r, t)
  }

  lemma {:induction false} FirstExists(rows: map<TxId, Row>, todo: set<TxId>)
    requires todo != {}
    requires forall t :: t in todo ==> t in rows && rows[t].settledAt.Some?
    ensures exists r :: IsFirst(rows, todo, r)
    decreases todo
  {
    var x :| x in todo;
    var rest := todo - {x};
    if rest == {} {
      assert todo == {x};
      assert IsFirst(rows, todo, x);
    } else {
      FirstExists(rows, rest);
      var r :| IsFirst(rows, rest, r);
      assert todo == rest + {x};
      assert IsFirst(rows, todo, if Before(rows, x, r) then x else r);
    }
  }

  class Repository {
    const db: Database

    constructor (db: Database)
      ensures this.db == db
    {
      this.db := db;
    }

    /** INSERT with a fresh id. The CHECK constraints come first, then the unique
        key, then the references to accounts. */
    method CreateTransaction(id: TxId, row: Row) returns (r: Result<Row, RepositoryError>)
      requires id !in db.rows
      modifies db`rows
      ensures r.Ok? <==>
        && row.amount > 0 && row.from != row.to && !KeyTaken(old(db.rows), row.key)
        && row.from in db.accounts && row.to in db.accounts
      ensures r == Err(DuplicateIdempotencyKey) <==>
        row.amount > 0 && row.from != row.to && KeyTaken(old(db.rows), row.key)
      ensures r.Ok? ==> r.value == row && db.rows == old(db.rows)[id := row]
      ensures r.Err? ==> db.rows == old(db.rows) && r.error in {ConstraintViolated, DuplicateIdempotencyKey}
    {
      if row.amount <= 0 || row.from == row.to {
        return Err(ConstraintViolated);
      }
      if exists t :: t in db.rows && db.rows[t].key == row.key {
        return Err(DuplicateIdempotencyKey);
      }
      if row.from !in db.accounts || row.to !in db.accounts {
        return Err(ConstraintViolated);
      }
      db.rows := db.rows[id := row];
      r := Ok(row);
    }

    /** UPDATE ... WHERE id = $1 AND status = $2: the update happens exactly if
        the row still has the expected status; a settling time is only ever
        added or replaced, never erased. */
    method UpdateStatus(id: TxId, from: TxStatus, to: TxStatus, settledAt: Option<int>)
      returns (r: Result<Row, RepositoryError>)
      modifies db`rows
      ensures r.Ok? <==> id in old(db.rows) && old(db.rows)[id].status == from
      ensures r.Ok? ==>
        && r.value.status == to && r.value == old(db.rows)[id].(status := to, settledAt := r.value.settledAt)
        && r.value.settledAt == (if settledAt.Some? then settledAt else old(db.rows)[id].settledAt)
        && db.rows == old(db.rows)[id := r.value]
      ensures r.Err? ==> r.error == InvalidStatusUpdate && db.rows == old(db.rows)
    {
      if id !in db.rows || db.rows[id].status != from {
        return Err(InvalidStatusUpdate);
      }
      var row := db.rows[id].(status := to);
      if settledAt.Some? {
        row := row.(settledAt := settledAt);
      }
      db.rows := db.rows[id := row];
      r := Ok(row);
    }

    /** Fails a row that is PENDING or PROCESSING; any other row is returned as
        it stands, so that a SETTLED transfer is never overwritten. */
    method FailTransaction(id: TxId) returns (r: Result<Row, RepositoryError>)
      modifies db`rows
      ensures r.Ok? <==> id in old(db.rows)
      ensures r.Ok? && Failable(old(db.rows)[id]) ==> r.value == old(db.rows)[id].(status := TxStatus.Failed)
      ensures r.Ok? && !Failable(old(db.rows)[id]) ==> r.value == old(db.rows)[id]
      ensures r.Ok? && old(db.rows)[id].status in {TxStatus.Pending, TxStatus.Processing} ==>
        r.value == old(db.rows)[id].(status := TxStatus.Failed)
      ensures r.Ok? && old(db.rows)[id].status !in {TxStatus.Pending, TxStatus.Processing} ==>
        r.value == old(db.rows)[id]
      ensures r.Ok? ==> db.rows == old(db.rows)[id := r.value]
      ensures r.Err? ==> r.error == TransactionNotFound && db.rows == old(db.rows)
    {
      if id in db.rows && db.rows[id].status in {TxStatus.Pending, TxStatus.Processing} {
        var row := db.rows[id].(status := TxStatus.Failed);
        db.rows := db.rows[id := row];
        return Ok(row);
      }
      if id !in db.rows {
        return Err(TransactionNotFound);
      }
      return Ok(db.rows[id]);
    }

    method GetTransactionByIdempotencyKey(key: Key) returns (r: Result<Listed, RepositoryError>)
      ensures r.Ok? <==> exists t :: t in db.rows && db.rows[t].key == key
      ensures r.Err? ==> r.error == TransactionNotFound
      ensures r.Ok? ==> r.value.id in db.rows && r.value.row == db.rows[r.value.id] && r.value.row.key == key
    {
      var todo := db.rows.Keys;
      while todo != {}
        invariant todo <= db.rows.Keys
        invariant forall t :: t in db.rows && t !in todo ==> db.rows[t].key != key
      {
        var t :| t in todo;
        todo := todo - {t};
        if db.rows[t].key == key {
          return Ok(Listed(t, db.rows[t]));
        }
      }
      return Err(TransactionNotFound);
    }

    /** The rows that settled in the window, each once, in query order. */
    method ListSettledBetween(filter: Filter) returns (out: seq<Listed>)
      ensures IsListing(db.rows, filter, out)
      ensures forall l :: l in out ==> l.id in db.rows && l.row == db.rows[l.id]
      ensures forall r :: r in db.rows ==>
        ((exists l :: l in out && l.id == r) <==>
          && db.rows[r].status == TxStatus.Settled && db.rows[r].settledAt.Some?
          && filter.start <= db.rows[r].settledAt.value && db.rows[r].settledAt.value < filter.end
          && (filter.currency == "" || db.rows[r].currency == filter.currency))
      ensures forall i, j :: 0 <= i < j < |out| ==>
        && out[i].id != out[j].id && out[i].row.settledAt.Some? && out[j].row.settledAt.Some?
        && (out[i].row.settledAt.value < out[j].row.settledAt.value
            || (out[i].row.settledAt.value == out[j].row.settledAt.value && out[i].id < out[j].id))
    {
      out := [];
      var todo := set r | r in db.rows && Selected(db.rows[r], filter);
      while todo != {}
        invariant forall r :: r in todo ==> r in db.rows && Selected(db.rows[r], filter)
        invariant forall l :: l in out ==> l.id in db.rows && db.rows[l.id] == l.row && l.row.settledAt.Some?
        invariant forall r :: r in db.rows ==> (Selected(db.rows[r], filter) <==> r in todo || r in IdsOf(out))
        invariant forall l, t :: l in out && t in todo ==> Before(db.rows, l.id, t)
        invariant InOrder(db.rows, out)
      {
        FirstExists(db.rows, todo);
        var r :| IsFirst(db.rows, todo, r);
        IdsOfSnoc(out, Listed(r, db.rows[r]));
        out := out + [Listed(r, db.rows[r])];
        todo := todo - {r};
      }
      ListedExactly(db.rows, filter, out);
    }

    /** UPDATE ... WHERE id = ANY($1) AND status = $2, with its row count. */
    method BulkUpdateStatus(ids: seq<TxId>, from: TxStatus, to: TxStatus) returns (n: nat)
      modifies db`rows
      ensures db.rows.Keys == old(db.rows).Keys
      ensures forall r :: r in db.rows ==>
        db.rows[r].status == (if r in Matching(old(db.rows), ids, from) then to else old(db.rows)[r].status)
        && db.rows[r] == old(db.rows)[r].(status := db.rows[r].status)
      ensures n == |Matching(old(db.rows), ids, from)|
    {
      if |ids| == 0 {
        assert Matching(db.rows, ids, from) == {};
        return 0;
      }
      var hits := Matching(db.rows, ids, from);
      db.rows := map r | r in db.rows :: if r in hits then db.rows[r].(status := to) else db.rows[r];
      n := |hits|;
    }
  }

  /** The listed rows, by the fields of the rows. */
  lemma ListedExactly(rows: map<TxId, Row>, filter: Filter, out: seq<Listed>)
    requires forall r :: r in rows ==> (Selected(rows[r], filter) <==> r in IdsOf(out))
    ensures forall r :: r in rows ==>
      ((exists l :: l in out && l.id == r) <==>
        && rows[r].status == TxStatus.Settled && rows[r].settledAt.Some?
        && filter.start <= rows[r].settledAt.value && rows[r].settledAt.value < filter.end
        && (filter.currency == "" || rows[r].currency == filter.currency))
  {
    forall r | r in rows ensures (exists l :: l in out && l.id == r) <==> r in IdsOf(out) {}
  }

  ghost predicate InOrder(rows: map<TxId, Row>, out: seq<Listed>) {
    forall i, j :: 0 <= i < j < |out| ==>
      && out[i].id in rows && out[j].id in rows
      && rows[out[i].id].settledAt.Some? && rows[out[j].id].settledAt.Some?
      && Before(rows, out[i].id, out[j].id)
  }

  function Matching(rows: map<TxId, Row>, ids: seq<TxId>, from: TxStatus): set<TxId> {
    set r | r in rows && r in ids && rows[r].status == from
  }

  // ----------------------------------------------------------- settlement days

  // 24 hours in nanoseconds.
  const DAY: int := 86_400_000_000_000

  /** A time zone: date d begins at the instant begins(d), and midnight(d) is the
      instant that its 00:00 resolves to, which is another one when clocks skip
      midnight. A date that the zone skips begins when the next one does. */
  datatype Zone = Zone(begins: int -> int, dateOf: int -> int, midnight: int -> int)

  ghost predicate ZoneOk(z: Zone) {
    && (forall d, e :: d <= e ==> z.begins(d) <= z.begins(e) && z.midnight(d) <= z.midnight(e))
    && (forall t, d :: z.dateOf(t) == d <==> z.begins(d) <= t < z.begins(d + 1))
  }

  function SettlementDayBounds(day: int, z: Zone): (r: (int, int))
    ensures r.1 - r.0 == 24 * 60 * 60 * 1_000_000_000
  {
    var start := z.midnight(z.dateOf(day));
    (start, start + DAY)
  }

  predicate InWindow(t: int, day: int, z: Zone) {
    var (start, end) := SettlementDayBounds(day, z);
    start <= t < end
  }

  /** Date d begins at its midnight and has 24 hours. */
  predicate Regular(z: Zone, d: int) {
    z.midnight(d) == z.begins(d) && z.begins(d + 1) == z.begins(d) + DAY
  }

  /** The window of a day is exactly its calendar day if and only if that day
      begins at its midnight and has 24 hours. */
  lemma WindowIsCalendarDay(day: int, z: Zone)
    requires ZoneOk(z)
    ensures (forall t :: InWindow(t, day, z) <==> z.dateOf(t) == z.dateOf(day)) <==> Regular(z, z.dateOf(day))
  {
    var d := z.dateOf(day);
    var begin, next, start, end := z.begins(d), z.begins(d + 1), z.midnight(d), z.midnight(d) + DAY;
    if forall t :: InWindow(t, day, z) <==> z.dateOf(t) == d {
      assert InWindow(begin, day, z) <==> z.dateOf(begin) == d;
      assert InWindow(next, day, z) <==> z.dateOf(next) == d;
      assert InWindow(start, day, z) <==> z.dateOf(start) == d;
      assert InWindow(next - 1, day, z) <==> z.dateOf(next - 1) == d;
      assert InWindow(end - 1, day, z) <==> z.dateOf(end - 1) == d;
    }
  }

  /** Date d exists in the zone. */
  ghost predicate Occurs(z: Zone, d: int) {
    z.begins(d) < z.begins(d + 1)
  }

  /** Each moment lies in its own day's window and in no other's, if and only if
      every day there is begins at its midnight and has 24 hours. */
  lemma WindowsTileTime(z: Zone)
    requires ZoneOk(z)
    ensures (forall t, day :: InWindow(t, day, z) <==> z.dateOf(t) == z.dateOf(day))
      <==> forall d :: Occurs(z, d) ==> Regular(z, d)
  {
    hide ZoneOk, InWindow, Occurs, Regular;
    if forall t, day :: InWindow(t, day, z) <==> z.dateOf(t) == z.dateOf(day) {
      forall d | Occurs(z, d) ensures Regular(z, d) {
        OccursAtItsBeginning(z, d);
        WindowIsCalendarDay(z.begins(d), z);
      }
    }
    if forall d :: Occurs(z, d) ==> Regular(z, d) {
      forall t, day ensures InWindow(t, day, z) <==> z.dateOf(t) == z.dateOf(day) {
        DatesOccur(z, day);
        WindowIsCalendarDay(day, z);
      }
    }
  }

  lemma OccursAtItsBeginning(z: Zone, d: int)
    requires ZoneOk(z) && Occurs(z, d)
    ensures z.dateOf(z.begins(d)) == d
  {}

  lemma DatesOccur(z: Zone, t: int)
    requires ZoneOk(z)
    ensures Occurs(z, z.dateOf(t))
  {}

  /** What a longer day costs: a transfer that settles after one window ends and
      before the next begins is selected by no day's run, whatever the currency. */
  lemma LongDayLosesItsLastHour(z: Zone, d: int, row: Row, t: int)
    requires ZoneOk(z) && row.settledAt == Some(t) && z.midnight(d) + DAY <= t < z.midnight(d + 1)
    ensures forall day, c :: !Selected(row, Filter(SettlementDayBounds(day, z).0, SettlementDayBounds(day, z).1, c))
  {
    forall day, c
      ensures !Selected(row, Filter(SettlementDayBounds(day, z).0, SettlementDayBounds(day, z).1, c))
    {
      var e := z.dateOf(day);
      if e <= d {
        assert z.midnight(e) <= z.midnight(d);
      } else {
        assert z.midnight(d + 1) <= z.midnight(e);
      }
    }
  }

  // One hour.
  const HOUR: int := DAY / 24

  /** A zone whose clocks go back one hour in the course of date 0. */
  const AUTUMN: Zone := Zone(AutumnBegins, AutumnDate, AutumnBegins)

  function AutumnBegins(d: int): int {
    if d <= 0 then d * DAY else d * DAY + HOUR
  }

  function AutumnDate(t: int): int {
    if t < DAY then t / DAY else if t < DAY + HOUR then 0 else (t - HOUR) / DAY
  }

  /** The loss is real: in such a zone a transfer of date 0 is in no window. */
  lemma LastHourIsLost(row: Row)
    requires row.settledAt == Some(DAY)
    ensures ZoneOk(AUTUMN) && AUTUMN.dateOf(DAY) == 0
    ensures forall day, c ::
      !Selected(row, Filter(SettlementDayBounds(day, AUTUMN).0, SettlementDayBounds(day, AUTUMN).1, c))
  {
    AutumnIsZone();
    assert AutumnBegins(0) == 0 && AutumnBegins(1) == DAY + HOUR;
    assert AUTUMN.midnight(0) + DAY <= DAY < AUTUMN.midnight(0 + 1);
    hide ZoneOk, Selected, SettlementDayBounds, AutumnBegins;
    LongDayLosesItsLastHour(AUTUMN, 0, row, DAY);
  }

  lemma AutumnIsZone()
    ensures ZoneOk(AUTUMN)
  {
    hide AutumnBegins, AutumnDate;
    forall d, e | d <= e ensures AUTUMN.begins(d) <= AUTUMN.begins(e) && AUTUMN.midnight(d) <= AUTUMN.midnight(e) {
      AutumnRises(d, e);
    }
    forall t, d ensures AUTUMN.dateOf(t) == d <==> AUTUMN.begins(d) <= t < AUTUMN.begins(d + 1) {
      AutumnDates(t, d);
    }
  }

  lemma AutumnRises(d: int, e: int)
    requires d <= e
    ensures AutumnBegins(d) <= AutumnBegins(e)
  {}

  lemma AutumnDates(t: int, d: int)
    ensures AutumnDate(t) == d <==> AutumnBegins(d) <= t < AutumnBegins(d + 1)
  {}
}
