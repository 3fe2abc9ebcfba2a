/** The account service's status change: a check on what was read, then a write
    that nothing guards. */
module AccountService {
  import opened Types
  import opened Ledger
  import opened Protocol
  import opened Storage
  import opened Refinement

  datatype StatusError = AccountNotFound | AlreadyInStatus | ClosedIsFinal

  /** The changes the service means to allow; from FROZEN that leaves ACTIVE and
      CLOSED, so its third check never fails between the three statuses. */
  predicate Allowed(from: AccountStatus, to: AccountStatus) {
    from != to && from != Closed
  }

  function WithStatus(acct: Account, st: AccountStatus): Account {
    acct.(status := st, version := acct.version + 1)
  }

  /** The account after the racing change, if there is one. */
  function AfterRace(acct: Account, raced: Option<AccountStatus>): Account {
    if raced.Some? then WithStatus(acct, raced.value) else acct
  }

  /** raced is a status that another call writes between this call's read and
      its write, if any. What is checked is the status that was read; what is
      overwritten is whatever is there by then. */
  method UpdateAccountStatus(db: Database, id: AccountId, newStatus: AccountStatus, raced: Option<AccountStatus>,
                             ghost world: State)
    returns (r: Result<Account, StatusError>, ghost after: State)
    requires Shows(db, world)
    modifies db`accounts
    ensures r.Ok? <==> id in old(db.accounts) && Allowed(old(db.accounts)[id].status, newStatus)
    ensures r.Ok? <==>
      id in old(db.accounts) && old(db.accounts)[id].status != newStatus && old(db.accounts)[id].status != Closed
    ensures r == Err(AccountNotFound) <==> id !in old(db.accounts)
    ensures r == Err(AlreadyInStatus) <==> id in old(db.accounts) && old(db.accounts)[id].status == newStatus
    ensures r == Err(ClosedIsFinal) <==>
      id in old(db.accounts) && old(db.accounts)[id].status == Closed && newStatus != Closed
    ensures r.Err? ==> db.accounts == old(db.accounts)
    ensures r.Ok? ==>
      db.accounts == old(db.accounts)[id := old(db.accounts)[id].(
        status := newStatus, version := old(db.accounts)[id].version + if raced.Some? then 2 else 1)]
    ensures r.Ok? ==>
      && r.value == WithStatus(AfterRace(old(db.accounts)[id], raced), newStatus)
      && db.accounts == old(db.accounts)[id := r.value]
    ensures Shows(db, after) && Reaches(world, after)
  {
    hide Reaches;
    Stay(world);
    after := world;
    if id !in db.accounts {
      return Err(AccountNotFound), after;
    }
    var current := db.accounts[id];
    if current.status == newStatus {
      return Err(AlreadyInStatus), after;
    }
    if current.status == Closed {
      return Err(ClosedIsFinal), after;
    }
    if raced.Some? {
      db.accounts := db.accounts[id := WithStatus(db.accounts[id], raced.value)];
      StatusIsRun(world, id, raced.value);
      after := DoSetStatus(world, id, raced.value);
    }
    ghost var before := after;
    StatusIsRun(before, id, newStatus);
    after := DoSetStatus(before, id, newStatus);
    Then(world, before, after);
    var updated := WithStatus(db.accounts[id], newStatus);
    db.accounts := db.accounts[id := updated];
    r := Ok(updated);
  }

  // ---------------------------------------------- any number of racing changes

  /** One account's status, and what each call in flight has read. */
  datatype Board = Board(status: AccountStatus, seen: map<Pid, AccountStatus>)

  datatype StatusStep = Read(p: Pid) | Write(p: Pid)

  // wants is the new status each call asks for.
  ghost predicate StatusStepOk(wants: map<Pid, AccountStatus>, b: Board, s: StatusStep, b': Board) {
    s.p in wants &&
    match s
    case Read(p) => b' == b.(seen := b.seen[p := b.status])
    case Write(p) =>
      p in b.seen && Allowed(b.seen[p], wants[p]) && b' == Board(wants[p], b.seen - {p})
  }

  ghost predicate StatusRun(
    st: AccountStatus, wants: map<Pid, AccountStatus>, steps: seq<StatusStep>, bs: seq<Board>)
  {
    && |bs| == |steps| + 1 && bs[0] == Board(st, map[])
    && forall i :: 0 <= i < |steps| ==> StatusStepOk(wants, bs[i], steps[i], bs[i + 1])
  }

  ghost predicate ClosedStays(bs: seq<Board>) {
    forall i, j :: 0 <= i <= j < |bs| && bs[i].status == Closed ==> bs[j].status == Closed
  }

  /** One call: its read at i and its write at k, with nothing of its own between. */
  predicate Span(steps: seq<StatusStep>, i: nat, k: nat) {
    && i < k < |steps| && steps[i].Read? && steps[k] == Write(steps[i].p)
    && forall m :: i < m < k ==> steps[m].p != steps[i].p
  }

  predicate Writes(wants: map<Pid, AccountStatus>, s: StatusStep, closes: bool) {
    s.Write? && s.p in wants && (wants[s.p] == Closed <==> closes)
  }

  /** A closing write falls between the read and the write of a call that asks
      for another status. Only the calls and the order of their steps matter. */
  ghost predicate Straddles(wants: map<Pid, AccountStatus>, steps: seq<StatusStep>) {
    exists i: nat, j: nat, k: nat ::
      Span(steps, i, k) && i < j < k && Writes(wants, steps[j], true) && Writes(wants, steps[k], false)
  }

  /** CLOSED is final in a run exactly when no call that asks for another status
      has a closing write between its read and its write. */
  lemma ClosedStaysIff(st: AccountStatus, wants: map<Pid, AccountStatus>, steps: seq<StatusStep>, bs: seq<Board>)
    requires StatusRun(st, wants, steps, bs)
    ensures ClosedStays(bs) <==> !Straddles(wants, steps)
  {
    if i: nat, j: nat, k: nat :|
      Span(steps, i, k) && i < j < k && Writes(wants, steps[j], true) && Writes(wants, steps[k], false)
    {
      assert StatusStepOk(wants, bs[j], steps[j], bs[j + 1]) && StatusStepOk(wants, bs[k], steps[k], bs[k + 1]);
      assert bs[j + 1].status == Closed && bs[k + 1].status != Closed;
    }
    if !ClosedStays(bs) {
      var i, j, k := Reopening(st, wants, steps, bs);
    }
  }

  /** How a run that reopens the account does it: the call that reopens it read
      another status than CLOSED, and the account was closed in between. */
  lemma Reopening(st: AccountStatus, wants: map<Pid, AccountStatus>, steps: seq<StatusStep>, bs: seq<Board>)
    returns (i: nat, j: nat, k: nat)
    requires StatusRun(st, wants, steps, bs) && !ClosedStays(bs)
    ensures Span(steps, i, k) && i < j < k
    ensures Writes(wants, steps[j], true) && Writes(wants, steps[k], false)
    ensures Allowed(bs[i].status, wants[steps[k].p])
  {
    var c, o :| 0 <= c <= o < |bs| && bs[c].status == Closed && bs[o].status != Closed;
    k := Opening(bs, c, o);
    assert StatusStepOk(wants, bs[k], steps[k], bs[k + 1]);
    i := LastRead(st, wants, steps, bs, k, steps[k].p);
    j := Closing(bs, i, k);
    assert StatusStepOk(wants, bs[j], steps[j], bs[j + 1]) && StatusStepOk(wants, bs[i], steps[i], bs[i + 1]);
  }

  /** Where the status ceases to be CLOSED, and where it becomes CLOSED. */
  lemma {:induction false} Opening(bs: seq<Board>, c: nat, o: nat) returns (k: nat)
    requires c <= o < |bs| && bs[c].status == Closed && bs[o].status != Closed
    ensures c <= k < o && bs[k].status == Closed && bs[k + 1].status != Closed
    decreases o - c
  {
    if bs[c + 1].status != Closed {
      k := c;
    } else {
      k := Opening(bs, c + 1, o);
    }
  }

  lemma {:induction false} Closing(bs: seq<Board>, i: nat, k: nat) returns (j: nat)
    requires i < k < |bs| && bs[i].status != Closed && bs[k].status == Closed
    ensures i <= j < k && bs[j].status != Closed && bs[j + 1].status == Closed
    decreases k - i
  {
    if bs[i + 1].status == Closed {
      j := i;
    } else {
      j := Closing(bs, i + 1, k);
    }
  }

  lemma {:induction false} LastRead(
    st: AccountStatus, wants: map<Pid, AccountStatus>, steps: seq<StatusStep>, bs: seq<Board>, k: nat, p: Pid)
    returns (i: nat)
    requires StatusRun(st, wants, steps, bs) && k < |bs| && p in bs[k].seen
    ensures i < k && steps[i] == Read(p) && bs[i].status == bs[k].seen[p]
    ensures forall m :: i < m < k ==> steps[m].p != p
    decreases k
  {
    assert StatusStepOk(wants, bs[k - 1], steps[k - 1], bs[k]);
    if steps[k - 1] == Read(p) {
      i := k - 1;
    } else {
      i := LastRead(st, wants, steps, bs, k - 1, p);
    }
  }

  ghost predicate CanReopen(st: AccountStatus, wants: map<Pid, AccountStatus>) {
    exists steps: seq<StatusStep>, bs: seq<Board> :: StatusRun(st, wants, steps, bs) && !ClosedStays(bs)
  }

  /** Some other status than CLOSED and st' that the account can have. */
  predicate OtherStatus(st: AccountStatus, wants: map<Pid, AccountStatus>, st': AccountStatus) {
    st != st' || exists r :: r in wants && wants[r] != Closed && wants[r] != st'
  }

  /** p closes, and q asks for something else and has something else to read. */
  predicate Racing(st: AccountStatus, wants: map<Pid, AccountStatus>, p: Pid, q: Pid) {
    && p in wants && q in wants && wants[p] == Closed && wants[q] != Closed
    && OtherStatus(st, wants, wants[q])
  }

  /** What can be told before the calls: a set of calls can reopen an account if
      and only if it is not CLOSED at the start, one call closes it, and another
      asks for a status that is neither CLOSED nor the only other one there is
      for it to read. */
  lemma CanReopenIff(st: AccountStatus, wants: map<Pid, AccountStatus>)
    ensures CanReopen(st, wants) <==>
      && st != Closed
      && exists p, q :: Racing(st, wants, p, q)
  {
    if CanReopen(st, wants) {
      var steps: seq<StatusStep>, bs: seq<Board> :| StatusRun(st, wants, steps, bs) && !ClosedStays(bs);
      var i, j, k := Reopening(st, wants, steps, bs);
      StatusesOf(st, wants, steps, bs, i);
      assert Racing(st, wants, steps[j].p, steps[k].p);
    }
    if p, q :| st != Closed && Racing(st, wants, p, q) {
      if st != wants[q] {
        var bs := Race(wants, st, p, q);
        var steps := [Read(q), Read(p), Write(p), Write(q)];
        assert StatusRun(st, wants, steps, bs);
        assert !ClosedStays(bs);
      } else {
        var r :| r in wants && wants[r] != Closed && wants[r] != wants[q];
        var b0 := Board(st, map[]);
        var b1 := b0.(seen := map[r := st]);
        assert b1 == b0.(seen := b0.seen[r := b0.status]) && map[r := st] - {r} == map[];
        var tail := Race(wants, wants[r], p, q);
        var bs := [b0, b1] + tail;
        var steps := [Read(r), Write(r), Read(q), Read(p), Write(p), Write(q)];
        forall i | 0 <= i < |steps| ensures StatusStepOk(wants, bs[i], steps[i], bs[i + 1]) {
          if i >= 2 {
            assert bs[i] == tail[i - 2] && bs[i + 1] == tail[i - 1];
          }
        }
        assert StatusRun(st, wants, steps, bs);
        assert bs[5].status == Closed && bs[6].status != Closed && !ClosedStays(bs);
      }
    }
  }

  /** Both read now; p closes the account and q writes its own status over that. */
  lemma Race(wants: map<Pid, AccountStatus>, now: AccountStatus, p: Pid, q: Pid)
    returns (bs: seq<Board>)
    requires p in wants && q in wants && wants[p] == Closed && wants[q] != Closed
    requires now != Closed && now != wants[q]
    ensures |bs| == 5 && bs[0] == Board(now, map[])
    ensures StatusStepOk(wants, bs[0], Read(q), bs[1]) && StatusStepOk(wants, bs[1], Read(p), bs[2])
    ensures StatusStepOk(wants, bs[2], Write(p), bs[3]) && StatusStepOk(wants, bs[3], Write(q), bs[4])
    ensures bs[3].status == Closed && bs[4].status != Closed
  {
    var b0 := Board(now, map[]);
    var b1 := b0.(seen := b0.seen[q := now]);
    var b2 := b1.(seen := b1.seen[p := now]);
    var b3 := Board(Closed, b2.seen - {p});
    bs := [b0, b1, b2, b3, Board(wants[q], b3.seen - {q})];
  }

  lemma {:induction false} StatusesOf(
    st: AccountStatus, wants: map<Pid, AccountStatus>, steps: seq<StatusStep>, bs: seq<Board>, i: nat)
    requires StatusRun(st, wants, steps, bs) && i < |bs|
    ensures bs[i].status == st || exists r :: r in wants && wants[r] == bs[i].status
    ensures st == Closed ==> bs[i].status == Closed && forall p :: p in bs[i].seen ==> bs[i].seen[p] == Closed
  {
    if i > 0 {
      StatusesOf(st, wants, steps, bs, i - 1);
      assert StatusStepOk(wants, bs[i - 1], steps[i - 1], bs[i]);
    }
  }

  /** Two racing calls that reopen a closed account: both read ACTIVE, one closes
      it, and the other then freezes it. */
  lemma ClosedCanReopen() returns (wants: map<Pid, AccountStatus>, steps: seq<StatusStep>, bs: seq<Board>)
    ensures StatusRun(Active, wants, steps, bs) && |steps| == 4
    ensures bs[3].status == Closed && bs[4].status == Frozen && !ClosedStays(bs)
  {
    wants := map[1 := Closed, 2 := Frozen];
    steps := [Read(2), Read(1), Write(1), Write(2)];
    bs := Race(wants, Active, 1, 2);
    assert StatusStepOk(wants, bs[3], steps[3], bs[4]);
  }
}
