/** Row locks on accounts. Creating a transaction row takes a shared lock on its
    source and then on its destination, for the two references to accounts, and
    releases both when the insert commits. A database transaction that posts
    entries locks exclusively, in rounds, one round a post; within a round it
    locks the accounts it does not hold yet in ascending id order, and it keeps
    every lock until it commits or aborts. */
module Locking {
  import opened Types

  /** refs is what the client's insert references, got how many of these it has
      locked; with no refs it has no insert, or has done with it. */
  datatype Client = Client(
    refs: seq<AccountId>, got: nat, rounds: seq<set<AccountId>>, round: nat, held: set<AccountId>)

  type System = map<Pid, Client>

  /** The accounts that a client still has to lock before it can go on. */
  function Wanted(c: Client): set<AccountId> {
    if c.refs != [] then (if c.got < |c.refs| then {c.refs[c.got]} else {})
    else if c.round < |c.rounds| then c.rounds[c.round] - c.held
    else {}
  }

  function Shares(c: Client): set<AccountId> {
    set i | 0 <= i < c.got && i < |c.refs| :: c.refs[i]
  }

  /** d's lock on a is in the way of c's: shared locks tolerate each other. */
  predicate Conflict(c: Client, d: Client, a: AccountId) {
    a in d.held || (c.refs == [] && a in Shares(d))
  }

  predicate Free(sys: System, p: Pid, a: AccountId)
    requires p in sys
  {
    forall q :: q in sys && q != p ==> !Conflict(sys[p], sys[q], a)
  }

  // Advance ends an insert or a round; Quit is the end of the transaction, by
  // commit or by abort.
  datatype Step = Acquire(p: Pid) | Advance(p: Pid) | Quit(p: Pid)

  predicate Enabled(sys: System, st: Step) {
    && st.p in sys
    && match st
       case Acquire(p) => Wanted(sys[p]) != {} && Free(sys, p, Min(Wanted(sys[p])))
       case Advance(p) => Wanted(sys[p]) == {} && (sys[p].refs != [] || sys[p].round + 1 < |sys[p].rounds|)
       case Quit(p) => true
  }

  function Acquired(c: Client): Client
    requires Wanted(c) != {}
  {
    if c.refs != [] then c.(got := c.got + 1) else c.(held := c.held + {Min(Wanted(c))})
  }

  function Advanced(c: Client): Client {
    if c.refs != [] then c.(refs := [], got := 0) else c.(round := c.round + 1)
  }

  function Next(sys: System, st: Step): System
    requires Enabled(sys, st)
  {
    match st
    case Acquire(p) => sys[p := Acquired(sys[p])]
    case Advance(p) => sys[p := Advanced(sys[p])]
    case Quit(p) => sys - {p}
  }

  predicate Legal(sys: System, steps: seq<Step>) {
    steps == [] || (Enabled(sys, steps[0]) && Legal(Next(sys, steps[0]), steps[1..]))
  }

  function Exec(sys: System, steps: seq<Step>): System
    requires Legal(sys, steps)
  {
    if steps == [] then sys else Exec(Next(sys, steps[0]), steps[1..])
  }

  /** p cannot lock its next account because of q's lock on it. */
  predicate Waits(sys: System, p: Pid, q: Pid) {
    && p in sys && q in sys && p != q
    && Wanted(sys[p]) != {} && Conflict(sys[p], sys[q], Min(Wanted(sys[p])))
  }

  ghost predicate Blocked(sys: System, ds: set<Pid>, p: Pid) {
    exists q :: q in ds && Waits(sys, p, q)
  }

  /** The transactions of ds wait for one another: a cycle of the wait-for graph
      and whatever hangs on it. The graph has a cycle iff some ds exists. */
  ghost predicate Deadlock(sys: System, ds: set<Pid>) {
    ds != {} && forall p {:trigger Blocked(sys, ds, p)} :: p in ds ==> Blocked(sys, ds, p)
  }

  ghost predicate Exclusive(sys: System) {
    forall p, q :: p in sys && q in sys && p != q ==> sys[p].held !! sys[q].held && sys[p].held !! Shares(sys[q])
  }

  lemma StepKeepsExclusive(sys: System, st: Step)
    requires Exclusive(sys) && Enabled(sys, st)
    ensures Exclusive(Next(sys, st))
  {
    if st.Acquire? {
      SharesAcquired(sys[st.p]);
    }
  }

  lemma SharesAcquired(c: Client)
    requires Wanted(c) != {}
    ensures Shares(Acquired(c)) == if c.refs == [] then {} else Shares(c) + {Min(Wanted(c))}
    ensures Acquired(c).held == if c.refs == [] then c.held + {Min(Wanted(c))} else c.held
  {}

  // ------------------------------------------------------- single-entry posts

  ghost predicate SinglePosts(sys: System) {
    forall p :: p in sys ==>
      var c := sys[p];
      && c.refs == [] && |c.rounds| == 1 && c.round == 0
      && forall h, w :: h in c.held && w in Wanted(c) ==> h < w
  }

  lemma StepKeepsSinglePosts(sys: System, st: Step)
    requires SinglePosts(sys) && Enabled(sys, st)
    ensures SinglePosts(Next(sys, st))
  {
    if st.Acquire? {
      var c := sys[st.p];
      var m := Min(Wanted(c));
      var c' := Next(sys, st)[st.p];
      forall h, w | h in c'.held && w in Wanted(c') ensures h < w {
        assert w in Wanted(c);
        assert w != m;
      }
    }
  }

  predicate Waiting(sys: System, p: Pid) {
    p in sys && Wanted(sys[p]) != {}
  }

  lemma {:induction false} HighestWanted(sys: System, ds: set<Pid>) returns (p: Pid)
    requires ds != {} && forall d :: d in ds ==> Waiting(sys, d)
    ensures p in ds && Waiting(sys, p)
    ensures forall d :: d in ds ==> Waiting(sys, d) && Min(Wanted(sys[d])) <= Min(Wanted(sys[p]))
    decreases ds
  {
    p :| p in ds;
    if ds != {p} {
      var q := HighestWanted(sys, ds - {p});
      assert forall d :: d in ds ==> d == p || d in ds - {p};
      if Min(Wanted(sys[p])) < Min(Wanted(sys[q])) {
        p := q;
      }
    }
  }

  lemma NoCycle(sys: System, ds: set<Pid>)
    requires SinglePosts(sys)
    ensures !Deadlock(sys, ds)
  {
    if d :| d in ds && !Waiting(sys, d) {
      assert !Blocked(sys, ds, d);
    } else if ds != {} {
      var p := HighestWanted(sys, ds);
      assert !Blocked(sys, ds, p);
    }
  }

  lemma SomeCanStep(sys: System) returns (p: Pid)
    requires SinglePosts(sys) && sys != map[]
    ensures p in sys && forall q :: !Waits(sys, p, q)
  {
    hide SinglePosts, Waits, Blocked, Wanted;
    NoCycle(sys, sys.Keys);
    var ds := sys.Keys;
    assert ds != {} && !Deadlock(sys, ds);
    p :| p in ds && !Blocked(sys, ds, p);
    NotBlocked(sys, p);
  }

  lemma NotBlocked(sys: System, p: Pid)
    requires !Blocked(sys, sys.Keys, p)
    ensures forall q :: !Waits(sys, p, q)
  {
    hide Wanted, Conflict;
    forall q ensures !Waits(sys, p, q) {
      assert Waits(sys, p, q) ==> q in sys.Keys;
    }
  }

  ghost predicate SomeoneFree(sys: System) {
    exists p :: p in sys && forall q :: !Waits(sys, p, q)
  }

  /** One call of InsertJournalEntry for each process, with the accounts its
      entry touches, before any has locked anything. */
  function AllPosts(accounts: map<Pid, set<AccountId>>): System {
    map p | p in accounts :: Client([], 0, [accounts[p]], 0, {})
  }

  /** Posts of one entry each never deadlock: in every reachable state the
      wait-for graph has no cycle, and while a transaction is open some
      transaction is not waiting. */
  lemma PostsNeverDeadlock(accounts: map<Pid, set<AccountId>>, steps: seq<Step>)
    requires Legal(AllPosts(accounts), steps)
    ensures forall ds :: !Deadlock(Exec(AllPosts(accounts), steps), ds)
    ensures Exec(AllPosts(accounts), steps) != map[] ==> SomeoneFree(Exec(AllPosts(accounts), steps))
  {
    SinglePostsRun(AllPosts(accounts), steps);
  }

  lemma {:induction false} SinglePostsRun(sys: System, steps: seq<Step>)
    requires SinglePosts(sys) && Legal(sys, steps)
    ensures forall ds :: !Deadlock(Exec(sys, steps), ds)
    ensures Exec(sys, steps) != map[] ==> SomeoneFree(Exec(sys, steps))
  {
    if steps == [] {
      forall ds ensures !Deadlock(sys, ds) {
        NoCycle(sys, ds);
      }
      if sys != map[] {
        var p := SomeCanStep(sys);
      }
    } else {
      StepKeepsSinglePosts(sys, steps[0]);
      SinglePostsRun(Next(sys, steps[0]), steps[1..]);
    }
  }

  // ---------------------------------------------------------------- transfers

  datatype Ends = Ends(src: AccountId, dst: AccountId)

  /** The two rounds of a transfer: source and clearing account, then clearing
      account and destination. */
  function TransferRounds(c: AccountId, e: Ends): seq<set<AccountId>> {
    [{e.src, c}, {c, e.dst}]
  }

  function NewTransfer(c: AccountId, e: Ends): Client {
    Client([e.src, e.dst], 0, TransferRounds(c, e), 0, {})
  }

  /** A transfer that has created its row, and one that has posted its first leg. */
  function Created(c: AccountId, e: Ends): Client {
    Client([], 0, TransferRounds(c, e), 0, {})
  }

  function Posted(c: AccountId, e: Ends): Client {
    Client([], 0, TransferRounds(c, e), 1, {e.src, c})
  }

  // What the service demands of a request; the clearing account may be an end.
  ghost predicate ValidEnds(req: map<Pid, Ends>) {
    forall p :: p in req ==> req[p].src != req[p].dst
  }

  function AllNew(c: AccountId, req: map<Pid, Ends>): System {
    map p | p in req :: NewTransfer(c, req[p])
  }

  ghost predicate Transfers(sys: System, c: AccountId, req: map<Pid, Ends>) {
    && ValidEnds(req)
    && forall p :: p in sys ==> p in req && TransferProgress(sys[p], c, req[p])
  }

  function Lower(a: AccountId, b: AccountId): AccountId {
    if a < b then a else b
  }

  ghost predicate TransferProgress(t: Client, c: AccountId, e: Ends) {
    && t.rounds == TransferRounds(c, e)
    && (|| (t.refs == [e.src, e.dst] && t.got <= 2 && t.round == 0 && t.held == {})
        || (t.refs == [] && t.got == 0 && t.round == 0
            && (t.held == {} || t.held == {Lower(e.src, c)} || t.held == {e.src, c}))
        || (t.refs == [] && t.got == 0 && t.round == 1 && (t.held == {e.src, c} || t.held == {e.src, c, e.dst})))
  }

  lemma StepKeepsTransfers(sys: System, st: Step, c: AccountId, req: map<Pid, Ends>)
    requires Transfers(sys, c, req) && Enabled(sys, st)
    ensures Transfers(Next(sys, st), c, req)
  {
    if st.p in sys {
      var t, e := sys[st.p], req[st.p];
      assert t.rounds[0] == {e.src, c} && t.rounds[1] == {c, e.dst};
      if st.Acquire? {
        AcquireProgress(t, c, e);
      }
    }
  }

  lemma AcquireProgress(t: Client, c: AccountId, e: Ends)
    requires e.src != e.dst && TransferProgress(t, c, e) && Wanted(t) != {}
    ensures TransferProgress(Acquired(t), c, e)
  {
    var m := Min(Wanted(t));
    if t.refs == [] && t.round == 0 {
      assert m == e.src || m == c;
      if t.held == {} {
        assert Wanted(t) == {e.src, c};
        assert m == Lower(e.src, c);
      } else {
        assert t.held + {m} == {e.src, c};
      }
    } else if t.refs == [] {
      assert m == e.dst;
    }
  }

  /** The five ways in which a transfer can have something left to lock. */
  lemma Standing(t: Client, c: AccountId, e: Ends)
    requires e.src != e.dst && TransferProgress(t, c, e) && Wanted(t) != {}
    ensures t.refs != [] ==>
      && t.held == {} && Shares(t) == (if t.got == 0 then {} else {e.src})
      && Min(Wanted(t)) == (if t.got == 0 then e.src else e.dst)
    ensures t.refs == [] ==> Shares(t) == {}
    ensures t.refs == [] ==>
      || t.held == {}
      || (t.held == {e.src} && e.src < c && Min(Wanted(t)) == c)
      || (t.held == {c} && c < e.src && Min(Wanted(t)) == e.src)
      || (t.held == {e.src, c} && e.dst != c && Min(Wanted(t)) == e.dst)
  {
    assert t.rounds[0] == {e.src, c} && t.rounds[1] == {c, e.dst};
    if t.refs != [] {
      assert t.got < 2 && Wanted(t) == {t.refs[t.got]};
      assert t.refs[0] == e.src;
    } else if t.round == 0 && t.held != {} {
      assert t.held == {Lower(e.src, c)};
      assert Wanted(t) == {if e.src < c then c else e.src};
    } else if t.round == 1 {
      assert Wanted(t) == {e.dst};
    }
  }

  /** p and q can come to wait for each other: p pays into q's source, and that is
      below the clearing account, or q pays into p's source or the clearing
      account; or both pay from one account above the clearing account, and q
      into the clearing account. */
  predicate Clash(c: AccountId, p: Ends, q: Ends) {
    || (p.dst == q.src && (q.src < c || q.dst == p.src || q.dst == c))
    || (p.src == q.src && c < q.src && q.dst == c)
  }

  ghost predicate Clashing(c: AccountId, req: map<Pid, Ends>, p: Pid, q: Pid) {
    p in req && q in req && p != q && Clash(c, req[p], req[q])
  }

  /** Who blocks a transfer of a deadlock, itself blocked. */
  lemma NextInLine(sys: System, c: AccountId, req: map<Pid, Ends>, ds: set<Pid>, p: Pid) returns (q: Pid)
    requires Transfers(sys, c, req) && Deadlock(sys, ds) && p in ds
    ensures q in ds && Waits(sys, p, q) && Wanted(sys[q]) != {}
  {
    assert Blocked(sys, ds, p);
    q :| q in ds && Waits(sys, p, q);
    assert Blocked(sys, ds, q);
  }

  /** The one that an insert waits for has an exclusive lock. If it does not have
      the clearing account, it has its source and waits for the clearing account. */
  lemma InsertWaits(sys: System, c: AccountId, req: map<Pid, Ends>, ds: set<Pid>, p: Pid) returns (q: Pid)
    requires Transfers(sys, c, req) && Deadlock(sys, ds)
    requires p in ds && p in sys && Wanted(sys[p]) != {} && sys[p].refs != []
    ensures q in ds && q in sys && q in req && q != p && Wanted(sys[q]) != {} && sys[q].refs == []
    ensures Min(Wanted(sys[p])) in sys[q].held
    ensures c !in sys[q].held ==> Min(Wanted(sys[p])) == req[q].src < c
  {
    assert Blocked(sys, ds, p);
    q := NextInLine(sys, c, req, ds, p);
    Standing(sys[q], c, req[q]);
  }

  /** In a deadlock of transfers that share a clearing account two of them clash. */
  lemma DeadlockNeedsClash(sys: System, c: AccountId, req: map<Pid, Ends>, ds: set<Pid>)
    requires Transfers(sys, c, req) && Exclusive(sys) && Deadlock(sys, ds)
    ensures exists p, q :: Clashing(c, req, p, q)
  {
    var x :| x in ds;
    assert Blocked(sys, ds, x);
    x := NextInLine(sys, c, req, ds, x);
    Standing(sys[x], c, req[x]);
    if sys[x].refs != [] {
      x := InsertWaits(sys, c, req, ds, x);
      Standing(sys[x], c, req[x]);
    }
    if c !in sys[x].held {
      var q := NextInLine(sys, c, req, ds, x);
      Standing(sys[q], c, req[q]);
      if sys[q].refs != [] {
        var r := InsertWaits(sys, c, req, ds, q);
        assert c !in sys[r].held;
        assert Clashing(c, req, q, r);
        return;
      }
      x := q;
    }
    HolderClashes(sys, c, req, ds, x);
  }

  lemma HolderClashes(sys: System, c: AccountId, req: map<Pid, Ends>, ds: set<Pid>, x: Pid)
    requires Transfers(sys, c, req) && Exclusive(sys) && Deadlock(sys, ds)
    requires x in ds && x in sys && c in sys[x].held && Wanted(sys[x]) != {}
    ensures exists p, q :: Clashing(c, req, p, q)
  {
    Standing(sys[x], c, req[x]);
    var q := NextInLine(sys, c, req, ds, x);
    Standing(sys[q], c, req[q]);
    assert c !in sys[q].held;
    if sys[q].refs == [] {
      assert Clashing(c, req, x, q);
    } else {
      var r := InsertWaits(sys, c, req, ds, q);
      if r == x {
        Standing(sys[x], c, req[x]);
        assert Clashing(c, req, x, q);
      } else {
        assert c !in sys[r].held;
        assert Clashing(c, req, q, r);
      }
    }
  }

  lemma {:induction false} RunKeepsTransfers(sys: System, steps: seq<Step>, c: AccountId, req: map<Pid, Ends>)
    requires Transfers(sys, c, req) && Exclusive(sys) && Legal(sys, steps)
    ensures Transfers(Exec(sys, steps), c, req) && Exclusive(Exec(sys, steps))
  {
    if steps != [] {
      StepKeepsTransfers(sys, steps[0], c, req);
      StepKeepsExclusive(sys, steps[0]);
      RunKeepsTransfers(Next(sys, steps[0]), steps[1..], c, req);
    }
  }

  ghost predicate Reachable(sys: System, sys': System) {
    exists steps :: Legal(sys, steps) && Exec(sys, steps) == sys'
  }

  ghost predicate CanDeadlock(c: AccountId, req: map<Pid, Ends>) {
    exists sys, ds :: Reachable(AllNew(c, req), sys) && Deadlock(sys, ds)
  }

  /** Two rounds, and shared locks before them, are not covered by the ascending
      order: transfers sharing a clearing account can deadlock if and only if two
      of them clash. */
  lemma TransfersDeadlockIff(c: AccountId, req: map<Pid, Ends>)
    requires ValidEnds(req)
    ensures CanDeadlock(c, req) <==> exists p, q :: Clashing(c, req, p, q)
  {
    var start := AllNew(c, req);
    if CanDeadlock(c, req) {
      var sys, ds :| Reachable(start, sys) && Deadlock(sys, ds);
      var steps :| Legal(start, steps) && Exec(start, steps) == sys;
      RunKeepsTransfers(start, steps, c, req);
      DeadlockNeedsClash(sys, c, req, ds);
    }
    if p, q :| Clashing(c, req, p, q) {
      ClashDeadlocks(c, req, p, q);
    }
  }

  // ------------------------------------------------------ reaching the deadlock

  lemma Extend(start: System, sys: System, st: Step)
    requires Reachable(start, sys) && Enabled(sys, st)
    ensures Reachable(start, Next(sys, st))
  {
    var steps :| Legal(start, steps) && Exec(start, steps) == sys;
    ExecSnoc(start, steps, st);
  }

  lemma {:induction false} ExecSnoc(sys: System, steps: seq<Step>, st: Step)
    requires Legal(sys, steps) && Enabled(Exec(sys, steps), st)
    ensures Legal(sys, steps + [st]) && Exec(sys, steps + [st]) == Next(Exec(sys, steps), st)
  {
    if steps == [] {
      assert [st][1..] == [];
    } else {
      assert (steps + [st])[1..] == steps[1..] + [st];
      ExecSnoc(Next(sys, steps[0]), steps[1..], st);
    }
  }

  /** All but p and q are as at the start, and these two stand as given. */
  function Pair(c: AccountId, req: map<Pid, Ends>, p: Pid, q: Pid, tp: Client, tq: Client): System {
    AllNew(c, req)[p := tp][q := tq]
  }

  predicate CanMove(t: Client, u: Client, acquire: bool) {
    if acquire then Wanted(t) != {} && !Conflict(t, u, Min(Wanted(t)))
    else Wanted(t) == {} && (t.refs != [] || t.round + 1 < |t.rounds|)
  }

  function Moved(t: Client, acquire: bool): Client
    requires acquire ==> Wanted(t) != {}
  {
    if acquire then Acquired(t) else Advanced(t)
  }

  /** p takes a step that q does not prevent; nobody else does. */
  lemma FirstMoves(c: AccountId, req: map<Pid, Ends>, p: Pid, q: Pid, tp: Client, tq: Client, acquire: bool)
    requires Reachable(AllNew(c, req), Pair(c, req, p, q, tp, tq)) && p in req && q in req && p != q
    requires CanMove(tp, tq, acquire)
    ensures Reachable(AllNew(c, req), Pair(c, req, p, q, Moved(tp, acquire), tq))
  {
    var sys, st := Pair(c, req, p, q, tp, tq), if acquire then Acquire(p) else Advance(p);
    hide Reachable, Wanted;
    FirstEnabled(c, req, p, q, tp, tq, acquire);
    hide CanMove, Enabled;
    Extend(AllNew(c, req), sys, st);
    assert Next(sys, st) == Pair(c, req, p, q, Moved(tp, acquire), tq);
  }

  lemma FirstEnabled(c: AccountId, req: map<Pid, Ends>, p: Pid, q: Pid, tp: Client, tq: Client, acquire: bool)
    requires p in req && q in req && p != q && CanMove(tp, tq, acquire)
    ensures Enabled(Pair(c, req, p, q, tp, tq), if acquire then Acquire(p) else Advance(p))
    ensures Pair(c, req, p, q, tp, tq)[p] == tp
  {
    OthersStart(c, req, p, q, tp, tq);
    hide Wanted, Shares, AllNew;
    var sys := Pair(c, req, p, q, tp, tq);
    assert sys[p] == tp && sys[q] == tq;
  }

  lemma SecondMoves(c: AccountId, req: map<Pid, Ends>, p: Pid, q: Pid, tp: Client, tq: Client, acquire: bool)
    requires Reachable(AllNew(c, req), Pair(c, req, p, q, tp, tq)) && p in req && q in req && p != q
    requires CanMove(tq, tp, acquire)
    ensures Reachable(AllNew(c, req), Pair(c, req, p, q, tp, Moved(tq, acquire)))
  {
    hide Reachable, Pair;
    Swapped(c, req, p, q, tp, tq);
    FirstMoves(c, req, q, p, tq, tp, acquire);
    Swapped(c, req, p, q, tp, Moved(tq, acquire));
  }

  lemma OthersStart(c: AccountId, req: map<Pid, Ends>, p: Pid, q: Pid, tp: Client, tq: Client)
    requires p in req && q in req
    ensures forall r :: r in Pair(c, req, p, q, tp, tq) && r != p && r != q ==>
      Pair(c, req, p, q, tp, tq)[r].held == {} && Shares(Pair(c, req, p, q, tp, tq)[r]) == {}
  {
    forall r | r in Pair(c, req, p, q, tp, tq) && r != p && r != q
      ensures Pair(c, req, p, q, tp, tq)[r].held == {} && Shares(Pair(c, req, p, q, tp, tq)[r]) == {}
    {
      assert Pair(c, req, p, q, tp, tq)[r] == NewTransfer(c, req[r]);
    }
  }

  lemma PairStart(c: AccountId, req: map<Pid, Ends>, p: Pid, q: Pid)
    requires p in req && q in req && p != q
    ensures Reachable(AllNew(c, req), Pair(c, req, p, q, NewTransfer(c, req[p]), NewTransfer(c, req[q])))
  {
    assert Legal(AllNew(c, req), []) && Exec(AllNew(c, req), []) == AllNew(c, req);
    assert AllNew(c, req) == Pair(c, req, p, q, NewTransfer(c, req[p]), NewTransfer(c, req[q]));
  }

  /** p creates its row while q holds nothing exclusively. */
  lemma Creates(c: AccountId, req: map<Pid, Ends>, p: Pid, q: Pid, tq: Client)
    requires p in req && q in req && p != q && tq.held == {}
    requires Reachable(AllNew(c, req), Pair(c, req, p, q, NewTransfer(c, req[p]), tq))
    ensures Reachable(AllNew(c, req), Pair(c, req, p, q, Created(c, req[p]), tq))
  {
    hide Reachable, Pair;
    var t0 := NewTransfer(c, req[p]);
    FirstMoves(c, req, p, q, t0, tq, true);
    var t1 := t0.(got := 1);
    FirstMoves(c, req, p, q, t1, tq, true);
    FirstMoves(c, req, p, q, t1.(got := 2), tq, false);
  }

  /** p posts its first leg while q has no lock on the accounts of it. */
  lemma Posts(c: AccountId, req: map<Pid, Ends>, p: Pid, q: Pid, tq: Client)
    requires p in req && q in req && p != q && {req[p].src, c} !! tq.held + Shares(tq)
    requires Reachable(AllNew(c, req), Pair(c, req, p, q, Created(c, req[p]), tq))
    ensures Reachable(AllNew(c, req), Pair(c, req, p, q, Posted(c, req[p]), tq))
  {
    hide Reachable, Pair;
    var e, t0 := req[p], Created(c, req[p]);
    assert Wanted(t0) == {e.src, c};
    FirstMoves(c, req, p, q, t0, tq, true);
    var t1 := Acquired(t0);
    if e.src != c {
      assert Wanted(t1) == {if e.src < c then c else e.src};
      FirstMoves(c, req, p, q, t1, tq, true);
      t1 := Acquired(t1);
    }
    assert t1.held == {e.src, c};
    assert Wanted(t1) == {};
    FirstMoves(c, req, p, q, t1, tq, false);
  }

  lemma BothWait(c: AccountId, req: map<Pid, Ends>, p: Pid, q: Pid, tp: Client, tq: Client)
    requires p in req && q in req && p != q && Reachable(AllNew(c, req), Pair(c, req, p, q, tp, tq))
    requires Wanted(tp) != {} && Conflict(tp, tq, Min(Wanted(tp)))
    requires Wanted(tq) != {} && Conflict(tq, tp, Min(Wanted(tq)))
    ensures CanDeadlock(c, req)
  {
    hide Reachable;
    var sys, ds := Pair(c, req, p, q, tp, tq), {p, q};
    assert Waits(sys, p, q) && Waits(sys, q, p);
    assert Blocked(sys, ds, p) && Blocked(sys, ds, q);
    assert Deadlock(sys, ds);
  }

  lemma ClashDeadlocks(c: AccountId, req: map<Pid, Ends>, p: Pid, q: Pid)
    requires ValidEnds(req) && Clashing(c, req, p, q)
    ensures CanDeadlock(c, req)
  {
    if req[p].dst == req[q].src < c {
      LowSourceRun(c, req, p, q);
    } else if req[p].dst == req[q].src && req[p].dst != c {
      LateInsertRun(c, req, p, q);
    } else if req[p].dst == req[q].src {
      LateInsertRun(c, req, q, p);
    } else {
      SharedSourceRun(c, req, p, q);
    }
  }

  /** q holds its source, which p, holding the clearing account, pays into. */
  lemma LowSourceRun(c: AccountId, req: map<Pid, Ends>, p: Pid, q: Pid)
    requires ValidEnds(req) && p in req && q in req && p != q && req[p].dst == req[q].src < c
    ensures CanDeadlock(c, req)
  {
    hide Reachable, Pair, CanDeadlock;
    PairStart(c, req, p, q);
    Creates(c, req, p, q, NewTransfer(c, req[q]));
    Swapped(c, req, p, q, Created(c, req[p]), NewTransfer(c, req[q]));
    Creates(c, req, q, p, Created(c, req[p]));
    Swapped(c, req, q, p, Created(c, req[q]), Created(c, req[p]));
    var tq := Created(c, req[q]);
    assert Wanted(tq) == {req[q].src, c} && Min(Wanted(tq)) == req[q].src;
    SecondMoves(c, req, p, q, Created(c, req[p]), tq, true);
    tq := Acquired(tq);
    assert Shares(tq) == {} && tq.held == {req[q].src};
    Posts(c, req, p, q, tq);
    assert Wanted(Posted(c, req[p])) == {req[p].dst} && Wanted(tq) == {c};
    BothWait(c, req, p, q, Posted(c, req[p]), tq);
  }

  /** q's insert has its source, which p pays into, and waits for what p holds. */
  lemma LateInsertRun(c: AccountId, req: map<Pid, Ends>, p: Pid, q: Pid)
    requires ValidEnds(req) && p in req && q in req && p != q && req[p].dst == req[q].src != c
    requires req[q].dst == req[p].src || req[q].dst == c
    ensures CanDeadlock(c, req)
  {
    hide Reachable, Pair, CanDeadlock;
    var tq := NewTransfer(c, req[q]);
    PairStart(c, req, p, q);
    Creates(c, req, p, q, tq);
    assert Shares(tq) == {};
    Posts(c, req, p, q, tq);
    SecondMoves(c, req, p, q, Posted(c, req[p]), tq, true);
    tq := Acquired(tq);
    assert tq.refs[0] in Shares(tq);
    assert Wanted(Posted(c, req[p])) == {req[p].dst};
    BothWait(c, req, p, q, Posted(c, req[p]), tq);
  }

  /** q's insert has the source it shares with p, and waits for the clearing
      account, which p holds. */
  lemma SharedSourceRun(c: AccountId, req: map<Pid, Ends>, p: Pid, q: Pid)
    requires p in req && q in req && p != q && req[p].src == req[q].src && c < req[q].src && req[q].dst == c
    ensures CanDeadlock(c, req)
  {
    hide Reachable, Pair, CanDeadlock;
    var tp, tq := Created(c, req[p]), NewTransfer(c, req[q]);
    PairStart(c, req, p, q);
    Creates(c, req, p, q, tq);
    assert Shares(tq) == {} && Wanted(tp) == {req[p].src, c} && Min(Wanted(tp)) == c;
    FirstMoves(c, req, p, q, tp, tq, true);
    tp := Acquired(tp);
    SecondMoves(c, req, p, q, tp, tq, true);
    tq := Acquired(tq);
    assert tq.refs[0] in Shares(tq);
    assert Wanted(tp) == {req[p].src};
    BothWait(c, req, p, q, tp, tq);
  }

  lemma Swapped(c: AccountId, req: map<Pid, Ends>, p: Pid, q: Pid, tp: Client, tq: Client)
    requires p != q
    ensures Pair(c, req, p, q, tp, tq) == Pair(c, req, q, p, tq, tp)
  {}
}
