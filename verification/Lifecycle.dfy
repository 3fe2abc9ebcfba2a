/** The life of a transaction row: the table of allowed status changes, the
    method that applies one, and why a row changes at most three times. */
module Lifecycle {
  import opened Types

  const VALID_TRANSITIONS: map<TxStatus, seq<TxStatus>> := map[
    TxStatus.Pending := [TxStatus.Processing, TxStatus.Failed, TxStatus.Expired],
    TxStatus.Processing := [TxStatus.Settled, TxStatus.Failed],
    TxStatus.Settled := [TxStatus.Reversed, TxStatus.Reconciled],
    TxStatus.Failed := [],
    TxStatus.Reversed := [],
    TxStatus.Reconciled := []
  ]

  predicate Edge(s: TxStatus, t: TxStatus) {
    s in VALID_TRANSITIONS && t in VALID_TRANSITIONS[s]
  }

  function Rank(s: TxStatus): (r: nat)
    ensures r <= 3
  {
    match s
    case Pending => 0
    case Processing => 1
    case Settled => 2
    case _ => 3
  }

  datatype TransitionError = AlreadyInStatus | UnknownStatus | InvalidTransition

  class Transaction {
    var status: TxStatus
    var updatedAt: int

    constructor (status: TxStatus, now: int)
      ensures this.status == status && updatedAt == now
    {
      this.status := status;
      updatedAt := now;
    }

    /** Moves to next exactly along an edge of the table; anything else is an
        error that leaves the transaction as it was. */
    method TransitionTo(next: TxStatus, now: int) returns (r: Result<(), TransitionError>)
      modifies this
      ensures r.Ok? <==> Edge(old(status), next)
      ensures r.Ok? <==>
        || (old(status) == TxStatus.Pending && next in {TxStatus.Processing, TxStatus.Failed, TxStatus.Expired})
        || (old(status) == TxStatus.Processing && next in {TxStatus.Settled, TxStatus.Failed})
        || (old(status) == TxStatus.Settled && next in {TxStatus.Reversed, TxStatus.Reconciled})
      ensures r.Ok? ==> status == next && updatedAt == now && Rank(old(status)) < Rank(status)
      ensures r.Err? ==> status == old(status) && updatedAt == old(updatedAt)
      ensures r == Err(AlreadyInStatus) <==> old(status) == next
      ensures r == Err(UnknownStatus) <==> old(status) != next && old(status) in {TxStatus.OnHold, TxStatus.Expired}
    {
      EdgesClimb(status, next);
      if status == next {
        return Err(AlreadyInStatus);
      }
      if status !in VALID_TRANSITIONS {
        return Err(UnknownStatus);
      }
      var allowed := VALID_TRANSITIONS[status];
      for i := 0 to |allowed|
        invariant status == old(status) && updatedAt == old(updatedAt)
        invariant next !in allowed[..i]
      {
        if allowed[i] == next {
          status := next;
          updatedAt := now;
          return Ok(());
        }
      }
      return Err(InvalidTransition);
    }
  }

  lemma EdgesClimb(s: TxStatus, t: TxStatus)
    ensures Edge(s, t) ==> Rank(s) < Rank(t)
  {}

  /** A history of statuses in which each change is an edge of the table. */
  ghost predicate Path(h: seq<TxStatus>) {
    h != [] && forall i :: 0 <= i < |h| - 1 ==> Edge(h[i], h[i + 1])
  }

  /** A row is updated at most three times, a SETTLED or RECONCILED row never
      becomes FAILED, and nothing follows FAILED, REVERSED or RECONCILED. */
  lemma {:induction false} LivesAreShort(h: seq<TxStatus>)
    requires Path(h)
    ensures |h| - 1 <= Rank(h[|h| - 1]) - Rank(h[0]) <= 3
    ensures h[0] in {TxStatus.Settled, TxStatus.Reconciled} ==> TxStatus.Failed !in h
    ensures h[0] in {TxStatus.Failed, TxStatus.Reversed, TxStatus.Reconciled, TxStatus.Expired} ==> |h| == 1
  {
    if |h| > 1 {
      EdgesClimb(h[0], h[1]);
      LivesAreShort(h[1..]);
      assert h == [h[0]] + h[1..];
    }
  }

  /** t follows s along zero or more edges. */
  predicate Follows(s: TxStatus, t: TxStatus) {
    s == t || Edge(s, t) || (s == TxStatus.Pending && t in {TxStatus.Settled, TxStatus.Reversed, TxStatus.Reconciled})
    || (s == TxStatus.Processing && t in {TxStatus.Reversed, TxStatus.Reconciled})
  }

  /** Follows is reachability in the table: both directions. */
  lemma FollowsIsReachability(s: TxStatus, t: TxStatus)
    ensures Follows(s, t) <==> exists h :: Path(h) && h[0] == s && h[|h| - 1] == t
  {
    if Follows(s, t) {
      var h := if s == t then [s] else if Edge(s, t) then [s, t]
               else if s == TxStatus.Pending && t == TxStatus.Settled then [s, TxStatus.Processing, t]
               else if s == TxStatus.Pending then [s, TxStatus.Processing, TxStatus.Settled, t]
               else [s, TxStatus.Settled, t];
      assert Path(h) && h[0] == s && h[|h| - 1] == t;
    }
    if h :| Path(h) && h[0] == s && h[|h| - 1] == t {
      PathFollows(h);
    }
  }

  lemma {:induction false} PathFollows(h: seq<TxStatus>)
    requires Path(h)
    ensures Follows(h[0], h[|h| - 1])
  {
    if |h| > 1 {
      PathFollows(h[1..]);
    }
  }
}
