/** NetPositions as the settlement package computes it: two maps filled by a
    loop, a pass over the map in any order, and a sort. */
module Settlement {
  import opened Types
  import opened Netting

  method NetPositions(txs: seq<Flow>) returns (out: seq<NetPosition>)
    ensures IsNetting(txs, out)
    ensures forall i, j :: 0 <= i < j < |out| ==>
      && out[i].from <= out[j].from
      && (out[i].from == out[j].from ==> out[i].to <= out[j].to)
      && (out[i].from == out[j].from && out[i].to == out[j].to ==>
            exists k: nat :: k <= |out[i].currency| && k < |out[j].currency|
              && out[i].currency[..k] == out[j].currency[..k]
              && (k == |out[i].currency| || out[i].currency[k] < out[j].currency[k]))
    ensures forall a, b, c :: a != b ==>
      (Paid(txs, a, b, c) > Paid(txs, b, a, c) <==>
        NetPosition(a, b, c, Paid(txs, a, b, c) - Paid(txs, b, a, c), |Between(txs, a, b, c)|) in out)
    ensures forall p :: p in out && p.from != p.to ==>
      && p.amount == Paid(txs, p.from, p.to, p.currency) - Paid(txs, p.to, p.from, p.currency) > 0
      && p.count == |Between(txs, p.from, p.to, p.currency)|
    ensures forall p :: p in out ==> exists f :: f in txs && f.currency == p.currency
  {
    hide Net, Count, TextLess;
    var nets: map<PairKey, int>, counts: map<PairKey, nat> := map[], map[];
    forall k ensures Net([], k) == 0 && Count([], k) == 0 {
      NetOfNothing(k);
    }
    assert txs[..0] == [];
    for i := 0 to |txs|
      invariant nets.Keys == counts.Keys
      invariant forall k :: k in nets ==> nets[k] == Net(txs[..i], k) && counts[k] == Count(txs[..i], k)
      invariant forall k :: k !in nets ==> Net(txs[..i], k) == 0 && Count(txs[..i], k) == 0
      invariant forall k :: k in nets ==> k.low <= k.high
    {
      var tx := txs[i];
      var (low, high) := OrderAccounts(tx.from, tx.to);
      var key := PairKey(low, high, tx.currency);
      var delta := if tx.from == low then tx.amount else -tx.amount;
      assert key == KeyOf(tx) && delta == Signed(tx);
      forall k
        ensures Net(txs[..i + 1], k) == Net(txs[..i], k) + if key == k then delta else 0
        ensures Count(txs[..i + 1], k) == Count(txs[..i], k) + if key == k then 1 else 0
      {
        NetStep(txs, i, k);
      }
      nets := nets[key := (if key in nets then nets[key] else 0) + delta];
      counts := counts[key := (if key in counts then counts[key] else 0) + 1];
    }
    assert txs[..|txs|] == txs;

    out := [];
    var todo := nets.Keys;
    while todo != {}
      invariant todo <= nets.Keys
      invariant forall p :: p in out <==> Residual(txs, p) && PairOf(p) !in todo
      invariant DistinctPairs(out)
    {
      var key :| key in todo;
      todo := todo - {key};
      var net := nets[key];
      if net != 0 {
        var p;
        if net > 0 {
          p := NetPosition(key.low, key.high, key.currency, net, counts[key]);
        } else {
          p := NetPosition(key.high, key.low, key.currency, -net, counts[key]);
        }
        assert PairOf(p) == key && Residual(txs, p);
        assert forall q :: q in out ==> PairOf(q) != key;
        out := out + [p];
      }
    }
    out := SortPositions(out);
    hide IsNetting, Paid, Between;
    forall a, b, c | a != b
      ensures Paid(txs, a, b, c) > Paid(txs, b, a, c) <==>
        NetPosition(a, b, c, Paid(txs, a, b, c) - Paid(txs, b, a, c), |Between(txs, a, b, c)|) in out
      ensures forall p :: p in out && p.from == a && p.to == b && p.currency == c ==>
        p.amount == Paid(txs, a, b, c) - Paid(txs, b, a, c) > 0 && p.count == |Between(txs, a, b, c)|
    {
      PositionsArePaid(txs, out, a, b, c);
    }
    PositionsHaveFlows(txs, out);
  }

  lemma NetOfNothing(k: PairKey)
    ensures Net([], k) == 0 && Count([], k) == 0
  {}

  lemma NetStep(txs: seq<Flow>, i: nat, k: PairKey)
    requires i < |txs|
    ensures Net(txs[..i + 1], k) == Net(txs[..i], k) + if KeyOf(txs[i]) == k then Signed(txs[i]) else 0
    ensures Count(txs[..i + 1], k) == Count(txs[..i], k) + if KeyOf(txs[i]) == k then 1 else 0
  {
    assert txs[..i + 1][..i] == txs[..i];
  }

  ghost predicate DistinctPairs(ps: seq<NetPosition>) {
    forall i, j :: 0 <= i < j < |ps| ==> PairOf(ps[i]) != PairOf(ps[j])
  }

  /** sort.Slice by positionLess, over positions of distinct pairs. */
  method SortPositions(ps: seq<NetPosition>) returns (out: seq<NetPosition>)
    requires DistinctPairs(ps)
    ensures StrictlySorted(out)
    ensures forall i, j :: 0 <= i < j < |out| ==>
      && out[i].from <= out[j].from
      && (out[i].from == out[j].from ==> out[i].to <= out[j].to)
      && (out[i].from == out[j].from && out[i].to == out[j].to ==>
            exists k: nat :: k <= |out[i].currency| && k < |out[j].currency|
              && out[i].currency[..k] == out[j].currency[..k]
              && (k == |out[i].currency| || out[i].currency[k] < out[j].currency[k]))
    ensures forall p :: p in out <==> p in ps
    ensures |out| == |ps|
  {
    out := [];
    for i := 0 to |ps|
      invariant |out| == i
      invariant StrictlySorted(out)
      invariant forall p :: p in out <==> p in ps[..i]
    {
      var p := ps[i];
      forall q | q in out ensures PositionLess(q, p) || PositionLess(p, q) {
        var k :| 0 <= k < i && ps[..i][k] == q;
        PositionLessIsStrictOrder(q, p, p);
      }
      var at := 0;
      while at < |out| && PositionLess(out[at], p)
        invariant 0 <= at <= |out|
        invariant forall k :: 0 <= k < at ==> PositionLess(out[k], p)
      {
        at := at + 1;
      }
      forall k | at <= k < |out| ensures PositionLess(p, out[k]) {
        assert out[at] in out;
        PositionLessIsStrictOrder(p, out[at], out[k]);
      }
      assert ps[..i + 1] == ps[..i] + [p];
      out := Insert(out, at, p);
    }
    assert ps[..|ps|] == ps;
    SortedMeansAscending(out);
  }

  function Insert(ps: seq<NetPosition>, at: nat, p: NetPosition): (r: seq<NetPosition>)
    requires at <= |ps| && StrictlySorted(ps)
    requires forall k :: 0 <= k < at ==> PositionLess(ps[k], p)
    requires forall k :: at <= k < |ps| ==> PositionLess(p, ps[k])
    ensures |r| == |ps| + 1 && StrictlySorted(r)
    ensures forall q :: q in r <==> q in ps || q == p
  {
    assert ps == ps[..at] + ps[at..];
    ps[..at] + [p] + ps[at..]
  }
}
