/** Settlement netting: what a list of net positions means for a list of
    transfers, and the laws of that meaning. */
module Netting {
  import opened Types
  import opened Sums

  // The fields of a transaction that netting reads.
  datatype Flow = Flow(from: AccountId, to: AccountId, amount: int, currency: Currency)

  // The key of an unordered account pair in one currency.
  datatype PairKey = PairKey(low: AccountId, high: AccountId, currency: Currency)

  datatype NetPosition = NetPosition(
    from: AccountId, to: AccountId, currency: Currency, amount: int, count: nat)

  function OrderAccounts(a: AccountId, b: AccountId): (AccountId, AccountId) {
    if a <= b then (a, b) else (b, a)
  }

  function KeyOf(f: Flow): PairKey {
    var (low, high) := OrderAccounts(f.from, f.to);
    PairKey(low, high, f.currency)
  }

  /** The amount counted from the low account to the high one. */
  function Signed(f: Flow): int {
    if f.from == KeyOf(f).low then f.amount else -f.amount
  }

  function Net(fs: seq<Flow>, k: PairKey): int {
    if fs == [] then 0
    else
      var f := fs[|fs| - 1];
      Net(fs[..|fs| - 1], k) + if KeyOf(f) == k then Signed(f) else 0
  }

  function Count(fs: seq<Flow>, k: PairKey): nat {
    if fs == [] then 0
    else Count(fs[..|fs| - 1], k) + if KeyOf(fs[|fs| - 1]) == k then 1 else 0
  }

  // ------------------------------------------------------- the order of output

  predicate TextLess(a: string, b: string) {
    b != [] && (a == [] || a[0] < b[0] || (a[0] == b[0] && TextLess(a[1..], b[1..])))
  }

  predicate PositionLess(p: NetPosition, q: NetPosition) {
    if p.from != q.from then p.from < q.from
    else if p.to != q.to then p.to < q.to
    else TextLess(p.currency, q.currency)
  }

  lemma {:induction false} TextLessIsStrictOrder(a: string, b: string, c: string)
    ensures !TextLess(a, a)
    ensures TextLess(a, b) && TextLess(b, c) ==> TextLess(a, c)
    ensures a == b || TextLess(a, b) || TextLess(b, a)
  {
    var a1 := if a == [] then a else a[1..];
    var b1 := if b == [] then b else b[1..];
    var c1 := if c == [] then c else c[1..];
    if a != [] || (b != [] && c != []) {
      if a != [] && b != [] && a[0] == b[0] && a1 == b1 {
        assert a == [a[0]] + a1 && b == [b[0]] + b1;
      }
      if |a1| + |b1| + |c1| < |a| + |b| + |c| {
        TextLessIsStrictOrder(a1, b1, c1);
      }
    }
  }

  lemma PositionLessIsStrictOrder(p: NetPosition, q: NetPosition, r: NetPosition)
    ensures !PositionLess(p, p)
    ensures PositionLess(p, q) && PositionLess(q, r) ==> PositionLess(p, r)
    ensures PositionLess(p, q) || PositionLess(q, p) || (p.from == q.from && p.to == q.to && p.currency == q.currency)
  {
    TextLessIsStrictOrder(p.currency, q.currency, r.currency);
  }

  ghost predicate StrictlySorted(ps: seq<NetPosition>) {
    forall i, j :: 0 <= i < j < |ps| ==> PositionLess(ps[i], ps[j])
  }

  // ------------------------------------------------------- what a netting is

  function PairOf(p: NetPosition): PairKey {
    var (low, high) := OrderAccounts(p.from, p.to);
    PairKey(low, high, p.currency)
  }

  function PositionFor(k: PairKey, net: int, count: nat): NetPosition {
    if net > 0 then NetPosition(k.low, k.high, k.currency, net, count)
    else NetPosition(k.high, k.low, k.currency, -net, count)
  }

  /** p is the residual flow of its pair, with the number of contributing flows. */
  predicate Residual(fs: seq<Flow>, p: NetPosition) {
    var k := PairOf(p);
    Net(fs, k) != 0 && p == PositionFor(k, Net(fs, k), Count(fs, k))
  }

  /** out lists exactly the residual flows of fs, strictly sorted. */
  ghost predicate IsNetting(fs: seq<Flow>, out: seq<NetPosition>) {
    StrictlySorted(out) && forall p :: p in out <==> Residual(fs, p)
  }

  lemma NettingShape(fs: seq<Flow>, out: seq<NetPosition>)
    requires IsNetting(fs, out)
    ensures forall p :: p in out ==> p.amount > 0
    ensures forall i, j :: 0 <= i < j < |out| ==> PairOf(out[i]) != PairOf(out[j])
  {
    forall p | p in out ensures p.amount > 0 {
      assert Residual(fs, p);
    }
    forall i, j | 0 <= i < j < |out| ensures PairOf(out[i]) != PairOf(out[j]) {
      assert out[i] in out && out[j] in out;
      assert Residual(fs, out[i]) && Residual(fs, out[j]);
      if PairOf(out[i]) == PairOf(out[j]) {
        PositionLessIsStrictOrder(out[i], out[j], out[j]);
        assert false;
      }
    }
  }

  // ---------------------------------------------------- one canonical answer

  lemma {:induction false} SortedListsEqual(a: seq<NetPosition>, b: seq<NetPosition>)
    requires StrictlySorted(a) && StrictlySorted(b)
    requires forall p :: p in a <==> p in b
    ensures a == b
  {
    if a == [] {
      assert forall i :: 0 <= i < |b| ==> b[i] in b;
    } else {
      assert a[0] in b;
      assert b[0] in a;
      var i :| 0 <= i < |b| && b[i] == a[0];
      var j :| 0 <= j < |a| && a[j] == b[0];
      PositionLessIsStrictOrder(a[0], b[0], a[0]);
      assert a[0] == b[0];
      forall p | p in a[1..] ensures p in b[1..] {
        HeadNotInTail(a, p);
        assert p in b;
        InTail(b, p);
      }
      forall p | p in b[1..] ensures p in a[1..] {
        HeadNotInTail(b, p);
        assert p in a;
        InTail(a, p);
      }
      SortedListsEqual(a[1..], b[1..]);
      assert a == [a[0]] + a[1..] && b == [b[0]] + b[1..];
    }
  }

  lemma HeadNotInTail(a: seq<NetPosition>, p: NetPosition)
    requires a != [] && StrictlySorted(a) && p in a[1..]
    ensures p in a && p != a[0]
  {
    var i :| 0 <= i < |a[1..]| && a[1..][i] == p;
    assert a[i + 1] == p;
    PositionLessIsStrictOrder(p, p, p);
  }

  lemma InTail(a: seq<NetPosition>, p: NetPosition)
    requires a != [] && p in a && p != a[0]
    ensures p in a[1..]
  {
    var i :| 0 <= i < |a| && a[i] == p;
    assert a[1..][i - 1] == p;
  }

  lemma {:induction false} NetConcat(fs: seq<Flow>, gs: seq<Flow>, k: PairKey)
    ensures Net(fs + gs, k) == Net(fs, k) + Net(gs, k)
    ensures Count(fs + gs, k) == Count(fs, k) + Count(gs, k)
  {
    if gs == [] {
      assert fs + gs == fs;
    } else {
      assert (fs + gs)[..|fs + gs| - 1] == fs + gs[..|gs| - 1];
      NetConcat(fs, gs[..|gs| - 1], k);
    }
  }

  lemma NetSingle(f: Flow, k: PairKey)
    ensures Net([f], k) == if KeyOf(f) == k then Signed(f) else 0
    ensures Count([f], k) == if KeyOf(f) == k then 1 else 0
  {
    assert [f][..0] == [];
  }

  /** Taking one flow out of a list, wherever it stands. */
  lemma NetWithout(fs: seq<Flow>, i: nat, k: PairKey)
    requires i < |fs|
    ensures Net(fs, k) == Net(fs[..i] + fs[i + 1..], k) + if KeyOf(fs[i]) == k then Signed(fs[i]) else 0
    ensures Count(fs, k) == Count(fs[..i] + fs[i + 1..], k) + if KeyOf(fs[i]) == k then 1 else 0
  {
    assert fs == fs[..i] + [fs[i]] + fs[i + 1..];
    NetConcat(fs[..i] + [fs[i]], fs[i + 1..], k);
    NetConcat(fs[..i], [fs[i]], k);
    NetConcat(fs[..i], fs[i + 1..], k);
    NetSingle(fs[i], k);
  }

  lemma MultisetWithout(fs: seq<Flow>, i: nat)
    requires i < |fs|
    ensures multiset(fs[..i] + fs[i + 1..]) == multiset(fs) - multiset{fs[i]}
  {
    assert fs == fs[..i] + [fs[i]] + fs[i + 1..];
    var rest := multiset(fs[..i] + fs[i + 1..]);
    assert multiset(fs) == rest + multiset{fs[i]};
    assert rest + multiset{fs[i]} - multiset{fs[i]} == rest;
  }

  lemma {:induction false} NetIgnoresOrder(fs: seq<Flow>, gs: seq<Flow>, k: PairKey)
    requires multiset(fs) == multiset(gs)
    ensures Net(fs, k) == Net(gs, k) && Count(fs, k) == Count(gs, k)
    decreases |fs|
  {
    if fs == [] {
      assert |multiset(gs)| == 0;
    } else {
      var n := |fs| - 1;
      assert fs[n] in multiset(fs);
      var i :| 0 <= i < |gs| && gs[i] == fs[n];
      MultisetWithout(fs, n);
      MultisetWithout(gs, i);
      assert fs[..n] + fs[n + 1..] == fs[..n];
      NetIgnoresOrder(fs[..n], gs[..i] + gs[i + 1..], k);
      NetWithout(gs, i, k);
    }
  }

  /** Netting is canonical: permutations of the input have one and the same
      netting, so neither input order nor map iteration order can show. */
  lemma NettingIsCanonical(fs: seq<Flow>, gs: seq<Flow>, out: seq<NetPosition>, out': seq<NetPosition>)
    requires multiset(fs) == multiset(gs)
    requires IsNetting(fs, out) && IsNetting(gs, out')
    ensures out == out'
  {
    forall p ensures Residual(fs, p) <==> Residual(gs, p) {
      NetIgnoresOrder(fs, gs, PairOf(p));
    }
    SortedListsEqual(out, out');
  }

  // ------------------------------------------------------------ conservation

  /** Outflow minus inflow of account a in currency c. */
  function Outflow(fs: seq<Flow>, a: AccountId, c: Currency): int {
    if fs == [] then 0
    else Outflow(fs[..|fs| - 1], a, c) + FlowOut(fs[|fs| - 1], a, c)
  }

  function FlowOut(f: Flow, a: AccountId, c: Currency): int {
    if f.currency != c then 0
    else (if f.from == a then f.amount else 0) - (if f.to == a then f.amount else 0)
  }

  function Gross(fs: seq<Flow>): int {
    if fs == [] then 0 else Gross(fs[..|fs| - 1]) + fs[|fs| - 1].amount
  }

  function AsFlow(p: NetPosition): Flow {
    Flow(p.from, p.to, p.amount, p.currency)
  }

  function AsFlows(ps: seq<NetPosition>): (fs: seq<Flow>)
    ensures |fs| == |ps| && forall i :: 0 <= i < |ps| ==> fs[i] == AsFlow(ps[i])
  {
    seq(|ps|, i requires 0 <= i < |ps| => AsFlow(ps[i]))
  }

  /** The flows of fs on pair k, and the others. */
  function On(fs: seq<Flow>, k: PairKey): seq<Flow> {
    if fs == [] then []
    else
      var rest, f := On(fs[..|fs| - 1], k), fs[|fs| - 1];
      if KeyOf(f) == k then rest + [f] else rest
  }

  function Off(fs: seq<Flow>, k: PairKey): seq<Flow> {
    if fs == [] then []
    else
      var rest, f := Off(fs[..|fs| - 1], k), fs[|fs| - 1];
      if KeyOf(f) == k then rest else rest + [f]
  }

  lemma NetSnoc(fs: seq<Flow>, f: Flow, k: PairKey, a: AccountId, c: Currency)
    ensures Net(fs + [f], k) == Net(fs, k) + if KeyOf(f) == k then Signed(f) else 0
    ensures Outflow(fs + [f], a, c) == Outflow(fs, a, c) + FlowOut(f, a, c)
    ensures Gross(fs + [f]) == Gross(fs) + f.amount
  {
    assert (fs + [f])[..|fs|] == fs;
  }

  /** A list splits into the flows on one pair and the rest ... */
  lemma {:induction false} SplitByPair(fs: seq<Flow>, k: PairKey)
    ensures |Off(fs, k)| <= |fs|
    ensures (exists f :: f in fs && KeyOf(f) == k) ==> |Off(fs, k)| < |fs|
    ensures forall f :: f in Off(fs, k) <==> f in fs && KeyOf(f) != k
  {
    hide KeyOf;
    if fs != [] {
      var init, f := fs[..|fs| - 1], fs[|fs| - 1];
      assert fs == init + [f];
      SplitByPair(init, k);
    }
  }

  /** ... and on the pair, the outflow is the pair's net, seen from its low account. */
  lemma {:induction false} SplitFlows(fs: seq<Flow>, k: PairKey, a: AccountId, c: Currency)
    ensures Outflow(fs, a, c) == Outflow(Off(fs, k), a, c) + FlowOut(Flow(k.low, k.high, Net(fs, k), k.currency), a, c)
  {
    if fs != [] {
      var init, f := fs[..|fs| - 1], fs[|fs| - 1];
      SplitFlows(init, k, a, c);
      NetSnoc(Off(init, k), f, k, a, c);
      if KeyOf(f) == k {
        OnePair(f, k, Net(init, k), a, c);
      }
    }
  }

  lemma OnePair(f: Flow, k: PairKey, n: int, a: AccountId, c: Currency)
    requires KeyOf(f) == k
    ensures FlowOut(Flow(k.low, k.high, n + Signed(f), k.currency), a, c)
      == FlowOut(Flow(k.low, k.high, n, k.currency), a, c) + FlowOut(f, a, c)
  {}

  lemma {:induction false} SplitGross(fs: seq<Flow>, k: PairKey)
    ensures Gross(fs) == Gross(Off(fs, k)) + Gross(On(fs, k))
  {
    if fs != [] {
      var init, f := fs[..|fs| - 1], fs[|fs| - 1];
      SplitGross(init, k);
      NetSnoc(Off(init, k), f, k, f.from, f.currency);
      NetSnoc(On(init, k), f, k, f.from, f.currency);
    }
  }

  lemma {:induction false} NetOff(fs: seq<Flow>, k: PairKey, k': PairKey)
    ensures Net(Off(fs, k), k') == if k' == k then 0 else Net(fs, k')
  {
    if fs != [] {
      var init, f := fs[..|fs| - 1], fs[|fs| - 1];
      NetOff(init, k, k');
      NetSnoc(Off(init, k), f, k', f.from, f.currency);
    }
  }

  lemma {:induction false} NoFlowsNoNet(fs: seq<Flow>, k: PairKey)
    requires forall f :: f in fs ==> KeyOf(f) != k
    ensures Net(fs, k) == 0 && Count(fs, k) == 0
  {
    if fs != [] {
      var init := fs[..|fs| - 1];
      assert fs[|fs| - 1] in fs;
      assert forall f :: f in init ==> f in fs;
      NoFlowsNoNet(init, k);
    }
  }

  /** Lists with the same net on every pair of distinct accounts move the same
      value through every account, in every currency. */
  lemma {:induction false} SameNetsSameFlows(fs: seq<Flow>, gs: seq<Flow>, a: AccountId, c: Currency)
    requires forall k: PairKey :: k.low != k.high ==> Net(fs, k) == Net(gs, k)
    ensures Outflow(fs, a, c) == Outflow(gs, a, c)
    decreases |fs| + |gs|
  {
    if fs != [] || gs != [] {
      var f := if fs != [] then fs[0] else gs[0];
      assert f in fs || f in gs;
      var k := KeyOf(f);
      SplitByPair(fs, k);
      SplitByPair(gs, k);
      SplitFlows(fs, k, a, c);
      SplitFlows(gs, k, a, c);
      forall k': PairKey ensures k'.low != k'.high ==> Net(Off(fs, k), k') == Net(Off(gs, k), k') {
        NetOff(fs, k, k');
        NetOff(gs, k, k');
      }
      assert FlowOut(Flow(k.low, k.high, Net(fs, k), k.currency), a, c)
          == FlowOut(Flow(k.low, k.high, Net(gs, k), k.currency), a, c);
      SameNetsSameFlows(Off(fs, k), Off(gs, k), a, c);
    }
  }

  lemma {:induction false} KeysAreOrdered(fs: seq<Flow>, k: PairKey)
    requires k.high < k.low
    ensures Net(fs, k) == 0
  {
    if fs != [] {
      KeysAreOrdered(fs[..|fs| - 1], k);
    }
  }

  /** Reading a netting back as flows: one flow on each pair with a residual and
      none elsewhere, carrying the net of the pair. (Only a transfer of an
      account to itself, which the transactions table forbids, could flip the
      sign of a negative net.) */
  lemma NetOfPositions(fs: seq<Flow>, out: seq<NetPosition>, k: PairKey)
    requires IsNetting(fs, out)
    ensures var n := Net(fs, k);
      && Net(AsFlows(out), k) == (if k.low == k.high && n < 0 then -n else n)
      && Count(AsFlows(out), k) == if n == 0 then 0 else 1
  {
    var gs := AsFlows(out);
    NettingShape(fs, out);
    if i :| 0 <= i < |out| && PairOf(out[i]) == k {
      assert out[i] in out;
      assert Residual(fs, out[i]);
      var rest := gs[..i] + gs[i + 1..];
      forall f | f in rest ensures KeyOf(f) != k {
        var j :| 0 <= j < |rest| && rest[j] == f;
        var j' := if j < i then j else j + 1;
        assert f == gs[j'] && KeyOf(f) == PairOf(out[j']);
      }
      NoFlowsNoNet(rest, k);
      NetWithout(gs, i, k);
    } else {
      forall f | f in gs ensures KeyOf(f) != k {
        var j :| 0 <= j < |gs| && gs[j] == f;
        assert KeyOf(f) == PairOf(out[j]);
      }
      NoFlowsNoNet(gs, k);
      if Net(fs, k) != 0 {
        if k.high < k.low { KeysAreOrdered(fs, k); }
        var p := PositionFor(k, Net(fs, k), Count(fs, k));
        assert Residual(fs, p);
        assert false;
      }
    }
  }

  /** Netting preserves flows: every account sends and receives, net and in
      every currency, what it did in the input. */
  lemma NettingPreservesFlows(fs: seq<Flow>, out: seq<NetPosition>, a: AccountId, c: Currency)
    requires IsNetting(fs, out)
    ensures Outflow(AsFlows(out), a, c) == Outflow(fs, a, c)
  {
    forall k: PairKey ensures k.low != k.high ==> Net(AsFlows(out), k) == Net(fs, k) {
      NetOfPositions(fs, out, k);
    }
    SameNetsSameFlows(AsFlows(out), fs, a, c);
  }

  /** Netting is a fixpoint: netting the positions again gives the same flows,
      each now made of one contribution. */
  lemma NettingIsFixpoint(fs: seq<Flow>, out: seq<NetPosition>, again: seq<NetPosition>)
    requires IsNetting(fs, out) && IsNetting(AsFlows(out), again)
    ensures |again| == |out|
    ensures forall i :: 0 <= i < |out| ==> again[i] == out[i].(count := 1)
  {
    var ones := seq(|out|, i requires 0 <= i < |out| => out[i].(count := 1));
    var gs := AsFlows(out);
    forall p ensures p in ones <==> Residual(gs, p) {
      var k := PairOf(p);
      NetOfPositions(fs, out, k);
      if p in ones {
        var i :| 0 <= i < |ones| && ones[i] == p;
        assert out[i] in out && Residual(fs, out[i]);
      }
      if Residual(gs, p) {
        var q := PositionFor(k, Net(fs, k), Count(fs, k));
        KeyOfResidual(fs, k);
        assert Residual(fs, q);
        var i :| 0 <= i < |out| && out[i] == q;
        assert ones[i] == p;
      }
    }
    SortedListsEqual(again, ones);
  }

  lemma KeyOfResidual(fs: seq<Flow>, k: PairKey)
    requires Net(fs, k) != 0
    ensures PairOf(PositionFor(k, Net(fs, k), Count(fs, k))) == k
  {
    if k.high < k.low { KeysAreOrdered(fs, k); }
  }

  // ----------------------------------------------------------------- minimality

  function Abs(n: int): nat {
    if n < 0 then -n else n
  }

  ghost predicate NoNegatives(fs: seq<Flow>) {
    forall f :: f in fs ==> f.amount >= 0
  }

  lemma {:induction false} NetAtMostGross(fs: seq<Flow>, k: PairKey)
    requires NoNegatives(fs)
    ensures Abs(Net(fs, k)) <= Gross(On(fs, k))
  {
    if fs != [] {
      var init, f := fs[..|fs| - 1], fs[|fs| - 1];
      assert f in fs;
      assert forall g :: g in init ==> g in fs;
      NetAtMostGross(init, k);
      NetSnoc(On(init, k), f, k, f.from, f.currency);
    }
  }

  /** One flow per pair, as large as the net needs, is the least gross total. */
  lemma {:induction false} OnePerPairIsLeast(hs: seq<Flow>, gs: seq<Flow>)
    requires NoNegatives(gs)
    requires forall i, j :: 0 <= i < j < |hs| ==> KeyOf(hs[i]) != KeyOf(hs[j])
    requires forall k :: Abs(Net(hs, k)) == Abs(Net(gs, k))
    ensures Gross(hs) <= Gross(gs)
  {
    if hs == [] {
      GrossNonNegative(gs);
    } else {
      var init, h := hs[..|hs| - 1], hs[|hs| - 1];
      var k := KeyOf(h);
      forall f | f in init ensures KeyOf(f) != k {
        var i :| 0 <= i < |init| && init[i] == f;
        assert f == hs[i];
      }
      NoFlowsNoNet(init, k);
      SplitByPair(gs, k);
      SplitGross(gs, k);
      NetAtMostGross(gs, k);
      hide On, Off, KeyOf, Signed, Outflow, FlowOut;
      forall k' ensures Abs(Net(init, k')) == Abs(Net(Off(gs, k), k')) {
        NetOff(gs, k, k');
        NetSnoc(init, h, k', h.from, h.currency);
      }
      assert hs == init + [h];
      NetSnoc(init, h, k, h.from, h.currency);
      OnePerPairIsLeast(init, Off(gs, k));
    }
  }

  lemma {:induction false} GrossNonNegative(fs: seq<Flow>)
    requires NoNegatives(fs)
    ensures Gross(fs) >= 0
  {
    if fs != [] {
      assert fs[|fs| - 1] in fs;
      assert forall g :: g in fs[..|fs| - 1] ==> g in fs;
      GrossNonNegative(fs[..|fs| - 1]);
    }
  }

  /** Netting is minimal: no list of non-negative flows with the same net on
      every pair moves less in total; the input itself is one such list. */
  lemma NettingIsMinimal(fs: seq<Flow>, out: seq<NetPosition>, gs: seq<Flow>)
    requires IsNetting(fs, out)
    requires NoNegatives(gs) && forall k :: Net(gs, k) == Net(fs, k)
    ensures Gross(AsFlows(out)) <= Gross(gs)
  {
    NettingShape(fs, out);
    forall k ensures Abs(Net(AsFlows(out), k)) == Abs(Net(gs, k)) {
      NetOfPositions(fs, out, k);
    }
    OnePerPairIsLeast(AsFlows(out), gs);
  }

  // ------------------------------------------------------------- spelled out

  lemma {:induction false} TextLessIs(a: string, b: string) returns (k: nat)
    requires TextLess(a, b)
    ensures k <= |a| && k < |b| && a[..k] == b[..k] && (k == |a| || a[k] < b[k])
  {
    if a == [] || a[0] < b[0] {
      k := 0;
    } else {
      var j := TextLessIs(a[1..], b[1..]);
      k := j + 1;
      assert a == [a[0]] + a[1..] && b == [b[0]] + b[1..];
      assert a[..k] == [a[0]] + a[1..][..j] && b[..k] == [b[0]] + b[1..][..j];
    }
  }

  /** The order of positions: by from, then by to, then by the text of the
      currency, which at the first difference has the smaller character or ends. */
  lemma SortedMeansAscending(ps: seq<NetPosition>)
    requires StrictlySorted(ps)
    ensures forall i, j :: 0 <= i < j < |ps| ==>
      && ps[i].from <= ps[j].from
      && (ps[i].from == ps[j].from ==> ps[i].to <= ps[j].to)
      && (ps[i].from == ps[j].from && ps[i].to == ps[j].to ==>
            exists k: nat :: k <= |ps[i].currency| && k < |ps[j].currency|
              && ps[i].currency[..k] == ps[j].currency[..k]
              && (k == |ps[i].currency| || ps[i].currency[k] < ps[j].currency[k]))
  {
    forall i, j | 0 <= i < j < |ps|
      ensures ps[i].from <= ps[j].from
      ensures ps[i].from == ps[j].from ==> ps[i].to <= ps[j].to
      ensures ps[i].from == ps[j].from && ps[i].to == ps[j].to ==>
        exists k: nat :: k <= |ps[i].currency| && k < |ps[j].currency|
          && ps[i].currency[..k] == ps[j].currency[..k]
          && (k == |ps[i].currency| || ps[i].currency[k] < ps[j].currency[k])
    {
      assert PositionLess(ps[i], ps[j]);
      if ps[i].from == ps[j].from && ps[i].to == ps[j].to {
        var k := TextLessIs(ps[i].currency, ps[j].currency);
      }
    }
  }

  /** What a pays to b in currency c over the flows of fs, and in how many flows. */
  function Paid(fs: seq<Flow>, a: AccountId, b: AccountId, c: Currency): int {
    Sum(seq(|fs|, i requires 0 <= i < |fs| =>
      if fs[i].from == a && fs[i].to == b && fs[i].currency == c then fs[i].amount else 0))
  }

  function Between(fs: seq<Flow>, a: AccountId, b: AccountId, c: Currency): set<int> {
    set i | 0 <= i < |fs| && fs[i].currency == c && ((fs[i].from == a && fs[i].to == b) || (fs[i].from == b && fs[i].to == a))
  }

  lemma PaidSnoc(fs: seq<Flow>, f: Flow, a: AccountId, b: AccountId, c: Currency)
    ensures Paid([], a, b, c) == 0
    ensures Paid(fs + [f], a, b, c) ==
      Paid(fs, a, b, c) + if f.from == a && f.to == b && f.currency == c then f.amount else 0
  {
    var gs, x := fs + [f], if f.from == a && f.to == b && f.currency == c then f.amount else 0;
    var xs := seq(|fs|, i requires 0 <= i < |fs| =>
      if fs[i].from == a && fs[i].to == b && fs[i].currency == c then fs[i].amount else 0);
    var ys := seq(|gs|, i requires 0 <= i < |gs| =>
      if gs[i].from == a && gs[i].to == b && gs[i].currency == c then gs[i].amount else 0);
    SumSnoc(xs, x);
    hide Sum;
    assert ys == xs + [x];
  }

  lemma BetweenSnoc(fs: seq<Flow>, f: Flow, a: AccountId, b: AccountId, c: Currency)
    ensures |Between([], a, b, c)| == 0
    ensures |Between(fs + [f], a, b, c)| == |Between(fs, a, b, c)| +
      if f.currency == c && ((f.from == a && f.to == b) || (f.from == b && f.to == a)) then 1 else 0
  {
    var gs := fs + [f];
    assert Between(gs, a, b, c) == Between(fs, a, b, c) +
      if f.currency == c && ((f.from == a && f.to == b) || (f.from == b && f.to == a)) then {|fs|} else {};
  }

  /** The net and the count of a pair of distinct accounts. */
  lemma {:induction false} NetIsPaid(fs: seq<Flow>, a: AccountId, b: AccountId, c: Currency)
    requires a < b
    ensures Net(fs, PairKey(a, b, c)) == Paid(fs, a, b, c) - Paid(fs, b, a, c)
    ensures Count(fs, PairKey(a, b, c)) == |Between(fs, a, b, c)|
  {
    if fs == [] {
      PaidSnoc([], Flow(a, b, 0, c), a, b, c);
      PaidSnoc([], Flow(a, b, 0, c), b, a, c);
      BetweenSnoc([], Flow(a, b, 0, c), a, b, c);
    } else {
      var init, f := fs[..|fs| - 1], fs[|fs| - 1];
      assert fs == init + [f];
      NetIsPaid(init, a, b, c);
      PaidSnoc(init, f, a, b, c);
      PaidSnoc(init, f, b, a, c);
      BetweenSnoc(init, f, a, b, c);
      hide Paid, Between;
    }
  }

  lemma BetweenEitherWay(fs: seq<Flow>, a: AccountId, b: AccountId, c: Currency)
    ensures Between(fs, a, b, c) == Between(fs, b, a, c)
  {}

  /** A netting, pair by pair: there is a position from a to b exactly if a pays
      b more than b pays a, and it is over the difference and counts the flows
      between the two. */
  lemma PositionsArePaid(fs: seq<Flow>, out: seq<NetPosition>, a: AccountId, b: AccountId, c: Currency)
    requires IsNetting(fs, out) && a != b
    ensures Paid(fs, a, b, c) > Paid(fs, b, a, c) <==>
      NetPosition(a, b, c, Paid(fs, a, b, c) - Paid(fs, b, a, c), |Between(fs, a, b, c)|) in out
    ensures forall p :: p in out && p.from == a && p.to == b && p.currency == c ==>
      p.amount == Paid(fs, a, b, c) - Paid(fs, b, a, c) > 0 && p.count == |Between(fs, a, b, c)|
  {
    if a < b {
      NetIsPaid(fs, a, b, c);
    } else {
      NetIsPaid(fs, b, a, c);
      BetweenEitherWay(fs, a, b, c);
    }
    hide Paid, Between, Net, Count;
    var q := NetPosition(a, b, c, Paid(fs, a, b, c) - Paid(fs, b, a, c), |Between(fs, a, b, c)|);
    assert q in out <==> Residual(fs, q);
    forall p | p in out && p.from == a && p.to == b && p.currency == c
      ensures p.amount == Paid(fs, a, b, c) - Paid(fs, b, a, c) > 0 && p.count == |Between(fs, a, b, c)|
    {
      assert Residual(fs, p);
    }
  }

  /** Every position is in the currency of some flow. */
  lemma PositionsHaveFlows(fs: seq<Flow>, out: seq<NetPosition>)
    requires IsNetting(fs, out)
    ensures forall p :: p in out ==> exists f :: f in fs && f.currency == p.currency
  {
    forall p | p in out ensures exists f :: f in fs && f.currency == p.currency {
      assert Residual(fs, p);
      if forall f :: f in fs ==> KeyOf(f) != PairOf(p) {
        NoFlowsNoNet(fs, PairOf(p));
      }
    }
  }
}
