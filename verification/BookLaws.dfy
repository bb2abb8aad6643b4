/** What every `match` call keeps: a well-indexed book that never crosses. */
module BookLaws {
  import opened Wrappers
  import opened Orders
  import opened PriceTime
  import opened GreedyLaws

  // ---------------------------------------------------------------- well-indexed books

  /** A level: live orders of one side and price, in strictly ascending arrival order. */
  ghost predicate LevelOk(side: Side, price: int, q: seq<Lot>, clock: nat) {
    && (forall i :: 0 <= i < |q| ==> LotOk(side, price, q[i], clock))
    && (forall i, j :: 0 <= i < j < |q| ==> q[i].arrival < q[j].arrival)
  }

  ghost predicate LotOk(side: Side, price: int, m: Lot, clock: nat) {
    && m.t.side == side && m.t.price == Some(price) && Validates(m.t)
    && 0 <= m.filled < m.t.qty && m.arrival <= clock
  }

  ghost predicate SideOk(side: Side, levels: Levels, clock: nat) {
    forall p :: p in levels ==> levels[p] != [] && LevelOk(side, p, levels[p], clock)
  }

  predicate Has(b: Book, m: Lot) {
    m.t.price.Some? && m in LevelAt(b.On(m.t.side), m.t.price.value)
  }

  ghost predicate UniqueIds(b: Book) {
    forall m, n :: Has(b, m) && Has(b, n) && m.t.id == n.t.id ==> m == n
  }

  ghost predicate Indexed(b: Book) {
    SideOk(BUY, b.bids, b.clock) && SideOk(SELL, b.asks, b.clock) && UniqueIds(b)
  }

  /** No bid at or above an ask, except between orders of one subaccount that may not trade together. */
  ghost predicate Uncrossed(b: Book, ex: Exchange) {
    forall x, y :: Has(b, x) && Has(b, y) && x.t.side.BUY? && y.t.side.SELL? && x.t.price.value >= y.t.price.value
      ==> ex.stp && x.t.sub == y.t.sub
  }

  ghost predicate Fresh(b: Book, t: Ticket) {
    forall m :: Has(b, m) ==> m.t.id != t.id
  }

  lemma IndexedPriced(b: Book)
    requires Indexed(b)
    ensures PricedLevels(b.bids) && PricedLevels(b.asks)
  {
  }

  lemma HasOn(b: Book, side: Side, price: int, m: Lot)
    requires Indexed(b) && m in LevelAt(b.On(side), price)
    ensures Has(b, m) && m.t.side == side && m.t.price == Some(price)
  {
  }

  // ---------------------------------------------------------------- what a walk leaves

  /** `m` is what became of `n`: the same order, perhaps filled further. */
  predicate From(m: Lot, n: Lot) { m.t == n.t && m.arrival == n.arrival && n.filled <= m.filled }

  ghost predicate AllFrom(rest: seq<Lot>, q: seq<Lot>) {
    forall m :: m in rest ==> exists n :: n in q && From(m, n)
  }

  lemma {:induction false} WalkLeaves(t: Ticket, ex: Exchange, q: seq<Lot>, want: int, side: Side, price: int,
                                      clock: nat)
    requires LevelOk(side, price, q, clock) && Priced(q)
    ensures LevelOk(side, price, Walk(t, ex, q, want).rest, clock)
    ensures AllFrom(Walk(t, ex, q, want).rest, q)
  {
    if q != [] {
      hide LevelOk, AllFrom, Eligible;
      var m, tail := q[0], q[1..];
      LevelTail(side, price, q, clock);
      var take := if want > 0 && Eligible(t, ex, m) then Min(want, m.Remaining()) else 0;
      WalkLeaves(t, ex, tail, want - take, side, price, clock);
      var rest := Walk(t, ex, tail, want - take).rest;
      var after := m.(filled := m.filled + take);
      WalkRestHead(t, ex, q, want);
      LeavesCons(side, price, q, after, rest, clock);
    }
  }

  lemma LeavesCons(side: Side, price: int, q: seq<Lot>, after: Lot, rest: seq<Lot>, clock: nat)
    requires q != [] && LotOk(side, price, q[0], clock) && From(after, q[0]) && after.filled <= after.t.qty
    requires forall x :: x in q[1..] ==> q[0].arrival < x.arrival
    requires LevelOk(side, price, rest, clock) && AllFrom(rest, q[1..])
    ensures LevelOk(side, price, (if after.Remaining() == 0 then [] else [after]) + rest, clock)
    ensures AllFrom((if after.Remaining() == 0 then [] else [after]) + rest, q)
  {
    AllFromTail(rest, q);
    if after.Remaining() == 0 {
      assert [] + rest == rest;
    } else {
      forall x | x in rest
        ensures after.arrival < x.arrival
      {
        var n :| n in q[1..] && From(x, n);
      }
      LevelCons(side, price, after, rest, clock);
      AllFromCons(after, rest, q);
    }
  }

  lemma LevelTail(side: Side, price: int, q: seq<Lot>, clock: nat)
    requires LevelOk(side, price, q, clock) && q != []
    ensures LotOk(side, price, q[0], clock) && LevelOk(side, price, q[1..], clock)
    ensures forall x :: x in q[1..] ==> q[0].arrival < x.arrival
  {
  }

  lemma WalkRestHead(t: Ticket, ex: Exchange, q: seq<Lot>, want: int)
    requires Priced(q) && q != [] && q[0].Remaining() > 0
    ensures var m := q[0]; var take := if want > 0 && Eligible(t, ex, m) then Min(want, m.Remaining()) else 0;
            var after := m.(filled := m.filled + take);
            Walk(t, ex, q, want).rest ==
            (if after.Remaining() == 0 then [] else [after]) + Walk(t, ex, q[1..], want - take).rest
  {
    assert q[0].(filled := q[0].filled + 0) == q[0];
  }

  lemma LevelCons(side: Side, price: int, m: Lot, rest: seq<Lot>, clock: nat)
    requires LotOk(side, price, m, clock) && LevelOk(side, price, rest, clock)
    requires forall x :: x in rest ==> m.arrival < x.arrival
    ensures LevelOk(side, price, [m] + rest, clock)
  {
  }

  lemma AllFromTail(rest: seq<Lot>, q: seq<Lot>)
    requires q != [] && AllFrom(rest, q[1..])
    ensures AllFrom(rest, q)
  {
    forall m | m in rest
      ensures exists n :: n in q && From(m, n)
    {
      var n :| n in q[1..] && From(m, n);
      assert n in q;
    }
  }

  lemma AllFromCons(m: Lot, rest: seq<Lot>, q: seq<Lot>)
    requires q != [] && From(m, q[0]) && AllFrom(rest, q)
    ensures AllFrom([m] + rest, q)
  {
    assert q[0] in q;
  }

  /** After a sweep every surviving order is one that was there, with the same price, side and arrival. */
  lemma {:induction false} SweepLeaves(t: Ticket, ex: Exchange, levels: Levels, prices: seq<int>, want: int, side: Side,
                                       clock: nat)
    requires SideOk(side, levels, clock) && PricedLevels(levels)
    ensures SideOk(side, SweepLevels(t, ex, levels, prices, want).levels, clock)
    ensures forall p :: AllFrom(LevelAt(SweepLevels(t, ex, levels, prices, want).levels, p), LevelAt(levels, p))
    decreases |prices|
  {
    if prices == [] {
      forall p
        ensures AllFrom(LevelAt(levels, p), LevelAt(levels, p))
      {
        forall m | m in LevelAt(levels, p)
          ensures exists n :: n in LevelAt(levels, p) && From(m, n)
        {
          assert From(m, m);
        }
      }
    } else {
      var p0 := prices[0];
      WalkLeaves(t, ex, LevelAt(levels, p0), want, side, p0, clock);
      WalkPriced(t, ex, LevelAt(levels, p0), want);
      var w := Walk(t, ex, LevelAt(levels, p0), want);
      var next := SetLevel(levels, p0, w.rest);
      SweepLeaves(t, ex, next, prices[1..], w.left, side, clock);
      var last := SweepLevels(t, ex, next, prices[1..], w.left).levels;
      forall p, m | m in LevelAt(last, p)
        ensures exists n :: n in LevelAt(levels, p) && From(m, n)
      {
        var x :| x in LevelAt(next, p) && From(m, x);
        if p == p0 {
          var n :| n in LevelAt(levels, p) && From(x, n);
          assert From(m, n);
        }
      }
    }
  }

  lemma PrioritySound(side: Side, ks: set<int>)
    ensures Distinct(PriorityPrices(side, ks))
  {
  }

  lemma SweepDryHits(t: Ticket, ex: Exchange, levels: Levels, prices: seq<int>, want: int)
    requires PricedLevels(levels) && Distinct(prices)
    requires SweepLevels(t, ex, levels, prices, want).left > 0
    ensures Priced(Queue(levels, prices))
    ensures SweepLevels(t, ex, levels, prices, want).hit == Makers(t, ex, Queue(levels, prices))
  {
    SweepIsWalk(t, ex, levels, prices, want);
    WalkDry(t, ex, Queue(levels, prices), want);
  }

  lemma SweepIdle(t: Ticket, ex: Exchange, levels: Levels, prices: seq<int>, want: int)
    requires PricedLevels(levels) && Distinct(prices) && want <= 0
    ensures SweepLevels(t, ex, levels, prices, want).left == want
  {
    SweepIsWalk(t, ex, levels, prices, want);
    WalkIdle(t, ex, Queue(levels, prices), want);
  }

  /** A taker left wanting has passed by every order still resting against it. */
  lemma {:induction false} SweepDry(t: Ticket, ex: Exchange, levels: Levels, prices: seq<int>, want: int)
    requires PricedLevels(levels) && Distinct(prices)
    requires SweepLevels(t, ex, levels, prices, want).left > 0
    ensures forall p :: p in prices ==>
              LevelAt(SweepLevels(t, ex, levels, prices, want).levels, p) == Skipped(t, ex, LevelAt(levels, p))
    decreases |prices|
  {
    if prices != [] {
      var p0, ps := prices[0], prices[1..];
      WalkPriced(t, ex, LevelAt(levels, p0), want);
      var w := Walk(t, ex, LevelAt(levels, p0), want);
      var next := SetLevel(levels, p0, w.rest);
      if w.left <= 0 {
        SweepIdle(t, ex, next, ps, w.left);
      }
      WalkDry(t, ex, LevelAt(levels, p0), want);
      SweepDry(t, ex, next, ps, w.left);
      SweepIsWalk(t, ex, next, ps, w.left);
      assert p0 !in ps;
    }
  }

  // ---------------------------------------------------------------- adding an order

  lemma AddHas(b: Book, m: Lot, x: Lot)
    requires m.t.price.Some?
    ensures Has(AddLot(b, m), x) <==> Has(b, x) || x == m.(arrival := b.clock + 1)
  {
  }

  lemma AddIndexed(b: Book, m: Lot)
    requires Indexed(b) && m.t.price.Some? && Fresh(b, m.t)
    requires Validates(m.t) && 0 <= m.filled < m.t.qty
    ensures Indexed(AddLot(b, m))
  {
    forall x
      ensures Has(AddLot(b, m), x) <==> Has(b, x) || x == m.(arrival := b.clock + 1)
    {
      AddHas(b, m, x);
    }
  }

  // ---------------------------------------------------------------- one call

  /** The book after the sweep and before the remainder is dealt with. */
  ghost function SweptBook(b: Book, t: Ticket, ex: Exchange): (r: Book)
    requires PricedLevels(b.bids) && PricedLevels(b.asks)
    ensures PricedLevels(r.bids) && PricedLevels(r.asks)
  {
    b.With(t.side.Opposite(), SweepBook(b, t, ex).levels)
  }

  ghost function Against(b: Book, t: Ticket): (q: seq<Lot>)
  {
    Queue(b.On(t.side.Opposite()), PriorityPrices(t.side, b.On(t.side.Opposite()).Keys))
  }

  lemma SweptIndexed(b: Book, t: Ticket, ex: Exchange)
    requires Indexed(b)
    ensures PricedLevels(b.bids) && PricedLevels(b.asks)
    ensures Indexed(SweptBook(b, t, ex))
    ensures forall m :: Has(SweptBook(b, t, ex), m) ==> exists n :: Has(b, n) && From(m, n)
  {
    IndexedPriced(b);
    var side := t.side.Opposite();
    var levels := b.On(side);
    SweepLeaves(t, ex, levels, PriorityPrices(t.side, levels.Keys), t.qty, side, b.clock);
    var s := SweptBook(b, t, ex);
    forall m | Has(s, m)
      ensures exists n :: Has(b, n) && From(m, n)
    {
      if m.t.side == side {
        var n :| n in LevelAt(levels, m.t.price.value) && From(m, n);
        assert Has(b, n);
      } else {
        assert Has(b, m) && From(m, m);
      }
    }
    forall m, n | Has(s, m) && Has(s, n) && m.t.id == n.t.id
      ensures m == n
    {
      var m0 :| Has(b, m0) && From(m, m0);
      var n0 :| Has(b, n0) && From(n, n0);
      assert m0 == n0;
      SameArrival(s, m, n);
    }
  }

  lemma SameArrival(b: Book, m: Lot, n: Lot)
    requires SideOk(BUY, b.bids, b.clock) && SideOk(SELL, b.asks, b.clock)
    requires Has(b, m) && Has(b, n) && m.t.side == n.t.side && m.t.price == n.t.price && m.arrival == n.arrival
    ensures m == n
  {
    var q := LevelAt(b.On(m.t.side), m.t.price.value);
    var i :| 0 <= i < |q| && q[i] == m;
    var j :| 0 <= j < |q| && q[j] == n;
  }
}
