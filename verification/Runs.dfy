/** Whole runs of `match` calls from an empty book: safety of the book and conservation of quantity. */
module Runs {
  import opened Wrappers
  import opened Orders
  import opened PriceTime
  import opened GreedyLaws
  import opened BookLaws
  import opened MatchLaws
  import opened FillOrKill

  /** A run so far: the orders submitted, the book, the fills returned, and what each order lost to
      cancellation. */
  datatype Venue = Venue(orders: seq<Ticket>, book: Book, tape: seq<Fill>, dropped: map<string, int>)

  const OPENING := Venue([], Book(map[], map[], 0), [], map[])

  ghost predicate DistinctIds(orders: seq<Ticket>) {
    forall i, j :: 0 <= i < j < |orders| ==> orders[i].id != orders[j].id
  }

  ghost function Step(v: Venue, t: Ticket, ex: Exchange, lookup: Lookup): Venue
    requires PricedLevels(v.book.bids) && PricedLevels(v.book.asks)
  {
    var o := Execute(v.book, t, ex, lookup);
    Venue(v.orders + [t], o.book, v.tape + o.fills,
          v.dropped[t.id := if o.rested then 0 else t.qty - o.takerFilled])
  }

  ghost predicate Safe(v: Venue, ex: Exchange) {
    && Indexed(v.book) && Uncrossed(v.book, ex)
    && PricedLevels(v.book.bids) && PricedLevels(v.book.asks)
    && forall m :: Has(v.book, m) ==> m.t in v.orders
  }

  lemma StepSafe(v: Venue, t: Ticket, ex: Exchange, lookup: Lookup)
    requires Safe(v, ex) && DistinctIds(v.orders + [t])
    ensures Safe(Step(v, t, ex, lookup), ex)
  {
    FreshInRun(v, t, ex);
    ExecuteKeeps(v.book, t, ex, lookup);
    IndexedPriced(Execute(v.book, t, ex, lookup).book);
    forall m | Has(Step(v, t, ex, lookup).book, m)
      ensures m.t in v.orders + [t]
    {
      ExecuteTickets(v.book, t, ex, lookup, m);
    }
  }

  lemma FreshInRun(v: Venue, t: Ticket, ex: Exchange)
    requires Safe(v, ex) && DistinctIds(v.orders + [t])
    ensures Fresh(v.book, t)
  {
    forall m | Has(v.book, m)
      ensures m.t.id != t.id
    {
      var i :| 0 <= i < |v.orders| && v.orders[i] == m.t;
      assert (v.orders + [t])[i] == m.t && (v.orders + [t])[|v.orders|] == t;
    }
  }

  /** A call brings no order into the book but its own. */
  lemma ExecuteTickets(b: Book, t: Ticket, ex: Exchange, lookup: Lookup, m: Lot)
    requires Indexed(b) && PricedLevels(b.bids) && PricedLevels(b.asks)
    requires Has(Execute(b, t, ex, lookup).book, m)
    ensures m.t == t || exists n :: Has(b, n) && n.t == m.t
  {
    if Validates(t) {
      AgainstRanks(b, t, ex);
      var es := Makers(t, ex, Against(b, t));
      var swept := SweptBook(b, t, ex);
      ExecuteBook(b, t, ex, lookup, es);
      SweptSub(b, t, ex);
      if SweepBook(b, t, ex).left > 0 {
        if t.tif == FOK {
          RestoredHas(lookup, swept, es, m);
        } else if t.tif != IOC && t.kind != MARKET {
          AddHas(swept, Lot(t, t.qty - SweepBook(b, t, ex).left, 0), m);
        }
      }
    }
  }

  lemma RestoredHas(lookup: Lookup, b: Book, makers: seq<Lot>, m: Lot)
    requires Priced(makers) && Has(Restored(lookup, b, makers), m)
    ensures Has(b, m) || exists n :: n in makers && n.t == m.t && n.filled == m.filled
  {
    AddAllHas(b, makers, m);
    if makers != [] {
      AddHas(b, makers[0], m);
    }
  }

  lemma {:induction false} AddAllHas(b: Book, makers: seq<Lot>, m: Lot)
    requires Priced(makers)
    ensures Has(AddAll(b, makers), m) ==> Has(b, m) || exists n :: n in makers && n.t == m.t && n.filled == m.filled
    ensures Has(b, m) ==> Has(AddAll(b, makers), m)
    ensures m in makers ==> exists x :: Has(AddAll(b, makers), x) && x.t == m.t && x.filled == m.filled
    decreases |makers|
  {
    if makers != [] {
      var next, tail := AddLot(b, makers[0]), makers[0].(arrival := b.clock + 1);
      AddHas(b, makers[0], m);
      AddHas(b, makers[0], tail);
      AddAllHas(next, makers[1..], m);
      AddAllHas(next, makers[1..], tail);
      assert makers[0] in makers;
    }
  }

  /** The state after submitting `orders` one by one. */
  ghost function After(orders: seq<Ticket>, ex: Exchange, lookup: Lookup): (v: Venue)
    requires DistinctIds(orders)
    ensures Safe(v, ex) && v.orders == orders
    decreases |orders|
  {
    if orders == [] then OPENING
    else
      var n := |orders| - 1;
      var v := After(orders[..n], ex, lookup);
      assert orders[..n] + [orders[n]] == orders;
      StepSafe(v, orders[n], ex, lookup);
      Step(v, orders[n], ex, lookup)
  }

  /** In every run, of any mix of orders: a bid at or above an ask belongs to the same subaccount, and
      only while self-trades are prevented; otherwise the best bid is below the best ask. */
  lemma RunNeverCrosses(orders: seq<Ticket>, ex: Exchange, lookup: Lookup, x: Lot, y: Lot)
    requires DistinctIds(orders)
    requires Has(After(orders, ex, lookup).book, x) && Has(After(orders, ex, lookup).book, y)
    requires x.t.side.BUY? && y.t.side.SELL?
    ensures x.t.price.value >= y.t.price.value ==> ex.stp && x.t.sub == y.t.sub
    ensures !ex.stp ==> x.t.price.value < y.t.price.value
  {
    var v := After(orders, ex, lookup);
    assert Uncrossed(v.book, ex);
  }

  // ---------------------------------------------------------------- quantities on the tape

  function MakerQty(fills: seq<Fill>, id: string): int {
    if fills == [] then 0 else (if fills[0].maker == id then fills[0].qty else 0) + MakerQty(fills[1..], id)
  }

  function TakerQty(fills: seq<Fill>, id: string): int {
    if fills == [] then 0 else (if fills[0].taker == id then fills[0].qty else 0) + TakerQty(fills[1..], id)
  }

  /** What an order has traded, on either side of its fills. */
  function Traded(tape: seq<Fill>, id: string): int { MakerQty(tape, id) + TakerQty(tape, id) }

  lemma {:induction false} QtyConcat(a: seq<Fill>, b: seq<Fill>, id: string)
    ensures MakerQty(a + b, id) == MakerQty(a, id) + MakerQty(b, id)
    ensures TakerQty(a + b, id) == TakerQty(a, id) + TakerQty(b, id)
  {
    if a == [] {
      assert a + b == b;
    } else {
      assert (a + b)[1..] == a[1..] + b;
      QtyConcat(a[1..], b, id);
    }
  }

  lemma {:induction false} TakerQtyAll(fills: seq<Fill>, taker: string, id: string)
    requires forall f :: f in fills ==> f.taker == taker
    ensures TakerQty(fills, id) == if id == taker then FilledQty(fills) else 0
  {
    if fills != [] {
      assert fills[0] in fills;
      TakerQtyAll(fills[1..], taker, id);
    }
  }

  lemma {:induction false} NoMaker(fills: seq<Fill>, id: string)
    requires forall f :: f in fills ==> f.maker != id
    ensures MakerQty(fills, id) == 0
  {
    if fills != [] {
      assert fills[0] in fills;
      NoMaker(fills[1..], id);
    }
  }

  // ---------------------------------------------------------------- what a walk does to its makers

  ghost predicate DistinctLots(q: seq<Lot>) {
    && Priced(q)
    && (forall i, j :: 0 <= i < j < |q| ==> q[i].t.id != q[j].t.id)
    && (forall i :: 0 <= i < |q| ==> 0 <= q[i].filled < q[i].t.qty)
  }

  /** `n` kept its account through the walk: filled further by exactly what the fills say, and gone only
      when that is all it had. */
  ghost predicate Accounted(n: Lot, w: Swept) {
    var got := MakerQty(w.fills, n.t.id);
    && 0 <= got <= n.Remaining()
    && (got < n.Remaining() ==> n.(filled := n.filled + got) in w.rest)
    && (forall m :: m in w.rest && m.t.id == n.t.id ==> m == n.(filled := n.filled + got) && got < n.Remaining())
  }

  lemma {:induction false} WalkNames(t: Ticket, ex: Exchange, q: seq<Lot>, want: int)
    requires Priced(q)
    ensures forall f :: f in Walk(t, ex, q, want).fills ==> f.taker == t.id && exists n :: n in q && n.t.id == f.maker
    ensures forall m :: m in Walk(t, ex, q, want).rest ==> exists n :: n in q && n.t == m.t
  {
    if q != [] {
      var take := if want > 0 && Eligible(t, ex, q[0]) then Min(want, q[0].Remaining()) else 0;
      WalkNames(t, ex, q[1..], want - take);
      assert q[0] in q;
      assert forall n :: n in q[1..] ==> n in q;
    }
  }

  lemma WalkStep(t: Ticket, ex: Exchange, q: seq<Lot>, want: int, id: string)
    requires Priced(q) && q != [] && q[0].Remaining() > 0
    ensures var m := q[0]; var take := if want > 0 && Eligible(t, ex, m) then Min(want, m.Remaining()) else 0;
            var after := m.(filled := m.filled + take);
            var w, r := Walk(t, ex, q, want), Walk(t, ex, q[1..], want - take);
            && w.rest == (if after.Remaining() == 0 then [] else [after]) + r.rest
            && MakerQty(w.fills, id) == (if m.t.id == id then take else 0) + MakerQty(r.fills, id)
            && 0 <= take <= m.Remaining()
  {
    WalkRestHead(t, ex, q, want);
    var m := q[0];
    var take := if want > 0 && Eligible(t, ex, m) then Min(want, m.Remaining()) else 0;
    var w, r := Walk(t, ex, q, want), Walk(t, ex, q[1..], want - take);
    if take > 0 {
      assert w.fills == [FillOf(ex, t, m, take)] + r.fills;
      QtyConcat([FillOf(ex, t, m, take)], r.fills, id);
    } else {
      assert w.fills == r.fills;
    }
  }

  lemma HeadAccounted(m: Lot, take: int, w: Swept, r: Swept)
    requires 0 <= take <= m.Remaining() && 0 <= m.filled < m.t.qty
    requires var after := m.(filled := m.filled + take);
             w.rest == (if after.Remaining() == 0 then [] else [after]) + r.rest
    requires MakerQty(w.fills, m.t.id) == take
    requires forall x :: x in r.rest ==> x.t.id != m.t.id
    ensures Accounted(m, w)
  {
  }

  lemma TailAccounted(n: Lot, after: Lot, w: Swept, r: Swept)
    requires Accounted(n, r) && n.t.id != after.t.id
    requires w.rest == (if after.Remaining() == 0 then [] else [after]) + r.rest
    requires MakerQty(w.fills, n.t.id) == MakerQty(r.fills, n.t.id)
    ensures Accounted(n, w)
  {
  }

  lemma {:induction false} WalkAccounts(t: Ticket, ex: Exchange, q: seq<Lot>, want: int, n: Lot)
    requires DistinctLots(q) && n in q
    ensures Accounted(n, Walk(t, ex, q, want))
  {
    hide Walk, Eligible, Accounted;
    var m := q[0];
    var take := if want > 0 && Eligible(t, ex, m) then Min(want, m.Remaining()) else 0;
    var w, r := Walk(t, ex, q, want), Walk(t, ex, q[1..], want - take);
    WalkNames(t, ex, q[1..], want - take);
    WalkStep(t, ex, q, want, n.t.id);
    if n == m {
      forall f | f in r.fills
        ensures f.maker != n.t.id
      {
        var x :| x in q[1..] && x.t.id == f.maker;
      }
      NoMaker(r.fills, n.t.id);
      forall x | x in r.rest
        ensures x.t.id != n.t.id
      {
        var y :| y in q[1..] && y.t == x.t;
      }
      HeadAccounted(m, take, w, r);
    } else {
      WalkAccounts(t, ex, q[1..], want - take, n);
      TailAccounted(n, m.(filled := m.filled + take), w, r);
    }
  }
}
