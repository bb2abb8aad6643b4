/** The theorems about one `match` call: priority, limits, fill-or-kill, and what it never breaks. */
module MatchLaws {
  import opened Wrappers
  import opened Orders
  import opened PriceTime
  import opened GreedyLaws
  import opened BookLaws

  // ---------------------------------------------------------------- ranking the makers

  /** Price first, then arrival; `side` is the aggressor's. */
  ghost predicate Before(side: Side, m: Lot, n: Lot)
    requires m.t.price.Some? && n.t.price.Some?
  {
    if m.t.price == n.t.price then m.arrival < n.arrival
    else if side.BUY? then m.t.price.value < n.t.price.value
    else m.t.price.value > n.t.price.value
  }

  ghost predicate Ranked(side: Side, q: seq<Lot>) {
    Priced(q) && forall i, j :: 0 <= i < j < |q| ==> Before(side, q[i], q[j])
  }

  /** `es` ranks exactly the live orders the taker may trade with, wherever the book keeps them. */
  ghost predicate Ranking(b: Book, t: Ticket, ex: Exchange, es: seq<Lot>) {
    && Ranked(t.side, es)
    && forall m :: m in es <==> Has(b, m) && m.t.side == t.side.Opposite() && Eligible(t, ex, m)
  }

  lemma {:induction false} QueueMembers(levels: Levels, prices: seq<int>, m: Lot)
    ensures m in Queue(levels, prices) <==> exists p :: p in prices && m in LevelAt(levels, p)
  {
    if prices != [] {
      QueueMembers(levels, prices[1..], m);
      if p :| p in prices && m in LevelAt(levels, p) {
        assert p == prices[0] || p in prices[1..];
      }
    }
  }

  lemma {:induction false} QueueRanked(aggressor: Side, levels: Levels, prices: seq<int>, side: Side, clock: nat)
    requires SideOk(side, levels, clock)
    requires if aggressor.BUY? then Increasing(prices) else Decreasing(prices)
    ensures Ranked(aggressor, Queue(levels, prices))
  {
    if prices != [] {
      var p, ps := prices[0], prices[1..];
      QueueRanked(aggressor, levels, ps, side, clock);
      var a, b := LevelAt(levels, p), Queue(levels, ps);
      assert LevelOk(side, p, a, clock);
      forall n | n in b
        ensures n.t.price.Some? && if aggressor.BUY? then p < n.t.price.value else p > n.t.price.value
      {
        QueueMembers(levels, ps, n);
        var p1 :| p1 in ps && n in LevelAt(levels, p1);
        assert LevelOk(side, p1, LevelAt(levels, p1), clock);
      }
      forall i, j | 0 <= i < j < |a + b|
        ensures Before(aggressor, (a + b)[i], (a + b)[j])
      {
        if i < |a| && j >= |a| {
          assert (a + b)[j] in b;
        }
      }
    }
  }

  lemma {:induction false} MakersRanked(side: Side, t: Ticket, ex: Exchange, q: seq<Lot>)
    requires Ranked(side, q)
    ensures Ranked(side, Makers(t, ex, q))
  {
    MakersMembers(t, ex, q);
    if q != [] {
      MakersRanked(side, t, ex, q[1..]);
      MakersMembers(t, ex, q[1..]);
      var es := Makers(t, ex, q[1..]);
      forall n | n in es
        ensures n.t.price.Some? && Before(side, q[0], n)
      {
        assert n in q[1..];
      }
    }
  }

  /** A ranking is unique: it is fixed by which orders it holds. */
  lemma {:induction false} RankedUnique(side: Side, a: seq<Lot>, b: seq<Lot>)
    requires Ranked(side, a) && Ranked(side, b)
    requires forall m :: m in a <==> m in b
    ensures a == b
  {
    if a == [] {
      if b != [] {
        FirstIn(b);
        assert false;
      }
    } else {
      assert a[0] in b;
      assert b[0] in b;
      RankedFirst(side, a, b);
      NotInTail(side, a);
      NotInTail(side, b);
      forall m
        ensures m in a[1..] <==> m in b[1..]
      {
        assert m in a <==> m == a[0] || m in a[1..];
        assert m in b <==> m == b[0] || m in b[1..];
      }
      RankedUnique(side, a[1..], b[1..]);
    }
  }

  lemma RankedFirst(side: Side, a: seq<Lot>, b: seq<Lot>)
    requires Ranked(side, a) && Ranked(side, b) && a != [] && b != []
    requires a[0] in b && b[0] in a
    ensures a[0] == b[0]
  {
    var i :| 0 <= i < |a| && a[i] == b[0];
    var j :| 0 <= j < |b| && b[j] == a[0];
  }

  lemma FirstIn(a: seq<Lot>)
    requires a != []
    ensures a[0] in a
  {
  }

  lemma NotInTail(side: Side, a: seq<Lot>)
    requires Ranked(side, a) && a != []
    ensures a[0] !in a[1..]
  {
  }

  /** The makers met along the levels are the ranking. */
  lemma AgainstRanks(b: Book, t: Ticket, ex: Exchange)
    requires Indexed(b)
    ensures Priced(Against(b, t)) && Ranking(b, t, ex, Makers(t, ex, Against(b, t)))
  {
    var side := t.side.Opposite();
    var levels := b.On(side);
    var prices := PriorityPrices(t.side, levels.Keys);
    QueueRanked(t.side, levels, prices, side, b.clock);
    MakersRanked(t.side, t, ex, Against(b, t));
    MakersMembers(t, ex, Against(b, t));
    forall m
      ensures m in Against(b, t) <==> Has(b, m) && m.t.side == side
    {
      QueueMembers(levels, prices, m);
      if p :| p in prices && m in LevelAt(levels, p) {
        HasOn(b, side, p, m);
      }
    }
  }

  lemma RankingIs(b: Book, t: Ticket, ex: Exchange, es: seq<Lot>)
    requires Indexed(b) && Ranking(b, t, ex, es)
    ensures Priced(Against(b, t)) && es == Makers(t, ex, Against(b, t))
  {
    AgainstRanks(b, t, ex);
    RankedUnique(t.side, es, Makers(t, ex, Against(b, t)));
  }

  // ---------------------------------------------------------------- price-time priority

  /** Whatever the sweep does level by level, it is the greedy allocation over the ranking. */
  lemma SweepIsGreedy(b: Book, t: Ticket, ex: Exchange, es: seq<Lot>)
    requires Indexed(b) && Ranking(b, t, ex, es) && t.qty >= 0
    ensures PricedLevels(b.bids) && PricedLevels(b.asks)
    ensures var s := SweepBook(b, t, ex);
            && IsGreedy(ex, t, es, t.qty, s.fills)
            && FilledQty(s.fills) == Min(t.qty, Quantity(es)) && s.left == t.qty - Min(t.qty, Quantity(es))
            && (s.left > 0 ==> s.hit == es)
  {
    IndexedPriced(b);
    RankingIs(b, t, ex, es);
    var levels := b.On(t.side.Opposite());
    var prices := PriorityPrices(t.side, levels.Keys);
    PrioritySound(t.side, levels.Keys);
    SweepIsWalk(t, ex, levels, prices, t.qty);
    WalkGreedy(t, ex, Against(b, t), t.qty);
    WalkTotals(t, ex, Against(b, t), t.qty);
    if SweepBook(b, t, ex).left > 0 {
      SweepDryHits(t, ex, levels, prices, t.qty);
    }
  }

  /** How a valid order's call ends, by what its sweep left. */
  lemma ExecuteEnds(b: Book, t: Ticket, ex: Exchange, lookup: Lookup)
    requires PricedLevels(b.bids) && PricedLevels(b.asks) && Validates(t)
    ensures var s, o := SweepBook(b, t, ex), Execute(b, t, ex, lookup);
            && (o.fullyFilled <==> s.left <= 0)
            && (s.left <= 0 || t.tif != FOK ==> o.err == Fine && o.fills == s.fills && o.takerFilled == t.qty - s.left)
            && (s.left > 0 && t.tif == FOK ==> o.fills == [])
            && (o.rested <==> s.left > 0 && t.tif != FOK && t.tif != IOC && t.kind != MARKET)
  {
    hide SweepBook, Restored, RollbackEnds, AddLot, PricedLevels;
  }

  /** A call that does not roll back fills greedily: as much as the taker wants and the eligible makers
      have, in price-time order, each fill the k-th maker's share at that maker's price. */
  lemma MatchIsGreedy(b: Book, t: Ticket, ex: Exchange, lookup: Lookup, es: seq<Lot>)
    requires Indexed(b) && Ranking(b, t, ex, es) && Validates(t)
    ensures PricedLevels(b.bids) && PricedLevels(b.asks)
    ensures var o := Execute(b, t, ex, lookup); var there := Quantity(es);
            && (o.fullyFilled <==> there >= t.qty)
            && (t.tif != FOK || there >= t.qty ==>
                  && o.err == Fine && IsGreedy(ex, t, es, t.qty, o.fills)
                  && o.takerFilled == FilledQty(o.fills) == Min(t.qty, there))
            && (o.rested <==> there < t.qty && t.tif != FOK && t.tif != IOC && t.kind != MARKET)
  {
    SweepIsGreedy(b, t, ex, es);
    ExecuteEnds(b, t, ex, lookup);
    hide Execute, SweepBook, IsGreedy, Indexed, Ranking, PricedLevels, Quantity, FilledQty;
  }

  /** No fill is outside the taker's limit, off the maker's price, empty, or within one subaccount. */
  lemma FillsRespectLimits(b: Book, t: Ticket, ex: Exchange, lookup: Lookup, k: nat)
    requires Indexed(b) && Validates(t)
    requires PricedLevels(b.bids) && PricedLevels(b.asks)
    requires k < |Execute(b, t, ex, lookup).fills|
    ensures var f := Execute(b, t, ex, lookup).fills[k];
            && f.qty > 0 && f.side == t.side && f.taker == t.id && f.exchangeId == ex.id
            && (t.kind != MARKET ==> if t.side.BUY? then f.price <= t.price.value else f.price >= t.price.value)
            && (ex.stp ==> f.makerSub != f.takerSub)
            && exists m :: Has(b, m) && m.t.id == f.maker && m.t.price == Some(f.price)
                           && m.t.side != t.side && f.qty <= m.Remaining()
  {
    hide Execute, Indexed, Against, Makers, Has, PricedLevels;
    AgainstRanks(b, t, ex);
    var es := Makers(t, ex, Against(b, t));
    FillsAreGreedy(b, t, ex, lookup, es);
    assert es[k] in es;
    assert Has(b, es[k]);
  }

  /** A call that fills at all fills greedily. */
  lemma FillsAreGreedy(b: Book, t: Ticket, ex: Exchange, lookup: Lookup, es: seq<Lot>)
    requires Indexed(b) && Ranking(b, t, ex, es) && Validates(t)
    requires PricedLevels(b.bids) && PricedLevels(b.asks) && Execute(b, t, ex, lookup).fills != []
    ensures IsGreedy(ex, t, es, t.qty, Execute(b, t, ex, lookup).fills)
  {
    hide Indexed, Ranking, IsGreedy, Execute, SweepBook, Quantity, FilledQty, PricedLevels;
    SweepIsGreedy(b, t, ex, es);
    ExecuteEnds(b, t, ex, lookup);
  }

  // ---------------------------------------------------------------- what every call keeps

  /** Every order of `b` carries the ticket of an order of `a`. */
  ghost predicate SubTickets(b: Book, a: Book) {
    forall m :: Has(b, m) ==> exists n :: Has(a, n) && n.t == m.t
  }

  lemma UncrossedSub(b: Book, a: Book, ex: Exchange)
    requires Uncrossed(a, ex) && SubTickets(b, a)
    ensures Uncrossed(b, ex)
  {
    forall x, y | Has(b, x) && Has(b, y) && x.t.side.BUY? && y.t.side.SELL? && x.t.price.value >= y.t.price.value
      ensures ex.stp && x.t.sub == y.t.sub
    {
      var x0 :| Has(a, x0) && x0.t == x.t;
      var y0 :| Has(a, y0) && y0.t == y.t;
    }
  }

  lemma SweptSub(b: Book, t: Ticket, ex: Exchange)
    requires Indexed(b)
    ensures PricedLevels(b.bids) && PricedLevels(b.asks)
    ensures SubTickets(SweptBook(b, t, ex), b)
  {
    SweptIndexed(b, t, ex);
    forall m | Has(SweptBook(b, t, ex), m)
      ensures exists n :: Has(b, n) && n.t == m.t
    {
      var n :| Has(b, n) && From(m, n);
    }
  }

  /** After a dry sweep, what still rests on the other side is exactly what the taker passed by. */
  lemma DryLeftovers(b: Book, t: Ticket, ex: Exchange, m: Lot)
    requires Indexed(b) && PricedLevels(b.bids) && PricedLevels(b.asks) && SweepBook(b, t, ex).left > 0
    requires m.t.side == t.side.Opposite() && m.t.price.Some?
    ensures Has(SweptBook(b, t, ex), m) <==> Has(b, m) && !Eligible(t, ex, m)
  {
    var levels := b.On(t.side.Opposite());
    var prices := PriorityPrices(t.side, levels.Keys);
    var p := m.t.price.value;
    PrioritySound(t.side, levels.Keys);
    SweepDry(t, ex, levels, prices, t.qty);
    SweepIsWalk(t, ex, levels, prices, t.qty);
    if p in levels {
      MakersMembers(t, ex, levels[p]);
    }
  }

  /** Nothing in the book crosses an order with ticket `t`, self-trade exceptions apart. */
  ghost predicate Clears(b: Book, t: Ticket, ex: Exchange) {
    t.price.Some? &&
    forall m :: Has(b, m) && m.t.side == t.side.Opposite()
                && (if t.side.BUY? then t.price.value >= m.t.price.value else m.t.price.value >= t.price.value)
      ==> ex.stp && m.t.sub == t.sub
  }

  lemma AddUncrossed(b: Book, own: Lot, ex: Exchange)
    requires Uncrossed(b, ex) && Clears(b, own.t, ex)
    ensures Uncrossed(AddLot(b, own), ex)
  {
    var r := AddLot(b, own);
    forall x, y | Has(r, x) && Has(r, y) && x.t.side.BUY? && y.t.side.SELL? && x.t.price.value >= y.t.price.value
      ensures ex.stp && x.t.sub == y.t.sub
    {
      AddHas(b, own, x);
      AddHas(b, own, y);
    }
  }

  lemma FreshSub(b: Book, a: Book, t: Ticket)
    requires SubTickets(b, a) && Fresh(a, t)
    ensures Fresh(b, t)
  {
    forall m | Has(b, m)
      ensures m.t.id != t.id
    {
      var n :| Has(a, n) && n.t == m.t;
    }
  }

  /** An order that crosses the taker but is not eligible is one it may not trade with. */
  lemma OnlyOwn(t: Ticket, ex: Exchange, m: Lot)
    requires t.price.Some? && m.t.price.Some? && m.Remaining() > 0 && !Eligible(t, ex, m)
    requires if t.side.BUY? then t.price.value >= m.t.price.value else m.t.price.value >= t.price.value
    ensures ex.stp && m.t.sub == t.sub
  {
  }

  /** A remainder that goes to rest crosses nothing that is left. */
  lemma DryClears(b: Book, t: Ticket, ex: Exchange)
    requires Indexed(b) && Validates(t) && t.kind != MARKET
    requires PricedLevels(b.bids) && PricedLevels(b.asks) && SweepBook(b, t, ex).left > 0
    ensures Clears(SweptBook(b, t, ex), t, ex)
  {
    var swept := SweptBook(b, t, ex);
    forall m | Has(swept, m) && m.t.side == t.side.Opposite()
               && (if t.side.BUY? then t.price.value >= m.t.price.value else m.t.price.value >= t.price.value)
      ensures ex.stp && m.t.sub == t.sub
    {
      DryPassedBy(b, t, ex, swept, m);
      OnlyOwn(t, ex, m);
    }
  }

  lemma DryPassedBy(b: Book, t: Ticket, ex: Exchange, swept: Book, m: Lot)
    requires Indexed(b) && PricedLevels(b.bids) && PricedLevels(b.asks) && SweepBook(b, t, ex).left > 0
    requires swept == SweptBook(b, t, ex) && Has(swept, m) && m.t.side == t.side.Opposite()
    ensures m.t.price.Some? && m.Remaining() > 0 && !Eligible(t, ex, m)
  {
    DryLeftovers(b, t, ex, m);
    HasLive(b, m);
  }

  lemma RestKeeps(b: Book, t: Ticket, ex: Exchange)
    requires Indexed(b) && Uncrossed(b, ex) && Fresh(b, t) && Validates(t) && t.kind != MARKET
    requires PricedLevels(b.bids) && PricedLevels(b.asks) && 0 < SweepBook(b, t, ex).left <= t.qty
    ensures var r := AddLot(SweptBook(b, t, ex), Lot(t, t.qty - SweepBook(b, t, ex).left, 0));
            Indexed(r) && Uncrossed(r, ex)
  {
    var swept := SweptBook(b, t, ex);
    var own := Lot(t, t.qty - SweepBook(b, t, ex).left, 0);
    SweptIndexed(b, t, ex);
    SweptSub(b, t, ex);
    UncrossedSub(swept, b, ex);
    FreshSub(swept, b, t);
    AddIndexed(swept, own);
    DryClears(b, t, ex);
    AddUncrossed(swept, own, ex);
  }

  lemma HasLive(b: Book, m: Lot)
    requires Indexed(b) && Has(b, m)
    ensures m.Remaining() > 0 && 0 <= m.filled < m.t.qty && Validates(m.t)
  {
    var p := m.t.price.value;
    var q := b.On(m.t.side)[p];
    assert LevelOk(m.t.side, p, q, b.clock);
    var i :| 0 <= i < |q| && q[i] == m;
    assert LotOk(m.t.side, p, q[i], b.clock);
  }

  /** Makers that may be put back: live, distinct, and absent from the book. */
  ghost predicate Returnable(b: Book, makers: seq<Lot>) {
    && Priced(makers)
    && (forall i :: 0 <= i < |makers| ==>
        Fresh(b, makers[i].t) && Validates(makers[i].t) && 0 <= makers[i].filled < makers[i].t.qty)
    && (forall i, j :: 0 <= i < j < |makers| ==> makers[i].t.id != makers[j].t.id)
  }

  lemma ReturnableTail(b: Book, makers: seq<Lot>)
    requires Returnable(b, makers) && makers != []
    ensures Returnable(AddLot(b, makers[0]), makers[1..])
  {
    var next := AddLot(b, makers[0]);
    forall i | 0 <= i < |makers[1..]|
      ensures Fresh(next, makers[1..][i].t)
    {
      forall m | Has(next, m)
        ensures m.t.id != makers[i + 1].t.id
      {
        AddHas(b, makers[0], m);
      }
      assert makers[1..][i] == makers[i + 1];
    }
  }

  lemma {:induction false} AddAllKeeps(b: Book, makers: seq<Lot>, a: Book)
    requires Indexed(b) && Returnable(b, makers) && SubTickets(b, a)
    requires forall m :: m in makers ==> Has(a, m)
    ensures Indexed(AddAll(b, makers)) && SubTickets(AddAll(b, makers), a)
    decreases |makers|
  {
    if makers != [] {
      var next := AddLot(b, makers[0]);
      assert makers[0] in makers;
      AddIndexed(b, makers[0]);
      ReturnableTail(b, makers);
      forall m | Has(next, m)
        ensures exists n :: Has(a, n) && n.t == m.t
      {
        AddHas(b, makers[0], m);
      }
      AddAllKeeps(next, makers[1..], a);
    }
  }

  /** The makers a failed fill-or-kill consumed can be put back. */
  lemma HitsReturnable(b: Book, t: Ticket, ex: Exchange, es: seq<Lot>)
    requires Indexed(b) && Ranking(b, t, ex, es) && PricedLevels(b.bids) && PricedLevels(b.asks)
    requires SweepBook(b, t, ex).left > 0
    ensures Returnable(SweptBook(b, t, ex), es)
  {
    var swept := SweptBook(b, t, ex);
    SweptIndexed(b, t, ex);
    forall i | 0 <= i < |es|
      ensures Has(b, es[i]) && Fresh(swept, es[i].t)
    {
      assert es[i] in es;
      forall m | Has(swept, m)
        ensures m.t.id != es[i].t.id
      {
        var n :| Has(b, n) && From(m, n);
        if m.t.id == es[i].t.id {
          assert n == es[i];
          DryLeftovers(b, t, ex, m);
        }
      }
    }
    forall i | 0 <= i < |es|
      ensures Validates(es[i].t) && 0 <= es[i].filled < es[i].t.qty
    {
      HasLive(b, es[i]);
    }
    forall i, j | 0 <= i < j < |es|
      ensures es[i].t.id != es[j].t.id
    {
      assert Before(t.side, es[i], es[j]);
    }
  }

  lemma RollbackKeeps(b: Book, t: Ticket, ex: Exchange, lookup: Lookup, es: seq<Lot>)
    requires Indexed(b) && Uncrossed(b, ex) && Ranking(b, t, ex, es)
    requires PricedLevels(b.bids) && PricedLevels(b.asks) && SweepBook(b, t, ex).left > 0
    ensures var r := Restored(lookup, SweptBook(b, t, ex), es); Indexed(r) && Uncrossed(r, ex)
  {
    hide Indexed, Uncrossed, SweepBook, SweptBook, AddLot, Has, SubTickets, Returnable;
    var swept := SweptBook(b, t, ex);
    SweptIndexed(b, t, ex);
    SweptSub(b, t, ex);
    HitsReturnable(b, t, ex, es);
    AddAllKeeps(swept, es, b);
    if es != [] {
      assert es[0] in es;
      HitsFirst(swept, es);
      AddAllKeeps(swept, es[..1], b);
      assert AddAll(swept, es[..1]) == AddLot(swept, es[0]);
    }
    var r := Restored(lookup, swept, es);
    assert SubTickets(r, b);
    UncrossedSub(r, b, ex);
  }

  lemma HitsFirst(b: Book, makers: seq<Lot>)
    requires Returnable(b, makers) && makers != []
    ensures Returnable(b, makers[..1])
  {
  }

  lemma SweptKeeps(b: Book, t: Ticket, ex: Exchange)
    requires Indexed(b) && Uncrossed(b, ex)
    ensures PricedLevels(b.bids) && PricedLevels(b.asks)
    ensures Indexed(SweptBook(b, t, ex)) && Uncrossed(SweptBook(b, t, ex), ex)
  {
    SweptIndexed(b, t, ex);
    SweptSub(b, t, ex);
    UncrossedSub(SweptBook(b, t, ex), b, ex);
  }

  /** Which book a call leaves, by how it ends. */
  lemma ExecuteBook(b: Book, t: Ticket, ex: Exchange, lookup: Lookup, es: seq<Lot>)
    requires Indexed(b) && Ranking(b, t, ex, es) && PricedLevels(b.bids) && PricedLevels(b.asks) && Validates(t)
    ensures var s := SweepBook(b, t, ex); var swept := SweptBook(b, t, ex);
            Execute(b, t, ex, lookup).book ==
            if s.left > 0 && t.tif == FOK then Restored(lookup, swept, es)
            else if s.left > 0 && t.tif != IOC && t.kind != MARKET then AddLot(swept, Lot(t, t.qty - s.left, 0))
            else swept
    ensures SweepBook(b, t, ex).left <= t.qty
  {
    SweepIsGreedy(b, t, ex, es);
    QuantityNonNegative(es);
  }

  /** Every call, whatever the order, its lifetime and the lookup, keeps a well-indexed, uncrossed book. */
  lemma ExecuteKeeps(b: Book, t: Ticket, ex: Exchange, lookup: Lookup)
    requires Indexed(b) && Uncrossed(b, ex) && Fresh(b, t)
    ensures PricedLevels(b.bids) && PricedLevels(b.asks)
    ensures Indexed(Execute(b, t, ex, lookup).book) && Uncrossed(Execute(b, t, ex, lookup).book, ex)
  {
    IndexedPriced(b);
    if Validates(t) {
      AgainstRanks(b, t, ex);
      var es := Makers(t, ex, Against(b, t));
      ExecuteBook(b, t, ex, lookup, es);
      SweptKeeps(b, t, ex);
      if SweepBook(b, t, ex).left > 0 {
        if t.tif == FOK {
          RollbackKeeps(b, t, ex, lookup, es);
        } else if t.tif != IOC && t.kind != MARKET {
          RestKeeps(b, t, ex);
        }
      }
    }
  }
}
