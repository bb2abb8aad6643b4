/** Quantity is conserved over every run: nothing is filled twice, lost, or bought from no one. */
module Conservation {
  import opened Wrappers
  import opened Orders
  import opened PriceTime
  import opened GreedyLaws
  import opened BookLaws
  import opened MatchLaws
  import opened FillOrKill
  import opened Runs

  // ---------------------------------------------------------------- one call, order by order

  /** In book `b` the live order `n` has been filled by `got` more, and has left only if that was all. */
  ghost predicate Moved(b: Book, n: Lot, got: int) {
    && 0 <= got <= n.Remaining()
    && (got < n.Remaining() ==> exists x :: Has(b, x) && x.t == n.t)
    && (forall x :: Has(b, x) && x.t.id == n.t.id ==> x.t == n.t && x.filled == n.filled + got && got < n.Remaining())
  }

  lemma AgainstDistinct(b: Book, t: Ticket, ex: Exchange)
    requires Indexed(b)
    ensures DistinctLots(Against(b, t))
    ensures forall m :: m in Against(b, t) <==> Has(b, m) && m.t.side == t.side.Opposite()
  {
    var side := t.side.Opposite();
    var levels := b.On(side);
    var prices := PriorityPrices(t.side, levels.Keys);
    var q := Against(b, t);
    QueueRanked(t.side, levels, prices, side, b.clock);
    forall m
      ensures m in q <==> Has(b, m) && m.t.side == side
    {
      QueueMembers(levels, prices, m);
      if p :| p in prices && m in LevelAt(levels, p) {
        HasOn(b, side, p, m);
      }
    }
    forall i | 0 <= i < |q|
      ensures Has(b, q[i]) && 0 <= q[i].filled < q[i].t.qty
    {
      assert q[i] in q;
      HasLive(b, q[i]);
    }
    forall i, j | 0 <= i < j < |q|
      ensures q[i].t.id != q[j].t.id
    {
      assert Before(t.side, q[i], q[j]);
    }
  }

  lemma SweptHas(b: Book, t: Ticket, ex: Exchange, m: Lot)
    requires Indexed(b) && PricedLevels(b.bids) && PricedLevels(b.asks)
    ensures Priced(Against(b, t))
    ensures m.t.side == t.side.Opposite() ==>
              (Has(SweptBook(b, t, ex), m) <==> m in Walk(t, ex, Against(b, t), t.qty).rest)
  {
    var side := t.side.Opposite();
    var levels := b.On(side);
    var prices := PriorityPrices(t.side, levels.Keys);
    PrioritySound(t.side, levels.Keys);
    SweepIsWalk(t, ex, levels, prices, t.qty);
    var s := SweepBook(b, t, ex);
    QueueMembers(s.levels, prices, m);
    SweptIndexed(b, t, ex);
    if m.t.side == side {
      if p :| p in prices && m in LevelAt(s.levels, p) {
        HasOn(SweptBook(b, t, ex), side, p, m);
      }
      if Has(SweptBook(b, t, ex), m) {
        assert m.t.price.value in prices <==> m.t.price.value in levels;
      }
    }
  }

  lemma SweepFills(b: Book, t: Ticket, ex: Exchange)
    requires Indexed(b) && PricedLevels(b.bids) && PricedLevels(b.asks)
    ensures Priced(Against(b, t))
    ensures SweepBook(b, t, ex).fills == Walk(t, ex, Against(b, t), t.qty).fills
  {
    var levels := b.On(t.side.Opposite());
    PrioritySound(t.side, levels.Keys);
    SweepIsWalk(t, ex, levels, PriorityPrices(t.side, levels.Keys), t.qty);
  }

  lemma MovedByWalk(swept: Book, n: Lot, w: Swept)
    requires Accounted(n, w) && 0 <= n.filled < n.t.qty
    requires forall y :: Has(swept, y) && y.t.id == n.t.id ==> y in w.rest
    requires forall y :: y in w.rest && y.t == n.t ==> Has(swept, y)
    ensures Moved(swept, n, MakerQty(w.fills, n.t.id))
  {
  }

  /** A maker on the side the taker hits. */
  lemma HitSideMoves(b: Book, t: Ticket, ex: Exchange, n: Lot, swept: Book, w: Swept)
    requires Indexed(b) && PricedLevels(b.bids) && PricedLevels(b.asks) && Priced(Against(b, t))
    requires Has(b, n) && n.t.side == t.side.Opposite()
    requires swept == SweptBook(b, t, ex) && w == Walk(t, ex, Against(b, t), t.qty)
    ensures Moved(swept, n, MakerQty(w.fills, n.t.id))
  {
    AgainstDistinct(b, t, ex);
    HasLive(b, n);
    WalkAccounts(t, ex, Against(b, t), t.qty, n);
    SweptIndexed(b, t, ex);
    forall y | Has(swept, y) && y.t.id == n.t.id
      ensures y in w.rest
    {
      var y0 :| Has(b, y0) && From(y, y0);
      SweptHas(b, t, ex, y);
    }
    forall y | y in w.rest && y.t == n.t
      ensures Has(swept, y)
    {
      SweptHas(b, t, ex, y);
    }
    MovedByWalk(swept, n, w);
  }

  /** An order on the taker's own side. */
  lemma OwnSideMoves(b: Book, t: Ticket, ex: Exchange, n: Lot, swept: Book, w: Swept)
    requires Indexed(b) && PricedLevels(b.bids) && PricedLevels(b.asks) && Priced(Against(b, t))
    requires Has(b, n) && n.t.side == t.side
    requires swept == SweptBook(b, t, ex) && w == Walk(t, ex, Against(b, t), t.qty)
    ensures Moved(swept, n, MakerQty(w.fills, n.t.id))
  {
    AgainstDistinct(b, t, ex);
    HasLive(b, n);
    WalkNames(t, ex, Against(b, t), t.qty);
    forall f | f in w.fills
      ensures f.maker != n.t.id
    {
      var y :| y in Against(b, t) && y.t.id == f.maker;
    }
    NoMaker(w.fills, n.t.id);
    SweptIndexed(b, t, ex);
    assert Has(swept, n);
    forall y | Has(swept, y) && y.t.id == n.t.id
      ensures y == n
    {
      var y0 :| Has(b, y0) && From(y, y0);
    }
  }

  lemma SweptMoves(b: Book, t: Ticket, ex: Exchange, n: Lot)
    requires Indexed(b) && PricedLevels(b.bids) && PricedLevels(b.asks) && Has(b, n)
    ensures Moved(SweptBook(b, t, ex), n, MakerQty(SweepBook(b, t, ex).fills, n.t.id))
  {
    SweepFills(b, t, ex);
    if n.t.side == t.side {
      OwnSideMoves(b, t, ex, n, SweptBook(b, t, ex), Walk(t, ex, Against(b, t), t.qty));
    } else {
      HitSideMoves(b, t, ex, n, SweptBook(b, t, ex), Walk(t, ex, Against(b, t), t.qty));
    }
  }

  /** Adding another order moves nobody. */
  lemma AddMoves(b: Book, own: Lot, n: Lot, got: int)
    requires Moved(b, n, got) && own.t.price.Some? && own.t.id != n.t.id
    ensures Moved(AddLot(b, own), n, got)
  {
    forall x
      ensures Has(AddLot(b, own), x) <==> Has(b, x) || x == own.(arrival := b.clock + 1)
    {
      AddHas(b, own, x);
    }
    if got < n.Remaining() {
      var x :| Has(b, x) && x.t == n.t;
      assert Has(AddLot(b, own), x);
    }
  }

  /** A completed kill moves nobody. */
  lemma KillMoves(b: Book, t: Ticket, ex: Exchange, es: seq<Lot>, n: Lot)
    requires Indexed(b) && Ranking(b, t, ex, es) && PricedLevels(b.bids) && PricedLevels(b.asks)
    requires SweepBook(b, t, ex).left > 0 && Has(b, n)
    ensures Moved(AddAll(SweptBook(b, t, ex), es), n, 0)
  {
    var swept := SweptBook(b, t, ex);
    HasLive(b, n);
    AddAllHas(swept, es, n);
    if n !in es {
      Survives(b, t, ex, n);
    }
    forall x | Has(AddAll(swept, es), x) && x.t.id == n.t.id
      ensures x.t == n.t && x.filled == n.filled
    {
      AddAllHas(swept, es, x);
      if Has(swept, x) {
        SweptFrom(b, t, ex, x);
      } else {
        var y :| y in es && y.t == x.t && y.filled == x.filled;
      }
    }
  }

  /** After a dry sweep whoever is still there has not traded. */
  lemma SweptFrom(b: Book, t: Ticket, ex: Exchange, x: Lot)
    requires Indexed(b) && PricedLevels(b.bids) && PricedLevels(b.asks) && SweepBook(b, t, ex).left > 0
    requires Has(SweptBook(b, t, ex), x)
    ensures Has(b, x)
  {
    if x.t.side == t.side.Opposite() {
      DryLeftovers(b, t, ex, x);
    }
  }

  /** How a call that does not raise ends: killed, rested, or done with. */
  ghost predicate Shaped(b: Book, t: Ticket, ex: Exchange, es: seq<Lot>, o: Outcome)
    requires PricedLevels(b.bids) && PricedLevels(b.asks) && Priced(es)
  {
    var s, swept := SweepBook(b, t, ex), SweptBook(b, t, ex);
    && 0 <= s.left <= t.qty
    && (if s.left > 0 && t.tif == FOK then
          o.fills == [] && o.takerFilled == 0 && !o.rested && o.book == AddAll(swept, es)
        else
          && o.fills == s.fills && o.takerFilled == t.qty - s.left == FilledQty(s.fills)
          && (o.rested <==> s.left > 0 && t.tif != IOC && t.kind != MARKET)
          && (o.rested ==> t.price.Some?)
          && o.book == if o.rested then AddLot(swept, Lot(t, t.qty - s.left, 0)) else swept)
  }

  lemma CallShape(b: Book, t: Ticket, ex: Exchange, lookup: Lookup, es: seq<Lot>, o: Outcome)
    requires Indexed(b) && Ranking(b, t, ex, es) && Validates(t)
    requires PricedLevels(b.bids) && PricedLevels(b.asks)
    requires o == Execute(b, t, ex, lookup) && o.err != AttributeError
    ensures Shaped(b, t, ex, es, o)
  {
    hide Indexed, Ranking, IsGreedy, SweepBook, AddAll, AddLot, Quantity, FilledQty;
    SweepIsGreedy(b, t, ex, es);
    QuantityNonNegative(es);
  }

  lemma ShapedMoves(b: Book, t: Ticket, ex: Exchange, es: seq<Lot>, n: Lot, o: Outcome)
    requires Indexed(b) && PricedLevels(b.bids) && PricedLevels(b.asks) && Fresh(b, t) && Has(b, n)
    requires Ranking(b, t, ex, es) && Priced(es) && Shaped(b, t, ex, es, o)
    ensures Moved(o.book, n, MakerQty(o.fills, n.t.id))
  {
    if SweepBook(b, t, ex).left > 0 && t.tif == FOK {
      KilledMoves(b, t, ex, es, n, o);
    } else if o.rested {
      RestedMoves(b, t, ex, es, n, o);
    } else {
      DoneMoves(b, t, ex, es, n, o);
    }
  }

  lemma KilledMoves(b: Book, t: Ticket, ex: Exchange, es: seq<Lot>, n: Lot, o: Outcome)
    requires Indexed(b) && PricedLevels(b.bids) && PricedLevels(b.asks) && Has(b, n)
    requires Ranking(b, t, ex, es) && Priced(es) && Shaped(b, t, ex, es, o)
    requires SweepBook(b, t, ex).left > 0 && t.tif == FOK
    ensures Moved(o.book, n, MakerQty(o.fills, n.t.id))
  {
    hide Indexed, Ranking, SweepBook, SweptBook, AddAll, AddLot, Has, Moved, PricedLevels, Priced;
    KillMoves(b, t, ex, es, n);
  }

  lemma RestedMoves(b: Book, t: Ticket, ex: Exchange, es: seq<Lot>, n: Lot, o: Outcome)
    requires Indexed(b) && PricedLevels(b.bids) && PricedLevels(b.asks) && Fresh(b, t) && Has(b, n)
    requires Priced(es) && Shaped(b, t, ex, es, o) && o.rested
    ensures Moved(o.book, n, MakerQty(o.fills, n.t.id))
  {
    hide Indexed, SweepBook, SweptBook, AddAll, AddLot, Moved, PricedLevels, Priced;
    var s, swept := SweepBook(b, t, ex), SweptBook(b, t, ex);
    SweptMoves(b, t, ex, n);
    AddMoves(swept, Lot(t, t.qty - s.left, 0), n, MakerQty(s.fills, n.t.id));
  }

  lemma DoneMoves(b: Book, t: Ticket, ex: Exchange, es: seq<Lot>, n: Lot, o: Outcome)
    requires Indexed(b) && PricedLevels(b.bids) && PricedLevels(b.asks) && Has(b, n)
    requires Priced(es) && Shaped(b, t, ex, es, o) && !(SweepBook(b, t, ex).left > 0 && t.tif == FOK) && !o.rested
    ensures Moved(o.book, n, MakerQty(o.fills, n.t.id))
  {
    hide Indexed, SweepBook, SweptBook, AddAll, AddLot, Has, Moved, PricedLevels, Priced;
    SweptMoves(b, t, ex, n);
  }

  /** One call that does not raise from its rollback: each live order is filled by exactly what the
      returned fills give it. */
  lemma CallAccounts(b: Book, t: Ticket, ex: Exchange, lookup: Lookup, n: Lot, o: Outcome)
    requires Indexed(b) && PricedLevels(b.bids) && PricedLevels(b.asks) && Fresh(b, t) && Has(b, n)
    requires o == Execute(b, t, ex, lookup) && o.err != AttributeError
    ensures Moved(o.book, n, MakerQty(o.fills, n.t.id))
  {
    if Validates(t) {
      AgainstRanks(b, t, ex);
      var es := Makers(t, ex, Against(b, t));
      CallShape(b, t, ex, lookup, es, o);
      assert Priced(es);
      ShapedMoves(b, t, ex, es, n, o);
    } else {
      RejectedMoves(b, t, ex, lookup, n, o);
    }
  }

  lemma RejectedMoves(b: Book, t: Ticket, ex: Exchange, lookup: Lookup, n: Lot, o: Outcome)
    requires Indexed(b) && PricedLevels(b.bids) && PricedLevels(b.asks) && Has(b, n) && !Validates(t)
    requires o == Execute(b, t, ex, lookup)
    ensures Moved(o.book, n, MakerQty(o.fills, n.t.id))
  {
    HasLive(b, n);
  }

  /** The taker's own account after the call. */
  ghost predicate TakerDone(b: Book, t: Ticket, o: Outcome) {
    && o.takerFilled == FilledQty(o.fills)
    && (Validates(t) ==> 0 <= o.takerFilled <= t.qty)
    && (!Validates(t) ==> o.fills == [])
    && (forall m :: Has(o.book, m) && m.t.id == t.id ==> o.rested && m.t == t && m.filled == o.takerFilled)
    && (o.rested ==> Validates(t) && exists m :: Has(o.book, m) && m.t == t)
  }

  lemma TakerAccounts(b: Book, t: Ticket, ex: Exchange, lookup: Lookup, o: Outcome)
    requires Indexed(b) && PricedLevels(b.bids) && PricedLevels(b.asks) && Fresh(b, t)
    requires o == Execute(b, t, ex, lookup) && o.err != AttributeError
    ensures TakerDone(b, t, o)
  {
    if Validates(t) {
      AgainstRanks(b, t, ex);
      var es := Makers(t, ex, Against(b, t));
      CallShape(b, t, ex, lookup, es, o);
      ShapedTaker(b, t, ex, es, o);
    }
  }

  /** An order in the book after the call is the taker's own, parked, exactly if it has the taker's id. */
  lemma ShapedHas(b: Book, t: Ticket, ex: Exchange, es: seq<Lot>, o: Outcome, m: Lot)
    requires Indexed(b) && PricedLevels(b.bids) && PricedLevels(b.asks) && Fresh(b, t)
    requires Ranking(b, t, ex, es) && Shaped(b, t, ex, es, o) && Has(o.book, m) && m.t.id == t.id
    ensures o.rested && m == Lot(t, t.qty - SweepBook(b, t, ex).left, SweptBook(b, t, ex).clock + 1)
  {
    assert Priced(es);
    var s, swept := SweepBook(b, t, ex), SweptBook(b, t, ex);
    var own := Lot(t, t.qty - s.left, 0);
    SweptSub(b, t, ex);
    FreshSub(swept, b, t);
    RankedFresh(b, t, ex, es);
    assert !Has(swept, m);
    hide Indexed, Ranking, SweepBook, SweptBook, AddAll, AddLot, Has, PricedLevels, SubTickets;
    if s.left > 0 && t.tif == FOK {
      AddAllHas(swept, es, m);
      assert false;
    } else if o.rested {
      AddHas(swept, own, m);
    }
  }

  lemma RankedFresh(b: Book, t: Ticket, ex: Exchange, es: seq<Lot>)
    requires Fresh(b, t) && Ranking(b, t, ex, es)
    ensures forall n :: n in es ==> n.t.id != t.id
  {
    forall n | n in es
      ensures n.t.id != t.id
    {
      assert Has(b, n);
    }
  }

  lemma ShapedTaker(b: Book, t: Ticket, ex: Exchange, es: seq<Lot>, o: Outcome)
    requires Indexed(b) && PricedLevels(b.bids) && PricedLevels(b.asks) && Fresh(b, t) && Validates(t)
    requires Ranking(b, t, ex, es) && Shaped(b, t, ex, es, o)
    ensures TakerDone(b, t, o)
  {
    assert Priced(es);
    var s, swept := SweepBook(b, t, ex), SweptBook(b, t, ex);
    var own := Lot(t, t.qty - s.left, 0);
    ShapedFilled(b, t, ex, es, o);
    if o.rested {
      RestedIn(b, t, ex, es, o);
    }
    hide Indexed, Ranking, SweepBook, SweptBook, Shaped, Has, PricedLevels, Priced, FilledQty, Fresh;
    forall m | Has(o.book, m) && m.t.id == t.id
      ensures o.rested && m == own.(arrival := swept.clock + 1)
    {
      ShapedHas(b, t, ex, es, o, m);
    }
  }

  lemma ShapedFilled(b: Book, t: Ticket, ex: Exchange, es: seq<Lot>, o: Outcome)
    requires PricedLevels(b.bids) && PricedLevels(b.asks) && Priced(es) && Shaped(b, t, ex, es, o)
    ensures o.takerFilled == FilledQty(o.fills) && 0 <= o.takerFilled <= t.qty
    ensures o.rested ==> o.takerFilled == t.qty - SweepBook(b, t, ex).left
  {
    hide SweepBook, SweptBook, AddAll, AddLot, PricedLevels, Priced;
  }

  lemma RestedIn(b: Book, t: Ticket, ex: Exchange, es: seq<Lot>, o: Outcome)
    requires PricedLevels(b.bids) && PricedLevels(b.asks) && Priced(es) && Shaped(b, t, ex, es, o) && o.rested
    ensures exists m :: Has(o.book, m) && m.t == t
  {
    hide SweepBook, SweptBook, AddAll, AddLot, PricedLevels, Priced, Has;
    var swept := SweptBook(b, t, ex);
    var own := Lot(t, t.qty - SweepBook(b, t, ex).left, 0);
    AddHas(swept, own, own.(arrival := swept.clock + 1));
  }

  // ---------------------------------------------------------------- the whole run

  /** Every fill pairs a submitted buyer with a submitted seller. */
  ghost predicate Paired(orders: seq<Ticket>, f: Fill) {
    f.qty > 0 && exists i, j :: 0 <= i < |orders| && 0 <= j < |orders|
                                && orders[i].id == f.taker && orders[j].id == f.maker
                                && orders[i].side == f.side && orders[j].side == f.side.Opposite()
  }

  /** The account of one submitted order: what it traded, plus what rests or was dropped, is its quantity. */
  ghost predicate Account(v: Venue, t: Ticket) {
    var traded := Traded(v.tape, t.id);
    && t.id in v.dropped
    && (Validates(t) ==> 0 <= traded <= t.qty && v.dropped[t.id] >= 0)
    && (!Validates(t) ==> traded == 0)
    && (forall m :: Has(v.book, m) && m.t.id == t.id ==>
          m.t == t && m.filled == traded && traded + m.Remaining() + v.dropped[t.id] == t.qty)
    && ((forall m :: Has(v.book, m) ==> m.t.id != t.id) ==> traded + v.dropped[t.id] == t.qty)
  }

  ghost predicate Conserved(v: Venue) {
    && (forall f :: f in v.tape ==> Paired(v.orders, f))
    && (forall t :: t in v.orders ==> Account(v, t))
  }

  lemma OneFillPaired(v: Venue, t: Ticket, ex: Exchange, lookup: Lookup, o: Outcome, k: nat)
    requires Safe(v, ex) && DistinctIds(v.orders + [t])
    requires o == Execute(v.book, t, ex, lookup) && k < |o.fills|
    ensures o.fills[k].taker == t.id && Paired(v.orders + [t], o.fills[k])
    ensures exists n :: Has(v.book, n) && n.t.id == o.fills[k].maker
  {
    hide Execute, Indexed, Uncrossed, PricedLevels, Eligible;
    SomeFillIsAccepted(v.book, t, ex, lookup, o);
    FillsRespectLimits(v.book, t, ex, lookup, k);
    var f := o.fills[k];
    var n :| Has(v.book, n) && n.t.id == f.maker && n.t.side != t.side;
    var j :| 0 <= j < |v.orders| && v.orders[j] == n.t;
    assert (v.orders + [t])[j] == n.t && (v.orders + [t])[|v.orders|] == t;
  }

  lemma SomeFillIsAccepted(b: Book, t: Ticket, ex: Exchange, lookup: Lookup, o: Outcome)
    requires PricedLevels(b.bids) && PricedLevels(b.asks) && o == Execute(b, t, ex, lookup) && o.fills != []
    ensures Validates(t)
  {
    hide SweepBook, PricedLevels;
  }

  lemma FillsPaired(v: Venue, t: Ticket, ex: Exchange, lookup: Lookup, o: Outcome)
    requires Safe(v, ex) && DistinctIds(v.orders + [t])
    requires o == Execute(v.book, t, ex, lookup)
    ensures forall f :: f in o.fills ==>
              f.taker == t.id && Paired(v.orders + [t], f) && exists n :: Has(v.book, n) && n.t.id == f.maker
  {
    hide Execute, Safe, Has, Paired, DistinctIds;
    forall f | f in o.fills
      ensures f.taker == t.id && Paired(v.orders + [t], f) && exists n :: Has(v.book, n) && n.t.id == f.maker
    {
      var k :| 0 <= k < |o.fills| && o.fills[k] == f;
      OneFillPaired(v, t, ex, lookup, o, k);
    }
  }

  lemma PairedMore(orders: seq<Ticket>, t: Ticket, f: Fill)
    requires Paired(orders, f)
    ensures Paired(orders + [t], f)
  {
    var i, j :| 0 <= i < |orders| && 0 <= j < |orders| && orders[i].id == f.taker && orders[j].id == f.maker
                && orders[i].side == f.side && orders[j].side == f.side.Opposite();
    assert (orders + [t])[i] == orders[i] && (orders + [t])[j] == orders[j];
  }

  lemma {:induction false} NoTaker(fills: seq<Fill>, id: string)
    requires forall f :: f in fills ==> f.taker != id
    ensures TakerQty(fills, id) == 0
  {
    if fills != [] {
      assert fills[0] in fills;
      NoTaker(fills[1..], id);
    }
  }

  /** An order that was there before the call keeps its account. */
  lemma OldAccount(v: Venue, t: Ticket, ex: Exchange, lookup: Lookup, o: Outcome, u: Ticket)
    requires Safe(v, ex) && DistinctIds(v.orders + [t]) && u in v.orders && Account(v, u)
    requires o == Execute(v.book, t, ex, lookup) && o.err != AttributeError
    ensures Account(Step(v, t, ex, lookup), u)
  {
    var w := Step(v, t, ex, lookup);
    DifferentId(v.orders, t, u);
    FillsPaired(v, t, ex, lookup, o);
    FreshInRun(v, t, ex);
    QtyConcat(v.tape, o.fills, u.id);
    NoTaker(o.fills, u.id);
    if n :| Has(v.book, n) && n.t.id == u.id {
      CallAccounts(v.book, t, ex, lookup, n, o);
      HasLive(v.book, n);
      MovedAccount(v, w, n, MakerQty(o.fills, u.id));
    } else {
      forall f | f in o.fills
        ensures f.maker != u.id
      {
        var n :| Has(v.book, n) && n.t.id == f.maker;
      }
      NoMaker(o.fills, u.id);
      forall m | Has(w.book, m)
        ensures m.t.id != u.id
      {
        ExecuteTickets(v.book, t, ex, lookup, m);
      }
    }
  }

  lemma MovedAccount(v: Venue, w: Venue, n: Lot, got: int)
    requires Has(v.book, n) && Account(v, n.t) && Validates(n.t) && 0 <= n.filled < n.t.qty
    requires Moved(w.book, n, got) && Traded(w.tape, n.t.id) == Traded(v.tape, n.t.id) + got
    requires n.t.id in w.dropped && w.dropped[n.t.id] == v.dropped[n.t.id]
    ensures Account(w, n.t)
  {
  }

  lemma DifferentId(orders: seq<Ticket>, t: Ticket, u: Ticket)
    requires DistinctIds(orders + [t]) && u in orders
    ensures u.id != t.id
  {
    var i :| 0 <= i < |orders| && orders[i] == u;
    assert (orders + [t])[i] == u && (orders + [t])[|orders|] == t;
  }

  /** The submitted order opens its account. */
  lemma NewAccount(v: Venue, t: Ticket, ex: Exchange, lookup: Lookup, o: Outcome)
    requires Safe(v, ex) && Conserved(v) && DistinctIds(v.orders + [t])
    requires o == Execute(v.book, t, ex, lookup) && o.err != AttributeError
    ensures Account(Step(v, t, ex, lookup), t)
  {
    FreshInRun(v, t, ex);
    FillsPaired(v, t, ex, lookup, o);
    TakerAccounts(v.book, t, ex, lookup, o);
    TakerQtyAll(o.fills, t.id, t.id);
    QtyConcat(v.tape, o.fills, t.id);
    forall f | f in v.tape
      ensures f.taker != t.id && f.maker != t.id
    {
      NotNamed(v.orders, t, f);
    }
    NoTaker(v.tape, t.id);
    NoMaker(v.tape, t.id);
    forall f | f in o.fills
      ensures f.maker != t.id
    {
      var n :| Has(v.book, n) && n.t.id == f.maker;
    }
    NoMaker(o.fills, t.id);
    OpenedAccount(v, t, o, Step(v, t, ex, lookup));
  }

  lemma OpenedAccount(v: Venue, t: Ticket, o: Outcome, w: Venue)
    requires TakerDone(v.book, t, o) && w.book == o.book
    requires Traded(w.tape, t.id) == FilledQty(o.fills)
    requires t.id in w.dropped && w.dropped[t.id] == (if o.rested then 0 else t.qty - o.takerFilled)
    ensures Account(w, t)
  {
  }

  lemma NotNamed(orders: seq<Ticket>, t: Ticket, f: Fill)
    requires DistinctIds(orders + [t]) && Paired(orders, f)
    ensures f.taker != t.id && f.maker != t.id
  {
    var i, j :| 0 <= i < |orders| && 0 <= j < |orders| && orders[i].id == f.taker && orders[j].id == f.maker
                && orders[i].side == f.side && orders[j].side == f.side.Opposite();
    DifferentId(orders, t, orders[i]);
    DifferentId(orders, t, orders[j]);
  }

  lemma StepConserves(v: Venue, t: Ticket, ex: Exchange, lookup: Lookup)
    requires Safe(v, ex) && Conserved(v) && DistinctIds(v.orders + [t])
    requires Execute(v.book, t, ex, lookup).err != AttributeError
    ensures Conserved(Step(v, t, ex, lookup))
  {
    var o, w := Execute(v.book, t, ex, lookup), Step(v, t, ex, lookup);
    FillsPaired(v, t, ex, lookup, o);
    forall f | f in w.tape
      ensures Paired(w.orders, f)
    {
      if f in v.tape {
        PairedMore(v.orders, t, f);
      }
    }
    forall u | u in w.orders
      ensures Account(w, u)
    {
      if u in v.orders {
        OldAccount(v, t, ex, lookup, o, u);
      } else {
        NewAccount(v, t, ex, lookup, o);
      }
    }
  }

  /** No call of the run met a book its rollback breaks on. */
  ghost predicate NoBreak(orders: seq<Ticket>, ex: Exchange, lookup: Lookup)
    requires DistinctIds(orders)
  {
    forall n :: 0 <= n < |orders| ==> !BreaksAt(orders, ex, lookup, n)
  }

  ghost predicate BreaksAt(orders: seq<Ticket>, ex: Exchange, lookup: Lookup, n: nat)
    requires DistinctIds(orders) && n < |orders|
  {
    WillBreak(After(orders[..n], ex, lookup).book, orders[n], ex, lookup)
  }

  /** With the intended lookup none can. */
  lemma IntendedNeverBreaks(orders: seq<Ticket>, ex: Exchange)
    requires DistinctIds(orders)
    ensures NoBreak(orders, ex, OverOrders)
    ensures forall n :: 0 <= n < |orders| ==>
              Execute(After(orders[..n], ex, OverOrders).book, orders[n], ex, OverOrders).err != AttributeError
  {
    hide Execute, WillBreak;
    forall n | 0 <= n < |orders|
      ensures !BreaksAt(orders, ex, OverOrders, n)
      ensures Execute(After(orders[..n], ex, OverOrders).book, orders[n], ex, OverOrders).err != AttributeError
    {
      NeverOverOrders(After(orders[..n], ex, OverOrders).book, orders[n], ex);
    }
  }

  lemma NeverOverOrders(b: Book, t: Ticket, ex: Exchange)
    requires Indexed(b)
    ensures PricedLevels(b.bids) && PricedLevels(b.asks)
    ensures !WillBreak(b, t, ex, OverOrders) && Execute(b, t, ex, OverOrders).err != AttributeError
  {
    RaisesIff(b, t, ex, OverOrders);
  }

  lemma NoBreakPrefix(orders: seq<Ticket>, n: nat, ex: Exchange, lookup: Lookup)
    requires DistinctIds(orders) && NoBreak(orders, ex, lookup) && n <= |orders|
    ensures NoBreak(orders[..n], ex, lookup)
  {
    hide WillBreak, Step, Safe;
    forall k | 0 <= k < n
      ensures !BreaksAt(orders[..n], ex, lookup, k)
    {
      assert orders[..n][..k] == orders[..k];
      assert !BreaksAt(orders, ex, lookup, k);
    }
  }

  lemma AfterStep(orders: seq<Ticket>, n: nat, ex: Exchange, lookup: Lookup)
    requires DistinctIds(orders) && |orders| == n + 1
    ensures Safe(After(orders[..n], ex, lookup), ex)
    ensures After(orders[..n], ex, lookup).orders + [orders[n]] == orders
    ensures After(orders, ex, lookup) == Step(After(orders[..n], ex, lookup), orders[n], ex, lookup)
  {
    assert orders[..n] + [orders[n]] == orders;
  }

  /** Every order's quantity is what it traded, what still rests and what was cancelled, in every run. */
  lemma {:induction false} RunConserves(orders: seq<Ticket>, ex: Exchange, lookup: Lookup)
    requires DistinctIds(orders) && NoBreak(orders, ex, lookup)
    ensures Conserved(After(orders, ex, lookup))
    decreases |orders|
  {
    if orders != [] {
      var n := |orders| - 1;
      NoBreakPrefix(orders, n, ex, lookup);
      RunConserves(orders[..n], ex, lookup);
      AfterStep(orders, n, ex, lookup);
      assert !BreaksAt(orders, ex, lookup, n);
      RaisesIff(After(orders[..n], ex, lookup).book, orders[n], ex, lookup);
      StepConserves(After(orders[..n], ex, lookup), orders[n], ex, lookup);
    }
  }

  // ---------------------------------------------------------------- what a broken rollback loses

  /** An order whose account will never close: gone from the book, short of its quantity. */
  ghost predicate Lost(v: Venue, u: Ticket) {
    u in v.orders && u.id in v.dropped && (forall m :: Has(v.book, m) ==> m.t.id != u.id)
    && Traded(v.tape, u.id) + v.dropped[u.id] != u.qty
  }

  lemma LostStays(v: Venue, t: Ticket, ex: Exchange, lookup: Lookup, u: Ticket)
    requires Safe(v, ex) && DistinctIds(v.orders + [t]) && Lost(v, u)
    ensures Lost(Step(v, t, ex, lookup), u)
  {
    var o, w := Execute(v.book, t, ex, lookup), Step(v, t, ex, lookup);
    DifferentId(v.orders, t, u);
    FillsPaired(v, t, ex, lookup, o);
    QtyConcat(v.tape, o.fills, u.id);
    NoTaker(o.fills, u.id);
    forall f | f in o.fills
      ensures f.maker != u.id
    {
      var n :| Has(v.book, n) && n.t.id == f.maker;
    }
    NoMaker(o.fills, u.id);
    forall m | Has(w.book, m)
      ensures m.t.id != u.id
    {
      ExecuteTickets(v.book, t, ex, lookup, m);
    }
  }

  /** A call that raises from its rollback: a fill-or-kill that reports nothing and leaves the book where
      the rollback broke off. */
  lemma BreakIs(b: Book, t: Ticket, ex: Exchange, lookup: Lookup, es: seq<Lot>, o: Outcome)
    requires Indexed(b) && Ranking(b, t, ex, es) && PricedLevels(b.bids) && PricedLevels(b.asks)
    requires o == Execute(b, t, ex, lookup) && o.err == AttributeError
    ensures SweepBook(b, t, ex).left > 0 && o.fills == [] && !o.rested
    ensures !RollbackEnds(lookup, SweptBook(b, t, ex), es) && o.book == Restored(lookup, SweptBook(b, t, ex), es)
  {
    hide Indexed, Ranking, IsGreedy, SweepBook, AddAll, AddLot, Quantity, FilledQty;
    SweepIsGreedy(b, t, ex, es);
  }

  /** It loses a maker. */
  lemma BreakDrops(b: Book, t: Ticket, ex: Exchange, lookup: Lookup, es: seq<Lot>, o: Outcome) returns (n: Lot)
    requires Indexed(b) && Ranking(b, t, ex, es) && PricedLevels(b.bids) && PricedLevels(b.asks)
    requires o == Execute(b, t, ex, lookup) && o.err == AttributeError
    ensures Has(b, n) && forall x :: Has(o.book, x) ==> x.t.id != n.t.id
  {
    BreakIs(b, t, ex, lookup, es, o);
    HitsReturnable(b, t, ex, es);
    var swept := SweptBook(b, t, ex);
    if swept.IsEmpty() {
      n := es[1];
      forall x | Has(o.book, x)
        ensures x.t.id != n.t.id
      {
        AddHas(swept, es[0], x);
      }
    } else {
      n := es[0];
    }
    assert n in es;
  }

  lemma BreakLoses(v: Venue, t: Ticket, ex: Exchange, lookup: Lookup) returns (u: Ticket)
    requires Safe(v, ex) && Conserved(v) && DistinctIds(v.orders + [t])
    requires WillBreak(v.book, t, ex, lookup)
    ensures Lost(Step(v, t, ex, lookup), u)
  {
    var o, es := Execute(v.book, t, ex, lookup), Eligibles(v.book, t, ex);
    RaisesIff(v.book, t, ex, lookup);
    hide Execute, Eligibles, Lost, Conserved, WillBreak, Ranking;
    BreakIs(v.book, t, ex, lookup, es, o);
    var n := BreakDrops(v.book, t, ex, lookup, es, o);
    u := n.t;
    DroppedIsLost(v, t, ex, lookup, o, n);
  }

  lemma DroppedIsLost(v: Venue, t: Ticket, ex: Exchange, lookup: Lookup, o: Outcome, n: Lot)
    requires Safe(v, ex) && Conserved(v) && DistinctIds(v.orders + [t])
    requires o == Execute(v.book, t, ex, lookup) && o.fills == []
    requires Has(v.book, n) && forall x :: Has(o.book, x) ==> x.t.id != n.t.id
    ensures Lost(Step(v, t, ex, lookup), n.t)
  {
    hide Execute;
    HasLive(v.book, n);
    DifferentId(v.orders, t, n.t);
    assert v.tape + [] == v.tape;
    assert Account(v, n.t);
  }

  /** From the first break on, some order stays lost. */
  lemma {:induction false} LostRun(orders: seq<Ticket>, n: nat, ex: Exchange, lookup: Lookup) returns (u: Ticket)
    requires DistinctIds(orders) && n < |orders| && NoBreak(orders[..n], ex, lookup)
    requires WillBreak(After(orders[..n], ex, lookup).book, orders[n], ex, lookup)
    ensures Lost(After(orders, ex, lookup), u)
    decreases |orders|
  {
    hide Execute, NoBreak, WillBreak, Lost, Conserved, Step, Safe;
    var m := |orders| - 1;
    AfterStep(orders, m, ex, lookup);
    if n == m {
      RunConserves(orders[..n], ex, lookup);
      u := BreakLoses(After(orders[..n], ex, lookup), orders[n], ex, lookup);
    } else {
      assert orders[..m][..n] == orders[..n];
      u := LostRun(orders[..m], n, ex, lookup);
      LostStays(After(orders[..m], ex, lookup), orders[m], ex, lookup, u);
    }
  }

  lemma LostIsOpen(v: Venue, u: Ticket)
    requires Lost(v, u)
    ensures !Conserved(v)
  {
    assert Account(v, u) ==> false;
  }

  /** Conservation holds over a run exactly when no call of it met a book its rollback breaks on. */
  lemma RunConservesIff(orders: seq<Ticket>, ex: Exchange, lookup: Lookup)
    requires DistinctIds(orders)
    ensures Conserved(After(orders, ex, lookup)) <==> NoBreak(orders, ex, lookup)
  {
    if NoBreak(orders, ex, lookup) {
      RunConserves(orders, ex, lookup);
    } else {
      hide Conserved, Lost, WillBreak, Safe;
      var n := FirstBreak(orders, ex, lookup);
      var u := LostRun(orders, n, ex, lookup);
      LostIsOpen(After(orders, ex, lookup), u);
    }
  }

  lemma {:induction false} FirstWhere(p: nat -> bool, bound: nat) returns (n: nat)
    requires exists k: nat :: k < bound && p(k)
    ensures n < bound && p(n) && forall k: nat :: k < n ==> !p(k)
  {
    var k: nat :| k < bound && p(k);
    if exists j: nat :: j < k && p(j) {
      n := FirstWhere(p, k);
    } else {
      n := k;
    }
  }

  lemma FirstBreak(orders: seq<Ticket>, ex: Exchange, lookup: Lookup) returns (n: nat)
    requires DistinctIds(orders) && !NoBreak(orders, ex, lookup)
    ensures n < |orders| && NoBreak(orders[..n], ex, lookup)
    ensures WillBreak(After(orders[..n], ex, lookup).book, orders[n], ex, lookup)
  {
    hide BreaksAt, After;
    var p := (k: nat) => k < |orders| && BreaksAt(orders, ex, lookup, k);
    var k :| 0 <= k < |orders| && BreaksAt(orders, ex, lookup, k);
    assert p(k);
    n := FirstWhere(p, |orders|);
    forall j | 0 <= j < n
      ensures !BreaksAt(orders, ex, lookup, j)
    {
      assert !p(j);
    }
    BreaksEarlier(orders, n, ex, lookup);
  }

  lemma BreaksEarlier(orders: seq<Ticket>, n: nat, ex: Exchange, lookup: Lookup)
    requires DistinctIds(orders) && n < |orders| && BreaksAt(orders, ex, lookup, n)
    requires forall j :: 0 <= j < n ==> !BreaksAt(orders, ex, lookup, j)
    ensures NoBreak(orders[..n], ex, lookup)
    ensures WillBreak(After(orders[..n], ex, lookup).book, orders[n], ex, lookup)
  {
    hide WillBreak, Step, Safe;
    forall j | 0 <= j < n
      ensures !BreaksAt(orders[..n], ex, lookup, j)
    {
      assert orders[..n][..j] == orders[..j];
      assert !BreaksAt(orders, ex, lookup, j);
    }
  }

  // ---------------------------------------------------------------- a run that breaks

  lemma FirstIsIn<T>(s: seq<T>)
    ensures s != [] ==> s[0] in s
  {
  }

  lemma NoneOpposite(b: Book, t: Ticket, ex: Exchange, es: seq<Lot>)
    requires Ranking(b, t, ex, es) && forall m :: Has(b, m) ==> m.t.side == t.side
    ensures es == []
  {
    FirstIsIn(es);
  }

  /** An order that meets nobody on the other side rests whole, and moves nobody on its own. */
  lemma RestsAlone(v: Venue, t: Ticket, ex: Exchange, lookup: Lookup)
    requires Safe(v, ex) && DistinctIds(v.orders + [t]) && Validates(t) && t.kind != MARKET && t.tif == GTC
    requires forall m :: Has(v.book, m) ==> m.t.side == t.side
    ensures exists m :: Has(Step(v, t, ex, lookup).book, m) && m.t == t
    ensures forall n :: Has(v.book, n) ==> exists m :: Has(Step(v, t, ex, lookup).book, m) && m.t == n.t
  {
    var o, es := Execute(v.book, t, ex, lookup), Eligibles(v.book, t, ex);
    FreshInRun(v, t, ex);
    NoneOpposite(v.book, t, ex, es);
    MatchIsGreedy(v.book, t, ex, lookup, es);
    TakerAccounts(v.book, t, ex, lookup, o);
    assert o.fills == [];
    forall n | Has(v.book, n)
      ensures exists m :: Has(o.book, m) && m.t == n.t
    {
      CallAccounts(v.book, t, ex, lookup, n, o);
      HasLive(v.book, n);
    }
  }

  /** Two resting asks of one contract each, of other subaccounts than a fill-or-kill that wants more. */
  ghost predicate Ambush(a: Ticket, b: Ticket, t: Ticket) {
    && a.id != b.id && a.id != t.id && b.id != t.id && a.sub != t.sub
    && (forall u :: u == a || u == b ==>
        Validates(u) && u.kind == LIMIT && u.tif == GTC && u.side == SELL && u.qty == 1)
    && Validates(t) && t.kind == LIMIT && t.tif == FOK && t.side == BUY && t.qty > 2 && a.price.value <= t.price.value
  }

  ghost predicate BothIn(v: Venue, a: Ticket, b: Ticket) {
    (exists m :: Has(v.book, m) && m.t == a) && exists m :: Has(v.book, m) && m.t == b
  }

  /** The first two of such orders rest. */
  lemma BothRest(orders: seq<Ticket>, ex: Exchange)
    requires |orders| == 3 && DistinctIds(orders) && Ambush(orders[0], orders[1], orders[2])
    ensures BothIn(After(orders[..2], ex, LevelsAsOrders), orders[0], orders[1])
  {
    hide Step, Safe;
    var none, one, two := orders[..0], orders[..1], orders[..2];
    assert one[..0] == none && two[..1] == one;
    AfterStep(one, 0, ex, LevelsAsOrders);
    AfterStep(two, 1, ex, LevelsAsOrders);
    StartsEmpty(none, ex);
    hide After;
    RestsAlone(After(none, ex, LevelsAsOrders), orders[0], ex, LevelsAsOrders);
    OnlyThese(After(one, ex, LevelsAsOrders), ex, orders[0]);
    RestsAlone(After(one, ex, LevelsAsOrders), orders[1], ex, LevelsAsOrders);
  }

  lemma StartsEmpty(orders: seq<Ticket>, ex: Exchange)
    requires orders == []
    ensures forall m :: !Has(After(orders, ex, LevelsAsOrders).book, m)
  {
  }

  lemma OnlyThese(v: Venue, ex: Exchange, a: Ticket)
    requires Safe(v, ex) && v.orders == [a]
    ensures forall m :: Has(v.book, m) ==> m.t.side == a.side
  {
  }

  lemma KillerBreaks(v: Venue, a: Ticket, b: Ticket, t: Ticket, ex: Exchange)
    requires Ambush(a, b, t) && Safe(v, ex) && v.orders == [a, b] && BothIn(v, a, b)
    ensures WillBreak(v.book, t, ex, LevelsAsOrders)
  {
    var la :| Has(v.book, la) && la.t == a;
    var lb :| Has(v.book, lb) && lb.t == b;
    InReach(v, a, b, t, ex, la);
    Scarce(v, a, b, t, ex, Eligibles(v.book, t, ex));
    hide Indexed, Ranking, Quantity, Eligibles, Safe, Has, Uncrossed;
    TooLittle(v.book, t, ex, la, lb);
  }

  /** The first of the two asks may trade. */
  lemma InReach(v: Venue, a: Ticket, b: Ticket, t: Ticket, ex: Exchange, la: Lot)
    requires Ambush(a, b, t) && Safe(v, ex) && Has(v.book, la) && la.t == a
    ensures la in Eligibles(v.book, t, ex)
  {
    HasLive(v.book, la);
  }

  lemma TooLittle(b: Book, t: Ticket, ex: Exchange, x: Lot, y: Lot)
    requires Indexed(b) && Validates(t) && t.tif == FOK && Quantity(Eligibles(b, t, ex)) < t.qty
    requires x in Eligibles(b, t, ex) && Has(b, x) && Has(b, y) && x != y
    ensures WillBreak(b, t, ex, LevelsAsOrders)
  {
    hide Indexed, Ranking, Quantity, Eligibles, Has;
    var first := Eligibles(b, t, ex)[0];
    assert x != first || y != first;
  }

  /** In every such run the rollback breaks and an ask is gone. */
  lemma AmbushBreaks(orders: seq<Ticket>, ex: Exchange)
    requires |orders| == 3 && Ambush(orders[0], orders[1], orders[2])
    ensures DistinctIds(orders) && BreaksAt(orders, ex, LevelsAsOrders, 2)
    ensures !Conserved(After(orders, ex, LevelsAsOrders))
  {
    AllDiffer(orders);
    hide BreaksAt, Conserved, Safe, Step, Ambush, DistinctIds, BothIn;
    BothRest(orders, ex);
    LastBreaks(orders, ex);
    BreakShows(orders, ex, LevelsAsOrders, 2);
  }

  lemma AllDiffer(orders: seq<Ticket>)
    requires |orders| == 3 && Ambush(orders[0], orders[1], orders[2])
    ensures DistinctIds(orders)
  {
  }

  lemma BreakShows(orders: seq<Ticket>, ex: Exchange, lookup: Lookup, n: nat)
    requires DistinctIds(orders) && n < |orders| && BreaksAt(orders, ex, lookup, n)
    ensures !Conserved(After(orders, ex, lookup))
  {
    hide BreaksAt, Conserved, Safe, Step;
    RunConservesIff(orders, ex, lookup);
  }

  lemma LastBreaks(orders: seq<Ticket>, ex: Exchange)
    requires |orders| == 3 && DistinctIds(orders) && Ambush(orders[0], orders[1], orders[2])
    requires BothIn(After(orders[..2], ex, LevelsAsOrders), orders[0], orders[1])
    ensures BreaksAt(orders, ex, LevelsAsOrders, 2)
  {
    hide Step, Safe, After, WillBreak, BothIn, Ambush;
    KillerBreaks(After(orders[..2], ex, LevelsAsOrders), orders[0], orders[1], orders[2], ex);
  }

  /** One of them: asks at 50 by "x" and "y", a buy of three up to 60 by "z". */
  lemma AmbushIsPossible()
    ensures Ambush(Ticket("a", 1, SELL, LIMIT, 1, Some(50), GTC, "x"),
                   Ticket("b", 1, SELL, LIMIT, 1, Some(50), GTC, "y"),
                   Ticket("c", 1, BUY, LIMIT, 3, Some(60), FOK, "z"))
  {
  }

  /** Of two orders of one contract each no more than two contracts are to be had. */
  lemma Scarce(v: Venue, a: Ticket, b: Ticket, t: Ticket, ex: Exchange, es: seq<Lot>)
    requires Ambush(a, b, t) && Safe(v, ex) && v.orders == [a, b] && Ranking(v.book, t, ex, es)
    ensures Quantity(es) < 3
  {
    forall i | 0 <= i < |es|
      ensures es[i].Remaining() <= 1 && (es[i].t.id == a.id || es[i].t.id == b.id)
    {
      assert es[i] in es;
      HasLive(v.book, es[i]);
    }
    forall i, j | 0 <= i < j < |es|
      ensures es[i].t.id != es[j].t.id
    {
      assert Before(t.side, es[i], es[j]) && es[i] in es && es[j] in es;
    }
    FirstThree(es);
    UpToTwo(es);
  }

  lemma FirstThree(es: seq<Lot>)
    requires forall i, j :: 0 <= i < j < |es| ==> es[i].t.id != es[j].t.id
    ensures |es| > 2 ==> es[0].t.id != es[1].t.id && es[1].t.id != es[2].t.id && es[0].t.id != es[2].t.id
  {
  }

  lemma UpToTwo(es: seq<Lot>)
    requires |es| <= 2 && forall i :: 0 <= i < |es| ==> es[i].Remaining() <= 1
    ensures Quantity(es) < 3
  {
    if |es| == 1 {
      assert es[1..] == [];
    } else if |es| == 2 {
      assert es[1..][1..] == [];
    }
  }

  // ---------------------------------------------------------------- bought equals sold

  /** What the orders of one side traded in all. */
  function SideTotal(orders: seq<Ticket>, tape: seq<Fill>, side: Side): int {
    if orders == [] then 0
    else (if orders[0].side == side then Traded(tape, orders[0].id) else 0) + SideTotal(orders[1..], tape, side)
  }

  /** What one more fill adds to a side's total: its quantity for each of its two orders on that side. */
  function Adds(orders: seq<Ticket>, f: Fill, side: Side): int {
    if orders == [] then 0
    else (if orders[0].side == side then Traded([f], orders[0].id) else 0) + Adds(orders[1..], f, side)
  }

  lemma {:induction false} SideTotalMore(orders: seq<Ticket>, tape: seq<Fill>, f: Fill, side: Side)
    ensures SideTotal(orders, tape + [f], side) == SideTotal(orders, tape, side) + Adds(orders, f, side)
  {
    if orders != [] {
      QtyConcat(tape, [f], orders[0].id);
      SideTotalMore(orders[1..], tape, f, side);
    }
  }

  lemma OneFill(f: Fill, id: string)
    ensures Traded([f], id) == (if f.maker == id then f.qty else 0) + (if f.taker == id then f.qty else 0)
  {
    assert [f][1..] == [];
    assert MakerQty([f], id) == (if f.maker == id then f.qty else 0) + MakerQty([], id);
    assert TakerQty([f], id) == (if f.taker == id then f.qty else 0) + TakerQty([], id);
  }

  /** The indicator of one order among distinct ids. */
  lemma {:induction false} AddsSplit(orders: seq<Ticket>, f: Fill, side: Side)
    requires DistinctIds(orders)
    ensures Adds(orders, f, side)
            == (if exists t :: t in orders && t.id == f.maker && t.side == side then f.qty else 0)
             + (if exists t :: t in orders && t.id == f.taker && t.side == side then f.qty else 0)
  {
    if orders != [] {
      AddsSplit(orders[1..], f, side);
      OneFill(f, orders[0].id);
      assert orders[0] in orders;
      assert forall t :: t in orders <==> t == orders[0] || t in orders[1..];
      forall t | t in orders[1..]
        ensures t.id != orders[0].id
      {
      }
    }
  }

  lemma OneOfEach(orders: seq<Ticket>, f: Fill)
    requires DistinctIds(orders) && Paired(orders, f)
    ensures Adds(orders, f, BUY) == f.qty == Adds(orders, f, SELL)
  {
    AddsSplit(orders, f, BUY);
    AddsSplit(orders, f, SELL);
    var i, j :| 0 <= i < |orders| && 0 <= j < |orders| && orders[i].id == f.taker && orders[j].id == f.maker
                && orders[i].side == f.side && orders[j].side == f.side.Opposite();
    SameTicket(orders, i);
    SameTicket(orders, j);
    assert orders[i] in orders && orders[j] in orders;
  }

  lemma SameTicket(orders: seq<Ticket>, i: nat)
    requires DistinctIds(orders) && i < |orders|
    ensures forall t :: t in orders && t.id == orders[i].id ==> t == orders[i]
  {
  }

  lemma {:induction false} PairedTapeBalances(orders: seq<Ticket>, tape: seq<Fill>)
    requires DistinctIds(orders) && forall f :: f in tape ==> Paired(orders, f)
    ensures SideTotal(orders, tape, BUY) == SideTotal(orders, tape, SELL)
    decreases |tape|
  {
    if tape == [] {
      NothingTraded(orders, BUY);
      NothingTraded(orders, SELL);
    } else {
      var n := |tape| - 1;
      var f := tape[n];
      assert tape[..n] + [f] == tape && f in tape;
      PairedTapeBalances(orders, tape[..n]);
      SideTotalMore(orders, tape[..n], f, BUY);
      SideTotalMore(orders, tape[..n], f, SELL);
      OneOfEach(orders, f);
    }
  }

  lemma {:induction false} NothingTraded(orders: seq<Ticket>, side: Side)
    ensures SideTotal(orders, [], side) == 0
  {
    if orders != [] {
      NothingTraded(orders[1..], side);
    }
  }

  /** Every fill on the tape of a run pairs a buyer with a seller, whatever its rollbacks do. */
  lemma {:induction false} TapePaired(orders: seq<Ticket>, ex: Exchange, lookup: Lookup)
    requires DistinctIds(orders)
    ensures forall f :: f in After(orders, ex, lookup).tape ==> Paired(orders, f)
    decreases |orders|
  {
    if orders != [] {
      hide Execute, Paired, Safe, Has;
      var n := |orders| - 1;
      var v, t := After(orders[..n], ex, lookup), orders[n];
      TapePaired(orders[..n], ex, lookup);
      AfterStep(orders, n, ex, lookup);
      FillsPaired(v, t, ex, lookup, Execute(v.book, t, ex, lookup));
      forall f | f in After(orders, ex, lookup).tape
        ensures Paired(orders, f)
      {
        if f in v.tape {
          PairedMore(orders[..n], t, f);
        }
      }
    }
  }

  /** What the buyers bought is what the sellers sold, in every run. */
  lemma BoughtIsSold(orders: seq<Ticket>, ex: Exchange, lookup: Lookup)
    requires DistinctIds(orders)
    ensures var tape := After(orders, ex, lookup).tape; SideTotal(orders, tape, BUY) == SideTotal(orders, tape, SELL)
  {
    TapePaired(orders, ex, lookup);
    PairedTapeBalances(orders, After(orders, ex, lookup).tape);
  }
}
