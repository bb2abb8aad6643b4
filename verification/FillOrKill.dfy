/** Fill-or-kill: when it fills, what a kill leaves, and when the rollback itself breaks. */
module FillOrKill {
  import opened Wrappers
  import opened Orders
  import opened PriceTime
  import opened GreedyLaws
  import opened BookLaws
  import opened MatchLaws

  /** A level without its arrival tags: which orders, in which order, filled how far. */
  function Strip(q: seq<Lot>): (r: seq<(Ticket, int)>)
    ensures |r| == |q| && forall i :: 0 <= i < |q| ==> r[i] == (q[i].t, q[i].filled)
  {
    seq(|q|, i requires 0 <= i < |q| => (q[i].t, q[i].filled))
  }

  function AtPrice(q: seq<Lot>, side: Side, price: int): seq<Lot> {
    if q == [] then []
    else (if q[0].t.side == side && q[0].t.price == Some(price) then [q[0]] else []) + AtPrice(q[1..], side, price)
  }

  lemma StripConcat(a: seq<Lot>, b: seq<Lot>)
    ensures Strip(a + b) == Strip(a) + Strip(b)
  {
  }

  lemma {:induction false} AtPriceConcat(a: seq<Lot>, b: seq<Lot>, side: Side, price: int)
    ensures AtPrice(a + b, side, price) == AtPrice(a, side, price) + AtPrice(b, side, price)
  {
    if a == [] {
      assert a + b == b;
    } else {
      assert (a + b)[1..] == a[1..] + b;
      AtPriceConcat(a[1..], b, side, price);
    }
  }

  lemma {:induction false} AtPriceUniform(q: seq<Lot>, side: Side, price: int, p: int)
    requires forall m :: m in q ==> m.t.side == side && m.t.price == Some(p)
    ensures AtPrice(q, side, price) == if p == price then q else []
  {
    if q != [] {
      assert q[0] in q;
      AtPriceUniform(q[1..], side, price, p);
      assert q == [q[0]] + q[1..];
    }
  }

  lemma AddLotLevel(b: Book, m: Lot, side: Side, price: int)
    requires m.t.price.Some?
    ensures Strip(LevelAt(AddLot(b, m).On(side), price))
            == Strip(LevelAt(b.On(side), price)) + Strip(AtPrice([m], side, price))
  {
    var tail := m.(arrival := b.clock + 1);
    StripConcat(LevelAt(b.On(side), price), [tail]);
    assert Strip([tail]) == Strip([m]);
    assert AtPrice([m], side, price) == if m.t.side == side && m.t.price == Some(price) then [m] else [];
    assert Strip([]) == [];
  }

  /** Putting makers back appends them, level by level, in the order they come. */
  lemma {:induction false} AddAllLevel(b: Book, makers: seq<Lot>, side: Side, price: int)
    requires Priced(makers)
    ensures Strip(LevelAt(AddAll(b, makers).On(side), price))
            == Strip(LevelAt(b.On(side), price)) + Strip(AtPrice(makers, side, price))
    decreases |makers|
  {
    if makers == [] {
      assert Strip([]) == [];
    } else {
      var m, rest := makers[0], makers[1..];
      AddLotLevel(b, m, side, price);
      AddAllLevel(AddLot(b, m), rest, side, price);
      assert makers == [m] + rest;
      AtPriceConcat([m], rest, side, price);
      StripConcat(AtPrice([m], side, price), AtPrice(rest, side, price));
      Assoc(Strip(LevelAt(b.On(side), price)), Strip(AtPrice([m], side, price)), Strip(AtPrice(rest, side, price)));
    }
  }

  /** What the flat ranking over `prices` holds at one price. */
  ghost predicate HoldsLevel(t: Ticket, ex: Exchange, levels: Levels, prices: seq<int>, side: Side, price: int)
    requires Priced(Queue(levels, prices)) && Priced(LevelAt(levels, price))
  {
    AtPrice(Makers(t, ex, Queue(levels, prices)), side, price)
    == if price in prices then Makers(t, ex, LevelAt(levels, price)) else []
  }

  /** Of the flat ranking, the makers at one price are the makers of that level. */
  lemma {:induction false} MakersAtPrice(t: Ticket, ex: Exchange, levels: Levels, prices: seq<int>, side: Side,
                                         clock: nat, price: int)
    requires SideOk(side, levels, clock) && PricedLevels(levels) && Distinct(prices)
    ensures Priced(Queue(levels, prices)) && Priced(LevelAt(levels, price))
    ensures HoldsLevel(t, ex, levels, prices, side, price)
  {
    QueuePriced(levels, prices);
    if prices != [] {
      QueuePriced(levels, prices[1..]);
      MakersAtPrice(t, ex, levels, prices[1..], side, clock, price);
      hide HoldsLevel, LevelAt, Makers, AtPrice;
      FirstLevel(t, ex, levels, prices, side, clock, price);
    }
  }

  lemma FirstLevel(t: Ticket, ex: Exchange, levels: Levels, prices: seq<int>, side: Side, clock: nat, price: int)
    requires SideOk(side, levels, clock) && PricedLevels(levels) && Distinct(prices) && prices != []
    requires Priced(Queue(levels, prices)) && Priced(LevelAt(levels, price)) && Priced(Queue(levels, prices[1..]))
    requires HoldsLevel(t, ex, levels, prices[1..], side, price)
    ensures HoldsLevel(t, ex, levels, prices, side, price)
  {
    hide SideOk, PricedLevels, LevelAt, Makers, AtPrice, Priced;
    var p, ps := prices[0], prices[1..];
    var a, b := LevelAt(levels, p), Queue(levels, ps);
    LevelAtPrice(t, ex, levels, p, side, clock, price);
    MakersConcat(t, ex, a, b);
    AtPriceConcat(Makers(t, ex, a), Makers(t, ex, b), side, price);
    assert p !in ps;
    assert price in prices <==> price == p || price in ps;
  }

  lemma LevelAtPrice(t: Ticket, ex: Exchange, levels: Levels, p: int, side: Side, clock: nat, price: int)
    requires SideOk(side, levels, clock) && PricedLevels(levels)
    ensures Priced(LevelAt(levels, p))
    ensures AtPrice(Makers(t, ex, LevelAt(levels, p)), side, price)
            == if p == price then Makers(t, ex, LevelAt(levels, p)) else []
  {
    var q := LevelAt(levels, p);
    MakersMembers(t, ex, q);
    assert LevelOk(side, p, q, clock);
    forall m | m in Makers(t, ex, q)
      ensures m.t.side == side && m.t.price == Some(p)
    {
      assert m in q;
    }
    AtPriceUniform(Makers(t, ex, q), side, price, p);
  }

  // ---------------------------------------------------------------- the two outcomes

  /** It trades exactly when the eligible makers cover it; otherwise it trades nothing. */
  lemma FokAllOrNothing(b: Book, t: Ticket, ex: Exchange, lookup: Lookup, es: seq<Lot>)
    requires Indexed(b) && Ranking(b, t, ex, es) && Validates(t) && t.tif == FOK
    ensures PricedLevels(b.bids) && PricedLevels(b.asks)
    ensures var o := Execute(b, t, ex, lookup);
            && (o.fullyFilled <==> Quantity(es) >= t.qty)
            && (o.fullyFilled ==> o.takerFilled == t.qty == FilledQty(o.fills))
            && (!o.fullyFilled ==> o.fills == [] && !o.rested)
            && (!o.fullyFilled && o.err == Fine ==> o.takerFilled == 0)
  {
    SweepIsGreedy(b, t, ex, es);
  }

  /** The level a dry sweep and a full return leave, whatever else the book holds. */
  lemma ReturnedLevel(b: Book, t: Ticket, ex: Exchange, es: seq<Lot>, price: int)
    requires Indexed(b) && Ranking(b, t, ex, es) && PricedLevels(b.bids) && PricedLevels(b.asks)
    requires SweepBook(b, t, ex).left > 0
    ensures var level := LevelAt(b.On(t.side.Opposite()), price);
            && Priced(level)
            && Strip(LevelAt(AddAll(SweptBook(b, t, ex), es).On(t.side.Opposite()), price))
               == Strip(Skipped(t, ex, level)) + Strip(Makers(t, ex, level))
  {
    var side := t.side.Opposite();
    var levels := b.On(side);
    var prices := PriorityPrices(t.side, levels.Keys);
    RankingIs(b, t, ex, es);
    AddAllLevel(SweptBook(b, t, ex), es, side, price);
    PrioritySound(t.side, levels.Keys);
    MakersAtPrice(t, ex, levels, prices, side, b.clock, price);
    assert price in prices <==> price in levels;
    if price in prices {
      SweepDry(t, ex, levels, prices, t.qty);
    } else {
      SweepIsWalk(t, ex, levels, prices, t.qty);
    }
  }

  lemma OwnLevel(b: Book, t: Ticket, ex: Exchange, es: seq<Lot>, price: int)
    requires Indexed(b) && Ranking(b, t, ex, es) && PricedLevels(b.bids) && PricedLevels(b.asks)
    ensures Strip(LevelAt(AddAll(SweptBook(b, t, ex), es).On(t.side), price)) == Strip(LevelAt(b.On(t.side), price))
  {
    AddAllLevel(SweptBook(b, t, ex), es, t.side, price);
    OtherSide(es, t.side, price);
    assert Strip([]) == [];
  }

  /** What a kill comes to. */
  lemma KillOutcome(b: Book, t: Ticket, ex: Exchange, lookup: Lookup, es: seq<Lot>)
    requires Indexed(b) && Ranking(b, t, ex, es) && Validates(t) && t.tif == FOK && Quantity(es) < t.qty
    ensures PricedLevels(b.bids) && PricedLevels(b.asks) && SweepBook(b, t, ex).left > 0
    ensures var o := Execute(b, t, ex, lookup); var swept := SweptBook(b, t, ex);
            if RollbackEnds(lookup, swept, es) then o.err == Fine && o.book == AddAll(swept, es)
            else o.err == AttributeError && o.book == Restored(lookup, swept, es)
  {
    SweepIsGreedy(b, t, ex, es);
  }

  /** A kill that completes leaves every level with the same orders, filled as far as before: the
      orders passed by first, then the makers put back. Levels of the taker's own side do not move. */
  lemma FokRestores(b: Book, t: Ticket, ex: Exchange, lookup: Lookup, es: seq<Lot>, price: int, after: Book)
    requires Indexed(b) && Ranking(b, t, ex, es) && Validates(t) && t.tif == FOK && Quantity(es) < t.qty
    requires PricedLevels(b.bids) && PricedLevels(b.asks) && Execute(b, t, ex, lookup).err == Fine
    requires after == Execute(b, t, ex, lookup).book
    ensures var level := LevelAt(b.On(t.side.Opposite()), price);
            && Strip(LevelAt(after.On(t.side), price)) == Strip(LevelAt(b.On(t.side), price))
            && Priced(level)
            && Strip(LevelAt(after.On(t.side.Opposite()), price)) == Strip(Skipped(t, ex, level) + Makers(t, ex, level))
  {
    KillOutcome(b, t, ex, lookup, es);
    ReturnedLevel(b, t, ex, es, price);
    OwnLevel(b, t, ex, es, price);
    var level := LevelAt(b.On(t.side.Opposite()), price);
    StripConcat(Skipped(t, ex, level), Makers(t, ex, level));
  }

  lemma {:induction false} OtherSide(es: seq<Lot>, side: Side, price: int)
    requires forall m :: m in es ==> m.t.side != side
    ensures AtPrice(es, side, price) == []
  {
    if es != [] {
      assert es[0] in es;
      OtherSide(es[1..], side, price);
    }
  }

  /** Passing by and putting back loses nothing. */
  lemma {:induction false} PartitionComplete(t: Ticket, ex: Exchange, q: seq<Lot>)
    requires Priced(q)
    ensures multiset(Skipped(t, ex, q) + Makers(t, ex, q)) == multiset(q)
  {
    if q != [] {
      PartitionComplete(t, ex, q[1..]);
      assert q == [q[0]] + q[1..];
    }
  }

  /** An order passed by behind one that may trade. */
  ghost predicate Overtaken(t: Ticket, ex: Exchange, q: seq<Lot>)
    requires Priced(q)
  {
    exists i, j :: 0 <= i < j < |q| && Eligible(t, ex, q[i]) && !Eligible(t, ex, q[j])
  }

  lemma {:induction false} AllEligible(t: Ticket, ex: Exchange, q: seq<Lot>)
    requires Priced(q) && forall j :: 0 <= j < |q| ==> Eligible(t, ex, q[j])
    ensures Skipped(t, ex, q) == [] && Makers(t, ex, q) == q
  {
    if q != [] {
      AllEligible(t, ex, q[1..]);
    }
  }

  lemma {:induction false} NotOvertakenSplits(t: Ticket, ex: Exchange, q: seq<Lot>)
    requires Priced(q) && !Overtaken(t, ex, q)
    ensures Skipped(t, ex, q) + Makers(t, ex, q) == q
  {
    if q != [] {
      if Eligible(t, ex, q[0]) {
        AllEligible(t, ex, q);
      } else {
        forall i, j | 0 <= i < j < |q[1..]|
          ensures !(Eligible(t, ex, q[1..][i]) && !Eligible(t, ex, q[1..][j]))
        {
          assert q[1..][i] == q[i + 1] && q[1..][j] == q[j + 1];
        }
        NotOvertakenSplits(t, ex, q[1..]);
      }
    }
  }

  lemma OrderedNotOvertaken(t: Ticket, ex: Exchange, q: seq<Lot>)
    requires Priced(q) && Strip(Skipped(t, ex, q) + Makers(t, ex, q)) == Strip(q)
    ensures !Overtaken(t, ex, q)
  {
    MakersMembers(t, ex, q);
    SplitNotOvertaken(t, ex, Skipped(t, ex, q), Makers(t, ex, q), q);
  }

  lemma SplitNotOvertaken(t: Ticket, ex: Exchange, a: seq<Lot>, c: seq<Lot>, q: seq<Lot>)
    requires Priced(a) && Priced(c) && Priced(q) && Strip(a + c) == Strip(q)
    requires (forall m :: m in a ==> m.t.price.Some? && !Eligible(t, ex, m))
    requires (forall m :: m in c ==> m.t.price.Some? && Eligible(t, ex, m))
    ensures !Overtaken(t, ex, q)
  {
    hide Eligible;
    forall k: nat | k < |q|
      ensures Eligible(t, ex, q[k]) <==> k >= |a|
    {
      SameEligibility(t, ex, a + c, q, k);
      assert (a + c)[k] == if k < |a| then a[k] else c[k - |a|];
      assert if k < |a| then (a + c)[k] in a else (a + c)[k] in c;
    }
  }

  /** The queue of a level survives a kill exactly when no order passed by stood behind one that trades;
      within one level only own-subaccount orders are passed by once anything trades. */
  lemma KillKeepsQueueIff(b: Book, t: Ticket, ex: Exchange, lookup: Lookup, es: seq<Lot>, price: int, after: Book)
    requires Indexed(b) && Ranking(b, t, ex, es) && Validates(t) && t.tif == FOK && Quantity(es) < t.qty
    requires PricedLevels(b.bids) && PricedLevels(b.asks) && Execute(b, t, ex, lookup).err == Fine
    requires after == Execute(b, t, ex, lookup).book
    ensures var side := t.side.Opposite(); var level := LevelAt(b.On(side), price);
            && Priced(level)
            && (Strip(LevelAt(after.On(side), price)) == Strip(level) <==> !Overtaken(t, ex, level))
            && (Overtaken(t, ex, level) ==> ex.stp && exists m :: m in level && m.t.sub == t.sub)
  {
    FokRestores(b, t, ex, lookup, es, price, after);
    var level := LevelAt(b.On(t.side.Opposite()), price);
    if Strip(Skipped(t, ex, level) + Makers(t, ex, level)) == Strip(level) {
      OrderedNotOvertaken(t, ex, level);
    }
    if !Overtaken(t, ex, level) {
      NotOvertakenSplits(t, ex, level);
    } else {
      var i, j :| 0 <= i < j < |level| && Eligible(t, ex, level[i]) && !Eligible(t, ex, level[j]);
      assert LevelOk(t.side.Opposite(), price, level, b.clock);
      assert LotOk(t.side.Opposite(), price, level[j], b.clock);
      assert level[j] in level;
    }
  }

  lemma SameEligibility(t: Ticket, ex: Exchange, a: seq<Lot>, b: seq<Lot>, i: nat)
    requires Strip(a) == Strip(b) && i < |b| && Priced(b)
    ensures |a| == |b| && a[i].t.price.Some? && (Eligible(t, ex, a[i]) <==> Eligible(t, ex, b[i]))
  {
    assert Strip(a)[i] == Strip(b)[i];
  }

  // ---------------------------------------------------------------- when the rollback raises

  /** A maker that may trade does not survive a dry sweep, in any state of filling. */
  lemma HitGone(b: Book, t: Ticket, ex: Exchange, m: Lot, n: Lot)
    requires Indexed(b) && PricedLevels(b.bids) && PricedLevels(b.asks) && SweepBook(b, t, ex).left > 0
    requires Has(SweptBook(b, t, ex), m) && Has(b, n) && From(m, n)
    ensures !(n.t.side == t.side.Opposite() && Eligible(t, ex, n))
  {
    if n.t.side == t.side.Opposite() {
      DryLeftovers(b, t, ex, m);
    }
  }

  /** Any order that is not a maker of this taker is still there after a dry sweep. */
  lemma Survives(b: Book, t: Ticket, ex: Exchange, m: Lot)
    requires Indexed(b) && PricedLevels(b.bids) && PricedLevels(b.asks) && SweepBook(b, t, ex).left > 0
    requires Has(b, m) && !(m.t.side == t.side.Opposite() && Eligible(t, ex, m))
    ensures Has(SweptBook(b, t, ex), m)
  {
    if m.t.side == t.side.Opposite() {
      DryLeftovers(b, t, ex, m);
    }
  }

  lemma EmptyIff(b: Book)
    requires Indexed(b)
    ensures b.IsEmpty() <==> forall m :: !Has(b, m)
  {
    if p :| p in b.bids {
      HasOn(b, BUY, p, b.bids[p][0]);
    }
    if p :| p in b.asks {
      HasOn(b, SELL, p, b.asks[p][0]);
    }
    assert (forall p :: p !in b.bids) ==> b.bids == map[];
    assert (forall p :: p !in b.asks) ==> b.asks == map[];
  }

  lemma SweptEmptyIff(b: Book, t: Ticket, ex: Exchange, es: seq<Lot>)
    requires Indexed(b) && Ranking(b, t, ex, es) && PricedLevels(b.bids) && PricedLevels(b.asks)
    requires SweepBook(b, t, ex).left > 0
    ensures SweptBook(b, t, ex).IsEmpty() <==> forall m :: Has(b, m) ==> m in es
  {
    var swept := SweptBook(b, t, ex);
    SweptIndexed(b, t, ex);
    EmptyIff(swept);
    if m :| Has(swept, m) {
      var n :| Has(b, n) && From(m, n);
      HitGone(b, t, ex, m, n);
      assert n !in es;
    } else if m :| Has(b, m) && m !in es {
      Survives(b, t, ex, m);
    }
  }

  /** With the lookup as written, a kill raises exactly when some maker traded and the book held any
      other order at all; a kill over the intended lookup never raises. */
  lemma KillRaisesIff(b: Book, t: Ticket, ex: Exchange, es: seq<Lot>)
    requires Indexed(b) && Ranking(b, t, ex, es) && Validates(t) && t.tif == FOK && Quantity(es) < t.qty
    ensures PricedLevels(b.bids) && PricedLevels(b.asks)
    ensures Execute(b, t, ex, OverOrders).err == Fine
    ensures Execute(b, t, ex, LevelsAsOrders).err == AttributeError
            <==> es != [] && exists m :: Has(b, m) && m != es[0]
  {
    KillOutcome(b, t, ex, OverOrders, es);
    KillOutcome(b, t, ex, LevelsAsOrders, es);
    SweptEmptyIff(b, t, ex, es);
    OneLive(b, t, ex, es);
  }

  /** The makers a taker may trade with, ranked. */
  ghost function Eligibles(b: Book, t: Ticket, ex: Exchange): (es: seq<Lot>)
    requires Indexed(b)
    ensures Ranking(b, t, ex, es)
  {
    AgainstRanks(b, t, ex);
    Makers(t, ex, Against(b, t))
  }

  /** What breaks a rollback, as it stands before the call: a valid fill-or-kill whose eligible makers fall
      short of it, and, with the lookup as written, any order at all besides the first of them. */
  ghost predicate WillBreak(b: Book, t: Ticket, ex: Exchange, lookup: Lookup)
    requires Indexed(b)
  {
    var es := Eligibles(b, t, ex);
    && lookup.LevelsAsOrders? && Validates(t) && t.tif == FOK && Quantity(es) < t.qty
    && es != [] && exists m :: Has(b, m) && m != es[0]
  }

  /** A call raises from its rollback exactly then. */
  lemma RaisesIff(b: Book, t: Ticket, ex: Exchange, lookup: Lookup)
    requires Indexed(b)
    ensures PricedLevels(b.bids) && PricedLevels(b.asks)
    ensures Execute(b, t, ex, lookup).err == AttributeError <==> WillBreak(b, t, ex, lookup)
  {
    IndexedPriced(b);
    var es := Eligibles(b, t, ex);
    if Validates(t) {
      if t.tif == FOK && Quantity(es) < t.qty {
        KillRaisesIff(b, t, ex, es);
      } else {
        MatchIsGreedy(b, t, ex, lookup, es);
      }
    }
    hide Indexed, Ranking, SweepBook, PricedLevels, Eligibles, Has;
  }

  lemma OneLive(b: Book, t: Ticket, ex: Exchange, es: seq<Lot>)
    requires Ranking(b, t, ex, es)
    ensures |es| == 1 && (forall m :: Has(b, m) ==> m in es) <==> es != [] && forall m :: Has(b, m) ==> m == es[0]
  {
    if |es| > 1 {
      assert es[1] in es && Before(t.side, es[0], es[1]);
    } else if |es| == 1 {
      assert forall m :: m in es <==> m == es[0];
    }
  }
}
