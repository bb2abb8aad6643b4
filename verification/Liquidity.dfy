/** What one `match` call does, read off the orders themselves: who may trade with whom, how much there is to
    be had, who comes first, and what is left behind (exchange/core/matching.py). */
module Liquidity {
  import opened Wrappers
  import opened Orders
  import opened PriceTime
  import opened GreedyLaws
  import opened BookLaws
  import opened MatchLaws
  import opened FillOrKill
  import opened BookViews
  import opened Sums

  /** A market order trades at any price, any other within its limit; never with its own side, and never
      within one subaccount while self-trades are prevented. */
  predicate MayTrade(t: Ticket, ex: Exchange, m: Lot) {
    && m.t.side != t.side
    && !(ex.stp && m.t.sub == t.sub)
    && (t.kind == MARKET || (t.price.Some? && m.t.price.Some? && WithinLimit(t.side, t.price.value, m.t.price.value)))
  }

  predicate WithinLimit(side: Side, limit: int, price: int) {
    (side == BUY ==> price <= limit) && (side == SELL ==> price >= limit)
  }

  lemma MayTradeIff(b: Book, t: Ticket, ex: Exchange, m: Lot)
    requires Indexed(b) && Has(b, m) && Validates(t)
    ensures MayTrade(t, ex, m) <==> m.t.side == t.side.Opposite() && Eligible(t, ex, m)
  {
    HasLive(b, m);
    hide Indexed, Has;
  }

  /** The live orders of the book a taker may trade with, and the quantity they have left. */
  ghost function Reach(b: Book, t: Ticket, ex: Exchange): set<Lot> {
    set m | m in Live(b, BUY) + Live(b, SELL) && MayTrade(t, ex, m)
  }

  ghost function Available(b: Book, t: Ticket, ex: Exchange): int {
    SumInt(Reach(b, t, ex), (m: Lot) => m.Remaining())
  }

  lemma {:induction false} RankedSum(side: Side, q: seq<Lot>)
    requires Ranked(side, q)
    ensures SumInt(LevelSet(q), (m: Lot) => m.Remaining()) == Quantity(q)
  {
    if q != [] {
      RankedSum(side, q[1..]);
      NotInTail(side, q);
      assert LevelSet(q) - {q[0]} == LevelSet(q[1..]);
      assert q[0] in LevelSet(q);
      SumIntPick(LevelSet(q), (m: Lot) => m.Remaining(), q[0]);
    }
  }

  lemma ReachIs(b: Book, t: Ticket, ex: Exchange, es: seq<Lot>)
    requires Indexed(b) && Ranking(b, t, ex, es) && Validates(t)
    ensures Reach(b, t, ex) == LevelSet(es)
  {
    hide Indexed, Has, Eligible, MayTrade, Live;
    forall m
      ensures m in Reach(b, t, ex) <==> m in es
    {
      LiveHas(b, BUY, m);
      LiveHas(b, SELL, m);
      if Has(b, m) {
        MayTradeIff(b, t, ex, m);
      }
    }
  }

  lemma AvailableIs(b: Book, t: Ticket, ex: Exchange, es: seq<Lot>)
    requires Indexed(b) && Ranking(b, t, ex, es) && Validates(t)
    ensures Available(b, t, ex) == Quantity(es)
  {
    ReachIs(b, t, ex, es);
    RankedSum(t.side, es);
    hide Indexed, Ranking, Reach, LevelSet;
  }

  /** A call raises a ValueError exactly on an empty quantity or, market orders aside, on a price that is missing
      or not 1 to 99 cents. */
  lemma RejectedIff(b: Book, t: Ticket, ex: Exchange, lookup: Lookup)
    requires PricedLevels(b.bids) && PricedLevels(b.asks)
    ensures Execute(b, t, ex, lookup).err == ValueError
            <==> t.qty <= 0 || (t.kind != MARKET && (t.price.None? || t.price.value < 1 || t.price.value > 99))
  {
    hide SweepBook, Restored, RollbackEnds, AddLot, PricedLevels;
  }

  /** A taker gets the smaller of what it wants and what there is: a market order at any price, any other within
      its limit. It is full exactly if there is enough; a fill-or-kill short of that gets nothing; what is left
      of another rests unless it is a market or immediate-or-cancel order. */
  lemma FilledIsAvailable(b: Book, t: Ticket, ex: Exchange, lookup: Lookup)
    requires Indexed(b) && Validates(t)
    ensures PricedLevels(b.bids) && PricedLevels(b.asks)
    ensures var o := Execute(b, t, ex, lookup); var there := Available(b, t, ex);
            && (o.fullyFilled <==> there >= t.qty)
            && (t.tif != FOK || there >= t.qty ==>
                  o.err == Fine && o.takerFilled == FilledQty(o.fills) == Min(t.qty, there))
            && (t.tif == FOK && there < t.qty ==> o.fills == [] && (o.err == Fine ==> o.takerFilled == 0))
            && (o.rested <==> there < t.qty && t.tif != FOK && t.tif != IOC && t.kind != MARKET)
  {
    AgainstRanks(b, t, ex);
    var es := Makers(t, ex, Against(b, t));
    AvailableIs(b, t, ex, es);
    MatchIsGreedy(b, t, ex, lookup, es);
    if t.tif == FOK {
      FokAllOrNothing(b, t, ex, lookup, es);
    }
    hide Indexed, Ranking, Execute, Available, PricedLevels, Priced, Against, Makers, IsGreedy, Quantity, FilledQty;
  }

  /** A taker that wanted more than there was leaves nobody behind it might have traded with, and everybody else
      as they stood. */
  lemma NobodyLeftBehind(b: Book, t: Ticket, ex: Exchange, lookup: Lookup, m: Lot)
    requires Indexed(b) && Validates(t) && t.tif != FOK && Available(b, t, ex) < t.qty && m.t.side != t.side
    ensures PricedLevels(b.bids) && PricedLevels(b.asks)
    ensures Has(Execute(b, t, ex, lookup).book, m) <==> Has(b, m) && !MayTrade(t, ex, m)
  {
    AgainstRanks(b, t, ex);
    IndexedPriced(b);
    var es := Makers(t, ex, Against(b, t));
    AvailableIs(b, t, ex, es);
    SweepIsGreedy(b, t, ex, es);
    hide Indexed, Ranking, Available, Against, Makers, IsGreedy, Quantity, MayTrade, Eligible;
    if m.t.price.Some? {
      DryLeftovers(b, t, ex, m);
      BookEnds(b, t, ex, lookup, m);
      if Has(b, m) {
        MayTradeIff(b, t, ex, m);
      }
    }
  }

  /** The other side of the book a short call leaves is the one its sweep left. */
  lemma BookEnds(b: Book, t: Ticket, ex: Exchange, lookup: Lookup, m: Lot)
    requires PricedLevels(b.bids) && PricedLevels(b.asks) && Validates(t) && t.tif != FOK
    requires SweepBook(b, t, ex).left > 0 && m.t.side != t.side
    ensures Has(Execute(b, t, ex, lookup).book, m) <==> Has(SweptBook(b, t, ex), m)
  {
    hide SweepBook, Restored, RollbackEnds, PricedLevels, AddLot, Has;
    var own := Lot(t, t.qty - SweepBook(b, t, ex).left, 0);
    if t.tif != IOC && t.kind != MARKET {
      AddHas(SweptBook(b, t, ex), own, m);
    }
  }

  /** `n` comes before `m`: at a price better for an aggressor on `side`, or at the same price and earlier. */
  predicate ComesBefore(side: Side, n: Lot, m: Lot)
    requires n.t.price.Some? && m.t.price.Some?
  {
    || (side == BUY && n.t.price.value < m.t.price.value)
    || (side == SELL && n.t.price.value > m.t.price.value)
    || (n.t.price.value == m.t.price.value && n.arrival < m.arrival)
  }

  /** Price-time priority: whoever the taker may trade with and stands ahead of one that traded has itself traded
      all it had, before it. */
  lemma PriorityKept(b: Book, t: Ticket, ex: Exchange, lookup: Lookup, k: nat, m: Lot, n: Lot)
    requires Indexed(b) && Validates(t) && PricedLevels(b.bids) && PricedLevels(b.asks)
    requires var fills := Execute(b, t, ex, lookup).fills; k < |fills| && Has(b, m) && fills[k].maker == m.t.id
    requires Has(b, n) && MayTrade(t, ex, n) && n.t.price.Some? && m.t.price.Some? && ComesBefore(t.side, n, m)
    ensures exists j :: 0 <= j < k && var f := Execute(b, t, ex, lookup).fills[j];
                                      f.maker == n.t.id && f.qty == n.Remaining()
  {
    AgainstRanks(b, t, ex);
    var es, fills := Makers(t, ex, Against(b, t)), Execute(b, t, ex, lookup).fills;
    FillsAreGreedy(b, t, ex, lookup, es);
    MayTradeIff(b, t, ex, n);
    var j := PlaceOf(b, t, ex, es, fills, k, m, n);
    NonePassedOver(ex, t, es, t.qty, fills, j, k);
    hide Execute, Indexed, Ranking, Against, Makers, IsGreedy, Has;
    assert fills[j].maker == n.t.id && fills[j].qty == n.Remaining();
  }

  lemma PlaceOf(b: Book, t: Ticket, ex: Exchange, es: seq<Lot>, fills: seq<Fill>, k: nat, m: Lot, n: Lot)
      returns (j: nat)
    requires UniqueIds(b) && Ranking(b, t, ex, es) && IsGreedy(ex, t, es, t.qty, fills) && k < |fills|
    requires Has(b, m) && fills[k].maker == m.t.id && n in es
    requires n.t.price.Some? && m.t.price.Some? && ComesBefore(t.side, n, m)
    ensures j < k && es[j] == n
  {
    hide Has, Eligible, Share;
    assert es[k] in es && es[k] == m;
    j :| 0 <= j < |es| && es[j] == n;
    RankedAt(t.side, es, k, j);
    NotBoth(t.side, n, m);
  }

  lemma RankedAt(side: Side, es: seq<Lot>, i: nat, j: nat)
    requires Ranked(side, es) && i < |es| && j < |es|
    ensures es[i].t.price.Some? && es[j].t.price.Some? && (i < j ==> Before(side, es[i], es[j]))
  {
  }

  lemma NotBoth(side: Side, n: Lot, m: Lot)
    requires n.t.price.Some? && m.t.price.Some? && ComesBefore(side, n, m)
    ensures !Before(side, m, n) && n != m
  {
  }

  /** Every fill is between the taker and one live order it may trade with: at that order's price, for no more than
      it had left, with both subaccounts and the instrument on record. */
  lemma FillIsOf(b: Book, t: Ticket, ex: Exchange, lookup: Lookup, k: nat) returns (m: Lot)
    requires Indexed(b) && Validates(t) && PricedLevels(b.bids) && PricedLevels(b.asks)
    requires k < |Execute(b, t, ex, lookup).fills|
    ensures var f := Execute(b, t, ex, lookup).fills[k];
            && Has(b, m) && MayTrade(t, ex, m) && 0 < f.qty <= m.Remaining()
            && f == Fill(ex.id, m.t.price.value, f.qty, t.side, t.id, m.t.id, t.sub, m.t.sub)
  {
    AgainstRanks(b, t, ex);
    var es, fills := Makers(t, ex, Against(b, t)), Execute(b, t, ex, lookup).fills;
    FillsAreGreedy(b, t, ex, lookup, es);
    hide Execute, Indexed, Against, Makers, Has, Eligible;
    m := es[k];
    assert m in es;
    MayTradeIff(b, t, ex, m);
    ShareWithin(es, k, t.qty);
  }

  lemma ShareWithin(es: seq<Lot>, k: nat, want: int)
    requires k < |es|
    ensures Share(es, k, want) <= es[k].Remaining()
  {
  }
}
