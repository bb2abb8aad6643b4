/** The mutable order book (exchange/core/book.py). */
module OrderBooks {
  import opened Wrappers
  import opened Orders
  import opened PriceTime
  import opened GreedyLaws
  import opened BookLaws
  import opened BookViews

  type Shelf = map<int, seq<Order>>

  /** The values a queue of orders holds at this moment. */
  ghost function Snaps(os: seq<Order>): (q: seq<Lot>)
    reads os
    ensures |q| == |os| && forall i :: 0 <= i < |os| ==> q[i] == os[i].Snap()
  {
    if os == [] then [] else [os[0].Snap()] + Snaps(os[1..])
  }

  ghost function OrdersOf(shelf: Shelf): set<Order> {
    set p, o | p in shelf && o in shelf[p] :: o
  }

  ghost function SnapLevels(shelf: Shelf): (r: Levels)
    reads OrdersOf(shelf)
    ensures r.Keys == shelf.Keys && forall p :: p in shelf ==> r[p] == Snaps(shelf[p])
  {
    map p | p in shelf :: assert forall o :: o in shelf[p] ==> o in OrdersOf(shelf); Snaps(shelf[p])
  }

  /** Orders sit at their own side and price; both are constants of the order. */
  ghost predicate KeyedLevels(side: Side, shelf: Shelf) {
    forall p, o :: p in shelf && o in shelf[p] ==> o.ticket.side == side && o.ticket.price == Some(p)
  }

  function ShelfAt(shelf: Shelf, price: int): seq<Order> { if price in shelf then shelf[price] else [] }

  function SetShelf(shelf: Shelf, price: int, os: seq<Order>): Shelf {
    if os != [] then shelf[price := os] else shelf - {price}
  }

  function RemoveFirst(os: seq<Order>, o: Order): (r: seq<Order>)
    ensures forall x :: x in r ==> x in os
  {
    if os == [] then [] else if os[0] == o then os[1..] else [os[0]] + RemoveFirst(os[1..], o)
  }

  lemma SnapsAppend(os: seq<Order>, o: Order)
    ensures Snaps(os + [o]) == Snaps(os) + [o.Snap()]
  {
  }

  /** Queues and shelves whose orders have not changed hold the same values. */
  twostate lemma StillSnaps(os: seq<Order>)
    requires forall o :: o in os ==> o.filled == old(o.filled) && o.arrival == old(o.arrival)
    ensures Snaps(os) == old(Snaps(os))
  {
  }

  twostate lemma StillLevels(shelf: Shelf)
    requires forall p, o :: p in shelf && o in shelf[p] ==> o.filled == old(o.filled) && o.arrival == old(o.arrival)
    ensures SnapLevels(shelf) == old(SnapLevels(shelf))
  {
    forall p | p in shelf
      ensures Snaps(shelf[p]) == old(Snaps(shelf[p]))
    {
      StillSnaps(shelf[p]);
    }
  }

  lemma SnapLevelsSet(shelf: Shelf, price: int, os: seq<Order>)
    ensures SnapLevels(SetShelf(shelf, price, os)) == SetLevel(SnapLevels(shelf), price, Snaps(os))
    ensures OrdersOf(SetShelf(shelf, price, os)) <= OrdersOf(shelf) + set o | o in os
  {
    SetWithin(shelf, price, os);
    hide Snaps, OrdersOf;
    SameMap(SnapLevels(SetShelf(shelf, price, os)), SetLevel(SnapLevels(shelf), price, Snaps(os)));
  }

  lemma SetWithin(shelf: Shelf, price: int, os: seq<Order>)
    ensures OrdersOf(SetShelf(shelf, price, os)) <= OrdersOf(shelf) + set o | o in os
  {
  }

  lemma OrdersOfAppend(shelf: Shelf, price: int, o: Order)
    ensures OrdersOf(shelf[price := ShelfAt(shelf, price) + [o]]) == OrdersOf(shelf) + {o}
  {
    var next := shelf[price := ShelfAt(shelf, price) + [o]];
    forall x
      ensures x in OrdersOf(next) <==> x in OrdersOf(shelf) || x == o
    {
      if x in OrdersOf(shelf) {
        var p :| p in shelf && x in shelf[p];
        assert p in next && x in next[p];
      }
      if x == o {
        assert price in next && x in next[price];
      }
    }
  }

  lemma Absent(shelf: Shelf, order: Order)
    requires order !in OrdersOf(shelf)
    ensures forall p, o :: p in shelf && o in shelf[p] ==> o != order
  {
  }

  lemma KeyedLevel(side: Side, shelf: Shelf, price: int)
    requires KeyedLevels(side, shelf)
    ensures forall o :: o in ShelfAt(shelf, price) ==> o.ticket.side == side && o.ticket.price == Some(price)
  {
  }

  lemma KeyedSet(side: Side, shelf: Shelf, price: int, os: seq<Order>)
    requires KeyedLevels(side, shelf)
    requires forall o :: o in os ==> o.ticket.side == side && o.ticket.price == Some(price)
    ensures KeyedLevels(side, SetShelf(shelf, price, os))
  {
  }

  class OrderBook {
    const exchangeId: int
    var bids: Shelf
    var asks: Shelf
    var clock: nat

    constructor (exchangeId: int)
      ensures this.exchangeId == exchangeId
      ensures Keyed() && Contents() == Book(map[], map[], 0) && Orders() == {}
    {
      this.exchangeId := exchangeId;
      bids, asks, clock := map[], map[], 0;
    }

    function On(side: Side): Shelf
      reads this
    {
      if side.BUY? then bids else asks
    }

    ghost function Orders(): set<Order>
      reads this
    {
      OrdersOf(bids) + OrdersOf(asks)
    }

    ghost predicate Keyed()
      reads this
    {
      KeyedLevels(BUY, bids) && KeyedLevels(SELL, asks)
    }

    /** The book as a value. */
    ghost function Contents(): Book
      reads this, Orders()
    {
      Book(SnapLevels(bids), SnapLevels(asks), clock)
    }

    /** Park an order at the tail of its level, tagged with the next arrival number. */
    method Add(order: Order) returns (err: Raised)
      requires Keyed() && order !in Orders()
      modifies this`bids, this`asks, this`clock, order`arrival
      ensures Keyed()
      ensures err == if !Validates(order.ticket) then ValueError
                     else if order.ticket.price.None? then AssertionError else Fine
      ensures err == Fine ==> Contents() == AddLot(old(Contents()), old(order.Snap()))
                              && Orders() == old(Orders()) + {order}
      ensures err != Fine ==>
                Contents() == old(Contents()) && Orders() == old(Orders()) && order.arrival == old(order.arrival)
    {
      err := order.Validate();
      if err != Fine {
        return;
      }
      if order.ticket.price.None? {
        return AssertionError;
      }
      Append(order, order.ticket.price.value);
    }

    method Append(order: Order, price: int)
      requires Keyed() && order !in Orders() && order.ticket.price == Some(price)
      modifies this`bids, this`asks, this`clock, order`arrival
      ensures Keyed()
      ensures Contents() == AddLot(old(Contents()), old(order.Snap()))
      ensures Orders() == old(Orders()) + {order}
    {
      hide Snaps, SnapLevels, OrdersOf, KeyedLevels;
      ghost var side := order.ticket.side;
      ghost var was, still := On(side), On(side.Opposite());
      ghost var lots, others := SnapLevels(was), SnapLevels(still);
      OrdersOfAppend(was, price, order);
      Absent(was, order);
      Absent(still, order);
      KeyedLevel(side, was, price);
      KeyedSet(side, was, price, ShelfAt(was, price) + [order]);
      if order.ticket.side == BUY {
        bids := bids[price := ShelfAt(bids, price) + [order]];
      } else {
        asks := asks[price := ShelfAt(asks, price) + [order]];
      }
      clock := clock + 1;
      order.arrival := clock;
      StillLevels(was);
      StillLevels(still);
      SnapLevelsSet(was, price, ShelfAt(was, price) + [order]);
      SnapsAppend(ShelfAt(was, price), order);
      assert On(side) == SetShelf(was, price, ShelfAt(was, price) + [order]) && On(side.Opposite()) == still;
      assert Contents().On(side) == SetLevel(lots, price, LevelAt(lots, price) + [order.Snap()]);
      assert Contents().On(side.Opposite()) == others;
    }

    /** Drop a fully filled order from its level; the level goes with its last order. */
    method RemoveFilled(order: Order) returns (err: Raised)
      modifies this`bids, this`asks
      ensures err == if order.Remaining() == 0 && order.ticket.price.None? then AssertionError else Fine
      ensures var side := order.ticket.side; var was := old(On(side));
              && On(side.Opposite()) == old(On(side.Opposite()))
              && On(side) == if err != Fine || order.Remaining() > 0 then was
                             else var p := order.ticket.price.value;
                                  if order in ShelfAt(was, p) then SetShelf(was, p, RemoveFirst(was[p], order)) else was
    {
      if order.Remaining() > 0 {
        return Fine;
      }
      if order.ticket.price.None? {
        return AssertionError;
      }
      err := Fine;
      var price, shelf := order.ticket.price.value, On(order.ticket.side);
      var level := ShelfAt(shelf, price);
      if level != [] && order in level {
        ReplaceLevel(order.ticket.side, price, RemoveFirst(level, order));
      }
    }

    /** Replace one level; an empty one is dropped. */
    method ReplaceLevel(side: Side, price: int, orders: seq<Order>)
      modifies this`bids, this`asks
      ensures On(side) == SetShelf(old(On(side)), price, orders)
      ensures On(side.Opposite()) == old(On(side.Opposite()))
    {
      if side == BUY {
        bids := SetShelf(bids, price, orders);
      } else {
        asks := SetShelf(asks, price, orders);
      }
    }

    // -------------------------------------------------------------- reading

    function BestBid(): Option<int>
      reads this
    {
      if bids.Keys == {} then None else Some(PriorityPrices(SELL, bids.Keys)[0])
    }

    function BestAsk(): Option<int>
      reads this
    {
      if asks.Keys == {} then None else Some(PriorityPrices(BUY, asks.Keys)[0])
    }

    function Depth(): int
      reads this
    {
      Sizes(bids, Ascending(bids.Keys)) + Sizes(asks, Ascending(asks.Keys))
    }

    function TakeSnapshot(): Snapshot
      reads this, Orders()
    {
      Snapshot(ShowShelf(bids, PriorityPrices(SELL, bids.Keys)), ShowShelf(asks, PriorityPrices(BUY, asks.Keys)))
    }

    /** The best quotes are the extremes over the flat set of live orders. */
    lemma BestQuotes()
      requires Indexed(Contents())
      ensures BestBid().None? <==> Live(Contents(), BUY) == {}
      ensures BestAsk().None? <==> Live(Contents(), SELL) == {}
      ensures BestBid().Some? ==> (exists m :: m in Live(Contents(), BUY) && m.t.price == BestBid())
                                  && forall m :: m in Live(Contents(), BUY) ==>
                                         m.t.price.Some? && m.t.price.value <= BestBid().value
      ensures BestAsk().Some? ==> (exists m :: m in Live(Contents(), SELL) && m.t.price == BestAsk())
                                  && forall m :: m in Live(Contents(), SELL) ==>
                                         m.t.price.Some? && m.t.price.value >= BestAsk().value
    {
      FirstIsBest(Contents(), BUY, PriorityPrices(SELL, bids.Keys));
      FirstIsBest(Contents(), SELL, PriorityPrices(BUY, asks.Keys));
    }

    /** The depth is the number of live orders. */
    lemma DepthCountsOrders()
      requires Indexed(Contents())
      ensures Depth() == |Live(Contents(), BUY)| + |Live(Contents(), SELL)|
    {
      SizesAre(bids, Ascending(bids.Keys));
      SizesAre(asks, Ascending(asks.Keys));
      DepthIsCount(Contents(), BUY, Ascending(bids.Keys));
      DepthIsCount(Contents(), SELL, Ascending(asks.Keys));
    }

    /** The snapshot aggregates the flat set of live orders. */
    lemma SnapshotShows()
      requires Indexed(Contents())
      ensures TakeSnapshot() == SnapshotOf(Contents())
      ensures Shows(TakeSnapshot().bids, Contents(), BUY) && Shows(TakeSnapshot().asks, Contents(), SELL)
    {
      ShowShelfIs(bids, PriorityPrices(SELL, bids.Keys));
      ShowShelfIs(asks, PriorityPrices(BUY, asks.Keys));
      SnapshotAggregates(Contents());
    }
  }

  function Sizes(shelf: Shelf, prices: seq<int>): int {
    if prices == [] then 0 else |ShelfAt(shelf, prices[0])| + Sizes(shelf, prices[1..])
  }

  lemma {:induction false} SizesAre(shelf: Shelf, prices: seq<int>)
    ensures Sizes(shelf, prices) == Depths(SnapLevels(shelf), prices)
  {
    if prices != [] {
      SizesAre(shelf, prices[1..]);
    }
  }

  function Left(os: seq<Order>): int
    reads os
  {
    if os == [] then 0 else os[0].Remaining() + Left(os[1..])
  }

  function ShowShelf(shelf: Shelf, prices: seq<int>): seq<Shown>
    reads OrdersOf(shelf)
  {
    if prices == [] then []
    else
      assert forall o :: o in ShelfAt(shelf, prices[0]) ==> o in OrdersOf(shelf);
      [Shown(prices[0], Left(ShelfAt(shelf, prices[0])))] + ShowShelf(shelf, prices[1..])
  }

  lemma {:induction false} LeftIs(os: seq<Order>)
    ensures Left(os) == Quantity(Snaps(os))
  {
    if os != [] {
      LeftIs(os[1..]);
      assert Snaps(os)[1..] == Snaps(os[1..]);
    }
  }

  lemma {:induction false} ShowShelfIs(shelf: Shelf, prices: seq<int>)
    ensures ShowShelf(shelf, prices) == ShowAll(SnapLevels(shelf), prices)
  {
    if prices != [] {
      ShowShelfIs(shelf, prices[1..]);
      LeftIs(ShelfAt(shelf, prices[0]));
    }
  }

  /** The first price of a priority list is the best among the live orders of that side. */
  lemma FirstIsBest(b: Book, side: Side, prices: seq<int>)
    requires Indexed(b) && Lists(prices, b.On(side).Keys)
    requires if side.BUY? then Decreasing(prices) else Increasing(prices)
    ensures prices == [] <==> Live(b, side) == {}
    ensures prices != [] ==> exists m :: m in Live(b, side) && m.t.price == Some(prices[0])
    ensures forall m :: m in Live(b, side) ==>
              (prices != [] && m.t.price.Some?
               && if side.BUY? then m.t.price.value <= prices[0] else m.t.price.value >= prices[0])
  {
    if prices != [] {
      assert prices[0] in prices;
      var m := b.On(side)[prices[0]][0];
      HasOn(b, side, prices[0], m);
      LiveHas(b, side, m);
    }
    forall m | m in Live(b, side)
      ensures prices != [] && m.t.price.Some?
              && if side.BUY? then m.t.price.value <= prices[0] else m.t.price.value >= prices[0]
    {
      LiveHas(b, side, m);
      assert m.t.price.value in prices;
    }
  }
}
