/** The index agrees with the flat set of live orders. */
module BookViews {
  import opened Wrappers
  import opened Orders
  import opened PriceTime
  import opened GreedyLaws
  import opened BookLaws
  import opened Sums

  ghost function LevelSet(q: seq<Lot>): set<Lot> { set m | m in q }

  /** The live orders of one side, as a flat set. */
  ghost function Live(b: Book, side: Side): set<Lot> {
    set p, m | p in b.On(side) && m in b.On(side)[p] :: m
  }

  ghost function LiveAt(b: Book, side: Side, price: int): set<Lot> {
    set m | m in Live(b, side) && m.t.price == Some(price)
  }

  lemma LiveHas(b: Book, side: Side, m: Lot)
    requires Indexed(b)
    ensures m in Live(b, side) <==> Has(b, m) && m.t.side == side
  {
    if m in Live(b, side) {
      var p :| p in b.On(side) && m in b.On(side)[p];
      HasOn(b, side, p, m);
    }
  }

  function Depths(levels: Levels, prices: seq<int>): int {
    if prices == [] then 0 else |LevelAt(levels, prices[0])| + Depths(levels, prices[1..])
  }

  lemma {:induction false} DistinctCount(q: seq<Lot>)
    requires forall i, j :: 0 <= i < j < |q| ==> q[i].arrival < q[j].arrival
    ensures |LevelSet(q)| == |q|
    ensures SumInt(LevelSet(q), (m: Lot) => m.Remaining()) == Quantity(q)
  {
    if q != [] {
      DistinctCount(q[1..]);
      assert LevelSet(q) == {q[0]} + LevelSet(q[1..]);
      assert q[0] !in LevelSet(q[1..]);
      assert LevelSet(q) - {q[0]} == LevelSet(q[1..]);
      SumIntPick(LevelSet(q), (m: Lot) => m.Remaining(), q[0]);
    }
  }

  lemma LiveAtLevel(b: Book, side: Side, price: int)
    requires Indexed(b)
    ensures LiveAt(b, side, price) == LevelSet(LevelAt(b.On(side), price))
  {
    forall m
      ensures m in LiveAt(b, side, price) <==> m in LevelAt(b.On(side), price)
    {
      LiveHas(b, side, m);
      if m in LevelAt(b.On(side), price) {
        HasOn(b, side, price, m);
      }
    }
  }

  /** What a level shows is what its live orders have left. */
  lemma LevelSize(b: Book, side: Side, price: int)
    requires Indexed(b)
    ensures Quantity(LevelAt(b.On(side), price)) == SumInt(LiveAt(b, side, price), (m: Lot) => m.Remaining())
    ensures price in b.On(side) <==> LiveAt(b, side, price) != {}
  {
    LiveAtLevel(b, side, price);
    var q := LevelAt(b.On(side), price);
    DistinctCount(q);
    if price in b.On(side) {
      assert q[0] in LevelSet(q);
    }
  }

  ghost function Among(b: Book, side: Side, prices: seq<int>): set<Lot> {
    set m | m in Live(b, side) && m.t.price.Some? && m.t.price.value in prices
  }

  lemma AmongSplit(b: Book, side: Side, p: int, ps: seq<int>)
    requires p !in ps
    ensures Among(b, side, [p] + ps) == LiveAt(b, side, p) + Among(b, side, ps)
    ensures LiveAt(b, side, p) !! Among(b, side, ps)
  {
    assert forall q :: q in [p] + ps <==> q == p || q in ps;
  }

  lemma {:induction false} DepthCounts(b: Book, side: Side, prices: seq<int>)
    requires Indexed(b) && Distinct(prices)
    ensures Depths(b.On(side), prices) == |Among(b, side, prices)|
  {
    if prices == [] {
      assert Among(b, side, prices) == {};
    } else {
      var p, ps := prices[0], prices[1..];
      assert p !in ps && prices == [p] + ps;
      DepthCounts(b, side, ps);
      AmongSplit(b, side, p, ps);
      LiveLevelCount(b, side, p);
    }
  }

  lemma LiveLevelCount(b: Book, side: Side, price: int)
    requires Indexed(b)
    ensures |LiveAt(b, side, price)| == |LevelAt(b.On(side), price)|
  {
    LiveAtLevel(b, side, price);
    DistinctCount(LevelAt(b.On(side), price));
  }

  /** The sizes of the levels add up to the number of live orders. */
  lemma DepthIsCount(b: Book, side: Side, prices: seq<int>)
    requires Indexed(b) && Distinct(prices) && Lists(prices, b.On(side).Keys)
    ensures Depths(b.On(side), prices) == |Live(b, side)|
  {
    DepthCounts(b, side, prices);
    forall m | m in Live(b, side)
      ensures m.t.price.Some? && m.t.price.value in prices
    {
      LiveHas(b, side, m);
    }
    assert Among(b, side, prices) == Live(b, side);
  }

  datatype Shown = Shown(price: int, size: int)
  datatype Snapshot = Snapshot(bids: seq<Shown>, asks: seq<Shown>)

  function ShowAll(levels: Levels, prices: seq<int>): (r: seq<Shown>)
    ensures |r| == |prices|
    ensures forall i :: 0 <= i < |prices| ==> r[i] == Shown(prices[i], Quantity(LevelAt(levels, prices[i])))
  {
    if prices == [] then []
    else [Shown(prices[0], Quantity(LevelAt(levels, prices[0])))] + ShowAll(levels, prices[1..])
  }

  /** Bids downward, asks upward. */
  function SnapshotOf(b: Book): Snapshot {
    Snapshot(ShowAll(b.bids, PriorityPrices(SELL, b.bids.Keys)), ShowAll(b.asks, PriorityPrices(BUY, b.asks.Keys)))
  }

  ghost predicate Shows(shown: seq<Shown>, b: Book, side: Side) {
    && (forall i, j :: 0 <= i < j < |shown| ==>
          if side.BUY? then shown[i].price > shown[j].price else shown[i].price < shown[j].price)
    && (forall i :: 0 <= i < |shown| ==>
          && LiveAt(b, side, shown[i].price) != {}
          && shown[i].size == SumInt(LiveAt(b, side, shown[i].price), (m: Lot) => m.Remaining()))
    && (forall m :: m in Live(b, side) ==> exists i :: 0 <= i < |shown| && m.t.price == Some(shown[i].price))
  }

  /** The snapshot aggregates the flat set of live orders: each price with live orders once, in order,
      with their total remaining quantity. */
  lemma SnapshotAggregates(b: Book)
    requires Indexed(b)
    ensures Shows(SnapshotOf(b).bids, b, BUY) && Shows(SnapshotOf(b).asks, b, SELL)
  {
    SideAggregates(b, BUY, PriorityPrices(SELL, b.bids.Keys));
    SideAggregates(b, SELL, PriorityPrices(BUY, b.asks.Keys));
  }

  lemma SideAggregates(b: Book, side: Side, prices: seq<int>)
    requires Indexed(b) && Lists(prices, b.On(side).Keys)
    requires if side.BUY? then Decreasing(prices) else Increasing(prices)
    ensures Shows(ShowAll(b.On(side), prices), b, side)
  {
    var shown := ShowAll(b.On(side), prices);
    forall i | 0 <= i < |shown|
      ensures LiveAt(b, side, shown[i].price) != {}
      ensures shown[i].size == SumInt(LiveAt(b, side, shown[i].price), (m: Lot) => m.Remaining())
    {
      assert prices[i] in prices;
      LevelSize(b, side, prices[i]);
    }
    forall m | m in Live(b, side)
      ensures exists i :: 0 <= i < |shown| && m.t.price == Some(shown[i].price)
    {
      LiveHas(b, side, m);
      var i :| 0 <= i < |prices| && prices[i] == m.t.price.value;
      assert shown[i].price == prices[i];
    }
  }
}
