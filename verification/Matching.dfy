/** The matching engine (exchange/core/matching.py) on mutable orders and a mutable book. */
module Matching {
  import opened Wrappers
  import opened Orders
  import opened PriceTime
  import opened GreedyLaws
  import opened BookLaws
  import opened MatchLaws
  import opened BookViews
  import opened OrderBooks

  datatype Event =
    | Trade(fill: Fill)
    | Rejected(id: string, reason: string)
    | Rested(id: string, side: Side)
    | Accepted(id: string, filled: int)
    | BookShown(snapshot: Snapshot)

  function Trades(fills: seq<Fill>): (r: seq<Event>)
    ensures |r| == |fills| && forall i :: 0 <= i < |r| ==> r[i] == Trade(fills[i])
  {
    seq(|fills|, i requires 0 <= i < |fills| => Trade(fills[i]))
  }

  /** The bus log `log` after the trades of `fills`. */
  function Told(log: seq<Event>, hasBus: bool, fills: seq<Fill>): seq<Event> {
    log + (if hasBus then Trades(fills) else [])
  }

  lemma ToldMore(log: seq<Event>, hasBus: bool, a: seq<Fill>, b: seq<Fill>)
    ensures Told(Told(log, hasBus, a), hasBus, b) == Told(log, hasBus, a + b)
    ensures Told(log, hasBus, []) == log
  {
    assert Trades(a + b) == Trades(a) + Trades(b);
    assert Trades([]) == [];
  }

  lemma ToldOne(log: seq<Event>, hasBus: bool, a: seq<Fill>, f: Fill)
    ensures Told(log, hasBus, a + [f]) == Told(log, hasBus, a) + (if hasBus then [Trade(f)] else [])
  {
    ToldMore(log, hasBus, a, [f]);
    assert Trades([f]) == [Trade(f)];
  }

  datatype MatchResult = MatchResult(fills: seq<Fill>, rested: bool, fullyFilled: bool)

  const NOTHING := MatchResult([], false, false)

  // ---------------------------------------------------------------- one step of the walk, by position

  /** What a walk comes to when its first part left `rest`, made `fills` and hit `hit`. */
  function Onto(rest: seq<Lot>, fills: seq<Fill>, hit: seq<Lot>, r: Swept): Swept {
    Swept(rest + r.rest, fills + r.fills, hit + r.hit, r.left)
  }

  lemma PassStep(t: Ticket, ex: Exchange, lots: seq<Lot>, j: nat, want: int, rest: seq<Lot>, fills: seq<Fill>,
                 hit: seq<Lot>)
    requires Priced(lots) && j < |lots| && !(want > 0 && Eligible(t, ex, lots[j]))
    ensures Onto(rest, fills, hit, Walk(t, ex, lots[j..], want))
            == Onto(rest + [lots[j]], fills, hit, Walk(t, ex, lots[j + 1..], want))
  {
    assert lots[j..][1..] == lots[j + 1..];
    Assoc(rest, [lots[j]], Walk(t, ex, lots[j + 1..], want).rest);
  }

  lemma WalkTrade(t: Ticket, ex: Exchange, q: seq<Lot>, want: int)
    requires Priced(q) && q != [] && want > 0 && Eligible(t, ex, q[0])
    ensures var m := q[0]; var take := Min(want, m.Remaining()); var after := m.(filled := m.filled + take);
            var r := Walk(t, ex, q[1..], want - take);
            Walk(t, ex, q, want) == Swept((if after.Remaining() == 0 then [] else [after]) + r.rest,
                                           [FillOf(ex, t, m, take)] + r.fills, [m] + r.hit, r.left)
  {
  }

  lemma TradeStep(t: Ticket, ex: Exchange, lots: seq<Lot>, j: nat, want: int, rest: seq<Lot>, fills: seq<Fill>,
                  hit: seq<Lot>)
    requires Priced(lots) && j < |lots| && want > 0 && Eligible(t, ex, lots[j])
    ensures var m := lots[j]; var take := Min(want, m.Remaining()); var after := m.(filled := m.filled + take);
            Onto(rest, fills, hit, Walk(t, ex, lots[j..], want))
            == Onto(if after.Remaining() == 0 then rest else rest + [after], fills + [FillOf(ex, t, m, take)],
                    hit + [m], Walk(t, ex, lots[j + 1..], want - take))
  {
    hide Walk, Eligible, FillOf;
    var q := lots[j..];
    assert q[0] == lots[j] && q[1..] == lots[j + 1..];
    WalkTrade(t, ex, q, want);
    var m := lots[j];
    var take := Min(want, m.Remaining());
    var after := m.(filled := m.filled + take);
    var r := Walk(t, ex, lots[j + 1..], want - take);
    Assoc(rest, [after], r.rest);
    assert [] + r.rest == r.rest;
    Assoc(fills, [FillOf(ex, t, m, take)], r.fills);
    Assoc(hit, [m], r.hit);
  }

  /** Either step. */
  lemma NextStep(t: Ticket, ex: Exchange, lots: seq<Lot>, j: nat, want: int, rest: seq<Lot>, fills: seq<Fill>,
                 hit: seq<Lot>)
    requires Priced(lots) && j < |lots|
    ensures var m := lots[j]; var trades := want > 0 && Eligible(t, ex, m);
            var take := Min(want, m.Remaining()); var after := m.(filled := m.filled + take);
            Onto(rest, fills, hit, Walk(t, ex, lots[j..], want))
            == if trades then Onto(if after.Remaining() == 0 then rest else rest + [after],
                                   fills + [FillOf(ex, t, m, take)], hit + [m], Walk(t, ex, lots[j + 1..], want - take))
               else Onto(rest + [m], fills, hit, Walk(t, ex, lots[j + 1..], want))
    ensures CountsBefore(hit + [lots[j]]) == CountsBefore(hit) + [(lots[j].t.id, lots[j].filled)]
  {
    if want > 0 && Eligible(t, ex, lots[j]) {
      TradeStep(t, ex, lots, j, want, rest, fills, hit);
    } else {
      PassStep(t, ex, lots, j, want, rest, fills, hit);
    }
  }

  lemma WalkEnd(t: Ticket, ex: Exchange, lots: seq<Lot>, want: int, rest: seq<Lot>, fills: seq<Fill>, hit: seq<Lot>)
    requires Priced(lots)
    ensures Onto(rest, fills, hit, Walk(t, ex, lots[|lots|..], want)) == Swept(rest, fills, hit, want)
  {
  }

  lemma WalkStart(t: Ticket, ex: Exchange, lots: seq<Lot>, want: int)
    requires Priced(lots)
    ensures Walk(t, ex, lots, want) == Onto([], [], [], Walk(t, ex, lots[0..], want))
  {
    assert lots[0..] == lots;
  }

  /** The makers' fill counts as they stood before they traded. */
  function CountsBefore(hit: seq<Lot>): (r: seq<(string, int)>)
    ensures |r| == |hit| && forall k :: 0 <= k < |r| ==> r[k] == (hit[k].t.id, hit[k].filled)
  {
    seq(|hit|, k requires 0 <= k < |hit| => (hit[k].t.id, hit[k].filled))
  }

  /** Every maker hit is remembered under its id, as one of the orders `among`. */
  ghost predicate Held(hit: seq<Lot>, consumed: map<string, Order>, among: set<Order>) {
    forall k :: 0 <= k < |hit| ==> hit[k].t.id in consumed && consumed[hit[k].t.id] in among
                                   && consumed[hit[k].t.id].ticket == hit[k].t
  }

  lemma HeldWider(hit: seq<Lot>, consumed: map<string, Order>, among: set<Order>, more: set<Order>)
    requires Held(hit, consumed, among) && among <= more
    ensures Held(hit, consumed, more)
  {
  }

  /** What is held stays held if the taker passes by, and grows by the maker if it is consumed. */
  lemma NextHeld(prior: seq<Lot>, hit: seq<Lot>, consumed: map<string, Order>, among: set<Order>, m: Lot, o: Order,
                 want: int)
    requires want > 0 ==> Held(prior + hit, consumed, among)
    requires o.ticket == m.t && forall x :: x in among ==> x.ticket.id != o.ticket.id
    ensures want > 0 ==> Held(prior + hit, consumed, among + {o})
    ensures want > 0 ==> Held(prior + (hit + [m]), consumed[m.t.id := o], among + {o})
  {
    assert prior + hit + [m] == prior + (hit + [m]);
  }

  ghost predicate DistinctOrders(level: seq<Order>) {
    forall i, j :: 0 <= i < j < |level| ==> level[i].ticket.id != level[j].ticket.id
  }

  /** The orders from position `j` on are as they were when the walk began. */
  ghost predicate Pending(level: seq<Order>, lots: seq<Lot>, j: nat)
    reads level
  {
    |lots| == |level| && forall k :: j <= k < |level| ==> level[k].Snap() == lots[k]
  }

  /** The orders put back so far, all among those visited. */
  ghost predicate Parked(still: seq<Order>, lots: seq<Lot>, done: set<Order>)
    reads still
  {
    |still| == |lots| && forall k :: 0 <= k < |still| ==> still[k] in done && still[k].Snap() == lots[k]
  }

  /** The visited orders: all `within`, none sharing an id with an order still to come. */
  ghost predicate Apart(done: set<Order>, level: seq<Order>, j: nat, within: set<Order>) {
    && (forall o :: o in done ==> o in within)
    && (forall o, k :: o in done && j <= k < |level| ==> o.ticket.id != level[k].ticket.id)
  }

  lemma StartLevel(level: seq<Order>, lots: seq<Lot>, done: set<Order>, within: set<Order>,
                   consumed: map<string, Order>, prior: seq<Lot>)
    requires lots == Snaps(level) && Apart(done, level, 0, within) && Held(prior, consumed, done)
    ensures Pending(level, lots, 0) && Parked([], [], done) && Held(prior + [], consumed, done)
            && CountsBefore([]) == []
  {
    assert prior + [] == prior;
  }

  lemma EndLevel(still: seq<Order>, lots: seq<Lot>, done: set<Order>, level: seq<Order>, within: set<Order>)
    requires Parked(still, lots, done) && Apart(done, level, |level|, within)
    ensures Snaps(still) == lots && done <= within
  {
  }

  lemma ApartNext(done: set<Order>, level: seq<Order>, j: nat, within: set<Order>)
    requires Apart(done, level, j, within) && j < |level| && level[j] in within && DistinctOrders(level)
    ensures Apart(done + {level[j]}, level, j + 1, within)
    ensures level[j] !in done && forall o :: o in done ==> o.ticket.id != level[j].ticket.id
  {
  }

  /** A queue whose orders hold the values `q` holds `q`. */
  lemma SnapsAre(os: seq<Order>, q: seq<Lot>)
    requires |os| == |q| && forall k :: 0 <= k < |os| ==> os[k].Snap() == q[k]
    ensures Snaps(os) == q
  {
  }

  lemma SetLevelSame(a: Levels, b: Levels, price: int, q: seq<Lot>)
    requires a.Keys == b.Keys && forall p :: p in a && p != price ==> a[p] == b[p]
    ensures SetLevel(a, price, q) == SetLevel(b, price, q)
  {
    var x, y := SetLevel(a, price, q), SetLevel(b, price, q);
    assert x.Keys == y.Keys;
    assert forall p :: p in x ==> x[p] == y[p];
  }

  /** Replacing one level by orders of that level, when every other level still holds what it held. */
  lemma SweptShelf(was: Shelf, lots: Levels, price: int, still: seq<Order>)
    requires was.Keys == lots.Keys && forall p :: p in was && p != price ==> Snaps(was[p]) == lots[p]
    ensures SnapLevels(SetShelf(was, price, still)) == SetLevel(lots, price, Snaps(still))
  {
    hide SetShelf, SetLevel;
    SnapLevelsSet(was, price, still);
    SetLevelSame(SnapLevels(was), lots, price, Snaps(still));
  }

  lemma SnapLevelsAre(shelf: Shelf, lots: Levels)
    requires shelf.Keys == lots.Keys && forall p :: p in shelf ==> Snaps(shelf[p]) == lots[p]
    ensures SnapLevels(shelf) == lots
  {
    var r := SnapLevels(shelf);
    assert r.Keys == lots.Keys && forall p :: p in r ==> r[p] == lots[p];
    SameMap(r, lots);
  }

  lemma BookBySides(b: Book, was: Book, side: Side, levels: Levels)
    requires b.On(side) == levels && b.On(side.Opposite()) == was.On(side.Opposite()) && b.clock == was.clock
    ensures b == was.With(side, levels)
  {
  }

  /** No order elsewhere in the book is at this level, or is the taker. */
  lemma Elsewhere(side: Side, shelf: Shelf, other: Shelf, price: int, taker: Order)
    requires KeyedLevels(side, shelf) && KeyedLevels(side.Opposite(), other) && price in shelf
    requires taker !in OrdersOf(shelf) && taker !in OrdersOf(other)
    ensures forall p, k :: p in shelf && p != price && 0 <= k < |shelf[p]| ==>
              shelf[p][k] in OrdersOf(shelf) && shelf[p][k] !in shelf[price] && shelf[p][k] != taker
    ensures forall p, k :: p in other && 0 <= k < |other[p]| ==>
              other[p][k] in OrdersOf(other) && other[p][k] !in shelf[price] && other[p][k] != taker
    ensures forall o :: o in shelf[price] ==>
              o in OrdersOf(shelf) && o.ticket.side == side && o.ticket.price == Some(price)
  {
    forall p, k | p in shelf && p != price && 0 <= k < |shelf[p]|
      ensures shelf[p][k] in OrdersOf(shelf) && shelf[p][k] !in shelf[price]
    {
      var o := shelf[p][k];
      assert o in shelf[p] && o.ticket.price == Some(p);
    }
    forall p, k | p in other && 0 <= k < |other[p]|
      ensures other[p][k] in OrdersOf(other) && other[p][k] !in shelf[price]
    {
      var o := other[p][k];
      assert o in other[p] && o.ticket.side == side.Opposite();
    }
  }

  /** The book after one level was replaced and every other order stayed as it was. */
  lemma ContentsAfter(b: OrderBook, was: Book, side: Side, shelf: Shelf, lots: Levels, other: Shelf, others: Levels,
                      price: int, still: seq<Order>)
    requires b.On(side) == SetShelf(shelf, price, still) && b.On(side.Opposite()) == other && b.clock == was.clock
    requires was.On(side) == lots && was.On(side.Opposite()) == others
    requires shelf.Keys == lots.Keys && other.Keys == others.Keys
    requires forall p :: p in shelf ==> |shelf[p]| == |lots[p]|
    requires forall p :: p in other ==> |other[p]| == |others[p]|
    requires forall p, k :: p in shelf && p != price && 0 <= k < |shelf[p]| ==> shelf[p][k].Snap() == lots[p][k]
    requires forall p, k :: p in other && 0 <= k < |other[p]| ==> other[p][k].Snap() == others[p][k]
    ensures b.Contents() == was.With(side, SetLevel(was.On(side), price, Snaps(still)))
  {
    hide SetShelf, SetLevel;
    forall p | p in shelf && p != price
      ensures Snaps(shelf[p]) == was.On(side)[p]
    {
      SnapsAre(shelf[p], was.On(side)[p]);
    }
    forall p | p in other
      ensures Snaps(other[p]) == was.On(side.Opposite())[p]
    {
      SnapsAre(other[p], was.On(side.Opposite())[p]);
    }
    SweptShelf(shelf, was.On(side), price, still);
    SnapLevelsAre(other, was.On(side.Opposite()));
    BookBySides(b.Contents(), was, side, SetLevel(was.On(side), price, Snaps(still)));
  }

  // ---------------------------------------------------------------- the sweep, price by price

  function OntoBook(fills: seq<Fill>, hit: seq<Lot>, r: BookSweep): BookSweep {
    BookSweep(r.levels, fills + r.fills, hit + r.hit, r.left)
  }

  ghost predicate NoEmpty(levels: Levels) { forall p :: p in levels ==> levels[p] != [] }

  lemma SweepStart(t: Ticket, ex: Exchange, levels: Levels, prices: seq<int>, want: int)
    requires PricedLevels(levels)
    ensures SweepLevels(t, ex, levels, prices, want) == OntoBook([], [], SweepLevels(t, ex, levels, prices[0..], want))
  {
    assert prices[0..] == prices;
  }

  lemma SweepNext(t: Ticket, ex: Exchange, levels: Levels, prices: seq<int>, i: nat, want: int, fills: seq<Fill>,
                  hit: seq<Lot>)
    requires PricedLevels(levels) && NoEmpty(levels) && i < |prices|
    ensures var w := Walk(t, ex, LevelAt(levels, prices[i]), want);
            var next := SetLevel(levels, prices[i], w.rest);
            && PricedLevels(next) && NoEmpty(next)
            && OntoBook(fills, hit, SweepLevels(t, ex, levels, prices[i..], want))
               == OntoBook(fills + w.fills, hit + w.hit, SweepLevels(t, ex, next, prices[i + 1..], w.left))
  {
    var p := prices[i];
    assert prices[i..][1..] == prices[i + 1..] && prices[i..][0] == p;
    WalkPriced(t, ex, LevelAt(levels, p), want);
    var w := Walk(t, ex, LevelAt(levels, p), want);
    var r := SweepLevels(t, ex, SetLevel(levels, p, w.rest), prices[i + 1..], w.left);
    Assoc(fills, w.fills, r.fills);
    Assoc(hit, w.hit, r.hit);
  }

  lemma {:induction false} SweepNothing(t: Ticket, ex: Exchange, levels: Levels, prices: seq<int>, want: int)
    requires PricedLevels(levels) && NoEmpty(levels) && want <= 0
    ensures SweepLevels(t, ex, levels, prices, want) == BookSweep(levels, [], [], want)
    decreases |prices|
  {
    if prices != [] {
      WalkIdle(t, ex, LevelAt(levels, prices[0]), want);
      SameMap(SetLevel(levels, prices[0], LevelAt(levels, prices[0])), levels);
      SweepNothing(t, ex, levels, prices[1..], want);
    }
  }

  lemma SweepStop(t: Ticket, ex: Exchange, levels: Levels, prices: seq<int>, want: int, fills: seq<Fill>, hit: seq<Lot>)
    requires PricedLevels(levels) && NoEmpty(levels) && (prices == [] || want <= 0)
    ensures OntoBook(fills, hit, SweepLevels(t, ex, levels, prices, want)) == BookSweep(levels, fills, hit, want)
  {
    if prices != [] {
      SweepNothing(t, ex, levels, prices, want);
    }
    assert fills + [] == fills && hit + [] == hit;
  }

  lemma CountsConcat(a: seq<Lot>, b: seq<Lot>)
    ensures CountsBefore(a + b) == CountsBefore(a) + CountsBefore(b)
  {
  }

  /** No two orders of a shelf share an id. */
  ghost predicate ShelfApart(shelf: Shelf) {
    forall p, q, i, j :: p in shelf && q in shelf && 0 <= i < |shelf[p]| && 0 <= j < |shelf[q]| && (p != q || i != j)
      ==> shelf[p][i].ticket.id != shelf[q][j].ticket.id
  }

  lemma LotsApart(book: Book, side: Side, p: int, q: int, i: nat, j: nat)
    requires Indexed(book) && p in book.On(side) && q in book.On(side)
    requires i < |book.On(side)[p]| && j < |book.On(side)[q]| && (p != q || i != j)
    ensures book.On(side)[p][i].t.id != book.On(side)[q][j].t.id
  {
    var m, n := book.On(side)[p][i], book.On(side)[q][j];
    HasOn(book, side, p, m);
    HasOn(book, side, q, n);
    if p == q {
      assert LevelOk(side, p, book.On(side)[p], book.clock);
      assert m.arrival != n.arrival;
    }
  }

  lemma ShelfIsApart(b: OrderBook, side: Side)
    requires b.Keyed() && Indexed(b.Contents())
    ensures ShelfApart(b.On(side))
  {
    hide Indexed, KeyedLevels;
    var shelf: Shelf, book: Book := b.On(side), b.Contents();
    forall p, q, i, j | p in shelf && q in shelf && 0 <= i < |shelf[p]| && 0 <= j < |shelf[q]| && (p != q || i != j)
      ensures shelf[p][i].ticket.id != shelf[q][j].ticket.id
    {
      assert book.On(side)[p][i] == shelf[p][i].Snap() && book.On(side)[q][j] == shelf[q][j].Snap();
      LotsApart(book, side, p, q, i, j);
    }
  }

  /** The orders at the first `i` prices. */
  ghost function Seen(shelf: Shelf, prices: seq<int>, i: nat): set<Order>
    requires i <= |prices|
  {
    set k, o | 0 <= k < i && prices[k] in shelf && o in shelf[prices[k]] :: o
  }

  lemma SeenApart(shelf: Shelf, prices: seq<int>, i: nat)
    requires ShelfApart(shelf) && Distinct(prices) && i < |prices| && prices[i] in shelf
    ensures DistinctOrders(shelf[prices[i]])
    ensures Apart(Seen(shelf, prices, i), shelf[prices[i]], 0, Seen(shelf, prices, i + 1))
    ensures forall o :: o in shelf[prices[i]] ==> o in Seen(shelf, prices, i + 1)
  {
    var p := prices[i];
    forall o, k | o in Seen(shelf, prices, i) && 0 <= k < |shelf[p]|
      ensures o.ticket.id != shelf[p][k].ticket.id
    {
      var h :| 0 <= h < i && prices[h] in shelf && o in shelf[prices[h]];
      var j :| 0 <= j < |shelf[prices[h]]| && shelf[prices[h]][j] == o;
      assert prices[h] != p;
    }
  }

  lemma StartSweep(shelf: Shelf, prices: seq<int>, consumed: map<string, Order>, was: Book, side: Side)
    requires Indexed(was)
    ensures Held([], consumed, Seen(shelf, prices, 0)) && CountsBefore([]) == [] && NoEmpty(was.On(side))
  {
  }

  lemma LevelWithin(shelf: Shelf, price: int, orders: set<Order>)
    requires price in shelf && OrdersOf(shelf) <= orders
    ensures forall o :: o in shelf[price] ==> o in orders
  {
    forall o | o in shelf[price]
      ensures o in orders
    {
      assert o in OrdersOf(shelf);
    }
  }

  lemma LevelPriced(levels: Levels, price: int)
    requires PricedLevels(levels)
    ensures Priced(LevelAt(levels, price))
  {
  }

  lemma LaterPrices(shelf: Shelf, prices: seq<int>, i: nat, still: seq<Order>)
    requires Distinct(prices) && i < |prices| && forall k :: i <= k < |prices| ==> prices[k] in shelf
    ensures var after := SetShelf(shelf, prices[i], still);
            forall k :: i < k < |prices| ==> prices[k] in after && after[prices[k]] == shelf[prices[k]]
  {
  }

  lemma SeenWithin(shelf: Shelf, prices: seq<int>, i: nat, orders: set<Order>, hit: seq<Lot>,
                   consumed: map<string, Order>)
    requires i <= |prices| && OrdersOf(shelf) <= orders && Held(hit, consumed, Seen(shelf, prices, i))
    ensures Held(hit, consumed, orders)
  {
    forall o | o in Seen(shelf, prices, i)
      ensures o in orders
    {
      var k :| 0 <= k < i && prices[k] in shelf && o in shelf[prices[k]];
      LevelWithin(shelf, prices[k], orders);
    }
    HeldWider(hit, consumed, Seen(shelf, prices, i), orders);
  }

  // ---------------------------------------------------------------- looking an order up

  function FindIn(os: seq<Order>, id: string): Order? {
    if os == [] then null else if os[0].ticket.id == id then os[0] else FindIn(os[1..], id)
  }

  function FindOn(shelf: Shelf, prices: seq<int>, id: string): Order? {
    if prices == [] then null
    else
      var o := FindIn(ShelfAt(shelf, prices[0]), id);
      if o != null then o else FindOn(shelf, prices[1..], id)
  }

  lemma {:induction false} FindInFinds(os: seq<Order>, id: string)
    ensures var o := FindIn(os, id);
            if o == null then forall x :: x in os ==> x.ticket.id != id else o in os && o.ticket.id == id
  {
    if os != [] {
      FindInFinds(os[1..], id);
    }
  }

  lemma {:induction false} FindOnFinds(shelf: Shelf, prices: seq<int>, id: string)
    ensures var o := FindOn(shelf, prices, id);
            if o == null then forall p, x :: p in prices && p in shelf && x in shelf[p] ==> x.ticket.id != id
            else o in OrdersOf(shelf) && o.ticket.id == id
  {
    if prices != [] {
      FindInFinds(ShelfAt(shelf, prices[0]), id);
      FindOnFinds(shelf, prices[1..], id);
    }
  }

  lemma EmptyShelves(b: OrderBook)
    ensures b.Contents().IsEmpty() <==> b.bids.Keys == {} && b.asks.Keys == {}
  {
    var c := b.Contents();
    assert c.bids.Keys == b.bids.Keys && c.asks.Keys == b.asks.Keys;
    assert c.bids.Keys == {} ==> c.bids == map[];
    assert c.asks.Keys == {} ==> c.asks == map[];
  }

  lemma OrderOn(b: OrderBook, o: Order)
    requires b.Keyed() && o in b.Orders()
    ensures exists p :: p in b.On(o.ticket.side) && o in b.On(o.ticket.side)[p] && o.ticket.price == Some(p)
  {
    if o in OrdersOf(b.bids) {
      var p :| p in b.bids && o in b.bids[p];
      assert p in b.On(o.ticket.side);
    } else {
      var p :| p in b.asks && o in b.asks[p];
      assert p in b.On(o.ticket.side);
    }
  }

  /** Orders in the book show in its contents. */
  lemma OrderShows(b: OrderBook, o: Order)
    requires b.Keyed() && o in b.Orders()
    ensures Has(b.Contents(), o.Snap())
  {
    var side := o.ticket.side;
    OrderOn(b, o);
    hide OrdersOf, KeyedLevels, Snaps;
    var p :| p in b.On(side) && o in b.On(side)[p] && o.ticket.price == Some(p);
    var k :| 0 <= k < |b.On(side)[p]| && b.On(side)[p][k] == o;
    assert b.Contents().On(side)[p][k] == o.Snap();
  }

  /** The arrival tag an order had is forgotten when it is added. */
  lemma SameAdded(b: Book, m: Lot, n: Lot)
    requires m.t == n.t && m.filled == n.filled && m.t.price.Some?
    ensures AddLot(b, m) == AddLot(b, n)
  {
  }

  lemma FirstReturnable(b: OrderBook, hit: seq<Lot>, consumed: map<string, Order>, orders: set<Order>)
    requires b.Keyed() && hit != [] && Returnable(b.Contents(), hit) && Held(hit, consumed, orders)
    ensures var id := hit[0].t.id;
            && hit[0].t.price.Some? && Validates(hit[0].t) && 0 <= hit[0].filled < hit[0].t.qty
            && id in consumed && consumed[id] in orders && consumed[id].ticket == hit[0].t
            && consumed[id] !in b.Orders()
            && (forall o :: o in b.Orders() ==> o.ticket.id != id)
            && Held(hit[1..], consumed - {id}, orders) && Returnable(AddLot(b.Contents(), hit[0]), hit[1..])
  {
    ReturnableTail(b.Contents(), hit);
    forall o | o in b.Orders()
      ensures o.ticket.id != hit[0].t.id
    {
      OrderShows(b, o);
    }
  }

  /** A book whose orders hold the values of `was` is `was`. */
  lemma ContentsAre(b: OrderBook, was: Book, side: Side)
    requires b.On(side).Keys == was.On(side).Keys && b.On(side.Opposite()).Keys == was.On(side.Opposite()).Keys
             && b.clock == was.clock
    requires forall p :: p in b.On(side) ==> |b.On(side)[p]| == |was.On(side)[p]|
    requires forall p, k :: p in b.On(side) && 0 <= k < |b.On(side)[p]| ==>
               b.On(side)[p][k].Snap() == was.On(side)[p][k]
    requires forall p :: p in b.On(side.Opposite()) ==> |b.On(side.Opposite())[p]| == |was.On(side.Opposite())[p]|
    requires forall p, k :: p in b.On(side.Opposite()) && 0 <= k < |b.On(side.Opposite())[p]|
               ==> b.On(side.Opposite())[p][k].Snap() == was.On(side.Opposite())[p][k]
    ensures b.Contents() == was
  {
    SideAre(b.On(side), was.On(side));
    SideAre(b.On(side.Opposite()), was.On(side.Opposite()));
  }

  lemma SideAre(shelf: Shelf, lots: Levels)
    requires shelf.Keys == lots.Keys && forall p :: p in shelf ==> |shelf[p]| == |lots[p]|
    requires forall p, k :: p in shelf && 0 <= k < |shelf[p]| ==> shelf[p][k].Snap() == lots[p][k]
    ensures SnapLevels(shelf) == lots
  {
    forall p | p in shelf
      ensures Snaps(shelf[p]) == lots[p]
    {
      SnapsAre(shelf[p], lots[p]);
    }
    SnapLevelsAre(shelf, lots);
  }

  lemma NotShelved(b: OrderBook, o: Order)
    requires o !in b.Orders()
    ensures forall p, k :: p in b.bids && 0 <= k < |b.bids[p]| ==> b.bids[p][k] != o
    ensures forall p, k :: p in b.asks && 0 <= k < |b.asks[p]| ==> b.asks[p][k] != o
  {
    forall p, k | p in b.bids && 0 <= k < |b.bids[p]|
      ensures b.bids[p][k] != o
    {
      assert b.bids[p][k] in b.bids[p] && b.bids[p][k] in b.Orders();
    }
    forall p, k | p in b.asks && 0 <= k < |b.asks[p]|
      ensures b.asks[p][k] != o
    {
      assert b.asks[p][k] in b.asks[p] && b.asks[p][k] in b.Orders();
    }
  }

  // ---------------------------------------------------------------- a rollback, maker by maker

  lemma RollStart(b: Book, hit: seq<Lot>)
    requires Priced(hit)
    ensures AddAll(b, hit[..0]) == b
  {
  }

  lemma {:induction false} AddAllOne(b: Book, hit: seq<Lot>, m: Lot)
    requires Priced(hit) && m.t.price.Some?
    ensures Priced(hit + [m]) && AddAll(b, hit + [m]) == AddLot(AddAll(b, hit), m)
    decreases |hit|
  {
    if hit == [] {
      assert [m][1..] == [];
      assert [] + [m] == [m];
    } else {
      assert (hit + [m])[1..] == hit[1..] + [m];
      AddAllOne(AddLot(b, hit[0]), hit[1..], m);
    }
  }

  lemma AddNotEmpty(b: Book, m: Lot)
    requires m.t.price.Some?
    ensures !AddLot(b, m).IsEmpty()
  {
    assert m.t.price.value in AddLot(b, m).On(m.t.side);
  }

  lemma RollNext(b: Book, hit: seq<Lot>, k: nat, lookup: Lookup)
    requires Priced(hit) && k < |hit|
    ensures Priced(hit[..k]) && Priced(hit[..k + 1]) && AddAll(b, hit[..k + 1]) == AddLot(AddAll(b, hit[..k]), hit[k])
    ensures k == 1 ==> !AddAll(b, hit[..1]).IsEmpty()
    ensures AddAll(b, hit[..0]) == b
  {
    AddAllOne(b, hit[..k], hit[k]);
    assert hit[..k] + [hit[k]] == hit[..k + 1];
    if k == 1 {
      AddAllOne(b, [], hit[0]);
      assert [] + [hit[0]] == hit[..1];
      AddNotEmpty(b, hit[0]);
    }
  }

  /** Where a rollback that breaks off leaves the book. */
  lemma RollCut(b: Book, hit: seq<Lot>, k: nat, lookup: Lookup)
    requires Priced(hit) && k < |hit| && lookup.LevelsAsOrders?
    requires k == 0 || (k == 1 && b.IsEmpty())
    requires Priced(hit[..k]) && !AddAll(b, hit[..k]).IsEmpty()
    ensures !RollbackEnds(lookup, b, hit) && Restored(lookup, b, hit) == AddAll(b, hit[..k])
  {
    if k == 1 {
      AddAllOne(b, [], hit[0]);
      assert [] + [hit[0]] == hit[..1];
    }
  }

  lemma RollDone(b: Book, hit: seq<Lot>, lookup: Lookup)
    requires Priced(hit) && (lookup.OverOrders? || |hit| == 0 || (|hit| == 1 && b.IsEmpty()))
    ensures RollbackEnds(lookup, b, hit) && Restored(lookup, b, hit) == AddAll(b, hit)
  {
  }

  // ---------------------------------------------------------------- how a call ends

  /** What goes to the bus after the trades. */
  function Closing(t: Ticket, o: Outcome): seq<Event> {
    if o.err != Fine then []
    else if o.fullyFilled then [Accepted(t.id, t.qty), BookShown(SnapshotOf(o.book))]
    else if t.tif == FOK then [Rejected(t.id, "fok_rolled_back")]
    else if t.tif == IOC then [Rejected(t.id, "ioc_remainder_cancelled")]
    else if o.rested then [Rested(t.id, t.side), BookShown(SnapshotOf(o.book))]
    else [BookShown(SnapshotOf(o.book))]
  }

  /** The bus hears of every fill in order, after what it heard before; without a bus, of nothing. */
  lemma ToldIs(log: seq<Event>, hasBus: bool, fills: seq<Fill>)
    ensures var told := Told(log, hasBus, fills);
            && log <= told && |told| == |log| + (if hasBus then |fills| else 0)
            && (hasBus ==> forall i :: 0 <= i < |fills| ==> told[|log| + i] == Trade(fills[i]))
  {
  }

  /** What the bus hears after the trades of a call, by how the order ended: it is accepted exactly if it is full,
      rejected exactly if it was killed or its remainder cancelled, rested exactly if it is in the book; the book
      is shown, last, unless the order was rejected; a call that raised says nothing. */
  ghost predicate Tells(es: seq<Event>, t: Ticket, o: Outcome) {
    && (o.err != Fine ==> es == [])
    && (forall id, filled :: Accepted(id, filled) in es <==>
          o.err == Fine && o.fullyFilled && id == t.id && filled == o.takerFilled)
    && (forall id, why :: Rejected(id, why) in es <==>
          && o.err == Fine && !o.fullyFilled && id == t.id
          && ((t.tif == FOK && why == "fok_rolled_back") || (t.tif == IOC && why == "ioc_remainder_cancelled")))
    && (forall id, side :: Rested(id, side) in es <==> o.rested && id == t.id && side == t.side)
    && (forall shown :: BookShown(shown) in es <==>
          && o.err == Fine && (o.fullyFilled || (t.tif != FOK && t.tif != IOC)) && shown == SnapshotOf(o.book))
    && (forall f :: Trade(f) !in es)
    && (forall i :: 0 <= i < |es| && es[i].BookShown? ==> i == |es| - 1)
  }

  lemma ClosingTells(b: Book, t: Ticket, ex: Exchange, lookup: Lookup)
    requires Indexed(b) && PricedLevels(b.bids) && PricedLevels(b.asks)
    ensures var o := Execute(b, t, ex, lookup); Tells(Closing(t, o), t, o)
  {
    OutcomeFits(b, t, ex, lookup);
    hide Indexed, Execute, Tells, Closing, PricedLevels;
    ClosingOf(t, Execute(b, t, ex, lookup));
  }

  lemma OutcomeFits(b: Book, t: Ticket, ex: Exchange, lookup: Lookup)
    requires Indexed(b) && PricedLevels(b.bids) && PricedLevels(b.asks)
    ensures var o := Execute(b, t, ex, lookup);
            && (o.fullyFilled ==> o.takerFilled == t.qty)
            && (o.rested ==> o.err == Fine && !o.fullyFilled && t.tif != FOK && t.tif != IOC)
            && (o.err == Fine && !o.fullyFilled && t.tif != FOK && t.tif != IOC && t.kind != MARKET ==> o.rested)
  {
    if Validates(t) {
      SweepBounds(b, t, ex, SweepBook(b, t, ex));
      OutcomeOf(b, t, ex, lookup, SweepBook(b, t, ex));
    }
    hide Indexed, SweepBook, Restored, RollbackEnds, AddLot, PricedLevels, Book.With, Book.On, PriorityPrices;
  }

  lemma OutcomeOf(b: Book, t: Ticket, ex: Exchange, lookup: Lookup, s: BookSweep)
    requires PricedLevels(b.bids) && PricedLevels(b.asks) && Validates(t) && s == SweepBook(b, t, ex) && s.left >= 0
    ensures var o := Execute(b, t, ex, lookup);
            && (o.fullyFilled ==> o.takerFilled == t.qty)
            && (o.rested ==> o.err == Fine && !o.fullyFilled && t.tif != FOK && t.tif != IOC)
            && (o.err == Fine && !o.fullyFilled && t.tif != FOK && t.tif != IOC && t.kind != MARKET ==> o.rested)
  {
    hide SweepBook, Restored, RollbackEnds, AddLot, PricedLevels, Book.With, Book.On, PriorityPrices;
  }

  lemma ClosingOf(t: Ticket, o: Outcome)
    requires o.fullyFilled ==> o.takerFilled == t.qty
    requires o.rested ==> o.err == Fine && !o.fullyFilled && t.tif != FOK && t.tif != IOC
    ensures Tells(Closing(t, o), t, o)
  {
    hide SnapshotOf;
  }

  lemma Refused(was: Book, t: Ticket, ex: Exchange, lookup: Lookup)
    requires PricedLevels(was.bids) && PricedLevels(was.asks) && !Validates(t)
    ensures Execute(was, t, ex, lookup) == Outcome(was, [], 0, false, false, ValueError)
    ensures Closing(t, Execute(was, t, ex, lookup)) == []
  {
  }

  /** The outcome of an accepted order, by how the sweep left it. */
  ghost predicate Ending(t: Ticket, lookup: Lookup, s: BookSweep, swept: Book, o: Outcome)
    requires Priced(s.hit) && Validates(t)
  {
    o == if s.left <= 0 then Outcome(swept, s.fills, t.qty, false, true, Fine)
         else if t.tif == FOK then
           Outcome(Restored(lookup, swept, s.hit), [], if RollbackEnds(lookup, swept, s.hit) then 0 else t.qty - s.left,
                   false, false, if RollbackEnds(lookup, swept, s.hit) then Fine else AttributeError)
         else if t.tif == IOC || t.kind == MARKET then Outcome(swept, s.fills, t.qty - s.left, false, false, Fine)
         else Outcome(AddLot(swept, Lot(t, t.qty - s.left, 0)), s.fills, t.qty - s.left, true, false, Fine)
  }

  lemma SweepBounds(was: Book, t: Ticket, ex: Exchange, s: BookSweep)
    requires Indexed(was) && PricedLevels(was.bids) && PricedLevels(was.asks) && 0 <= t.qty
    requires s == SweepBook(was, t, ex)
    ensures 0 <= s.left <= t.qty && Priced(s.hit)
  {
    hide Indexed, IsGreedy, Ranking, Quantity, FilledQty;
    AgainstRanks(was, t, ex);
    var es := Makers(t, ex, Against(was, t));
    SweepIsGreedy(was, t, ex, es);
    QuantityNonNegative(es);
    HitPriced(t, ex, was.On(t.side.Opposite()), PriorityPrices(t.side, was.On(t.side.Opposite()).Keys), t.qty);
  }

  lemma Endings(was: Book, t: Ticket, ex: Exchange, lookup: Lookup, s: BookSweep, swept: Book, o: Outcome)
    requires PricedLevels(was.bids) && PricedLevels(was.asks) && Validates(t)
    requires s == SweepBook(was, t, ex) && swept == SweptBook(was, t, ex) && o == Execute(was, t, ex, lookup)
    requires 0 <= s.left <= t.qty && Priced(s.hit)
    ensures Ending(t, lookup, s, swept, o)
  {
    hide SweepLevels, SweepBook, Priced, PricedLevels, AddLot, AddAll, Restored, RollbackEnds;
  }

  /** After a sweep that fell short, the makers it consumed can be put back. */
  lemma ReadyToKill(was: Book, t: Ticket, ex: Exchange, consumed: map<string, Order>, orders: set<Order>, s: BookSweep)
    requires Indexed(was) && PricedLevels(was.bids) && PricedLevels(was.asks) && 0 < t.qty
    requires s == SweepBook(was, t, ex) && s.left > 0
    ensures Returnable(SweptBook(was, t, ex), s.hit)
  {
    hide Indexed, PricedLevels, SweepBook, SweptBook, IsGreedy, Ranking;
    AgainstRanks(was, t, ex);
    var es := Makers(t, ex, Against(was, t));
    SweepIsGreedy(was, t, ex, es);
    HitsReturnable(was, t, ex, es);
  }

  lemma SetShelfTwice(a: Shelf, b: Shelf, price: int, os: seq<Order>)
    requires SetShelf(a, price, []) == SetShelf(b, price, [])
    ensures SetShelf(b, price, os) == SetShelf(a, price, os)
  {
    assert forall p :: p in SetShelf(a, price, []) <==> p in SetShelf(b, price, []);
    assert forall p :: p != price ==> (p in a <==> p in SetShelf(a, price, []));
    assert forall p :: p != price ==> (p in b <==> p in SetShelf(b, price, []));
    assert forall p :: p != price && p in a ==> a[p] == SetShelf(a, price, [])[p] == SetShelf(b, price, [])[p] == b[p];
  }

  class MatchingEngine {
    const book: OrderBook
    const preventSelfTrade: bool
    const lookup: Lookup
    const hasBus: bool
    /** Everything handed to the bus, in order. */
    var published: seq<Event>
    /** Makers fully consumed, by id; never cleared. */
    var consumed: map<string, Order>

    constructor (book: OrderBook, preventSelfTrade: bool, lookup: Lookup, hasBus: bool)
      ensures this.book == book && this.preventSelfTrade == preventSelfTrade
      ensures this.lookup == lookup && this.hasBus == hasBus
      ensures published == [] && consumed == map[]
    {
      this.book, this.preventSelfTrade, this.lookup, this.hasBus := book, preventSelfTrade, lookup, hasBus;
      published, consumed := [], map[];
    }

    /** What the engine trades under: its book's instrument and its self-trade rule. */
    function Terms(): Exchange { Exchange(book.exchangeId, preventSelfTrade) }

    method Publish(events: seq<Event>)
      modifies this`published
      ensures published == old(published) + (if hasBus then events else [])
    {
      if hasBus {
        published := published + events;
      }
    }

    /** Publishing moves nothing in the book. */
    method Announce(events: seq<Event>)
      modifies this`published
      ensures published == old(published) + (if hasBus then events else [])
      ensures book.Contents() == old(book.Contents())
    {
      ghost var was := book.Contents();
      Publish(events);
      ContentsAre(book, was, BUY);
    }

    /** Clearing the counter of an order outside the book moves nothing in it. */
    method Clear(taker: Order)
      requires taker !in book.Orders()
      modifies taker`filled
      ensures taker.filled == 0 && book.Contents() == old(book.Contents())
    {
      ghost var was := book.Contents();
      NotShelved(book, taker);
      taker.filled := 0;
      ContentsAre(book, was, BUY);
    }

    /** Cross the taker against one maker: a fill, or nothing at all. */
    method Cross(taker: Order, resting: Order, price: int) returns (trade: Option<Fill>)
      requires resting != taker && 0 <= taker.filled <= taker.ticket.qty
      requires resting.ticket.price == Some(price) && resting.ticket.side == taker.ticket.side.Opposite()
      modifies this`published, this`consumed, book`bids, book`asks, taker`filled, resting`filled
      ensures var m, want := old(resting.Snap()), old(taker.Remaining());
              if want > 0 && Eligible(taker.ticket, Terms(), m) then
                var take := Min(want, m.Remaining());
                && trade == Some(FillOf(Terms(), taker.ticket, m, take))
                && taker.Remaining() == want - take && resting.Snap() == m.(filled := m.filled + take)
                && consumed == (if resting.Remaining() == 0 then old(consumed)[m.t.id := resting] else old(consumed))
                && published == old(published)
                                + (if hasBus then [Trade(FillOf(Terms(), taker.ticket, m, take))] else [])
              else
                trade == None && taker.Remaining() == want && resting.Snap() == m
                && consumed == old(consumed) && published == old(published)
      ensures 0 <= taker.filled <= taker.ticket.qty
      ensures SetShelf(book.On(resting.ticket.side), price, [])
              == SetShelf(old(book.On(resting.ticket.side)), price, [])
      ensures book.On(taker.ticket.side) == old(book.On(taker.ticket.side))
    {
      var remaining := taker.Remaining();
      if remaining <= 0 {
        return None;
      }
      if preventSelfTrade && resting.ticket.sub == taker.ticket.sub {
        return None;
      }
      var px := CrossPrice(taker.ticket, price);
      if px.None? {
        return None;
      }
      var take := Min(remaining, resting.Remaining());
      if take <= 0 {
        return None;
      }
      var fill := Fill(book.exchangeId, px.value, take, taker.ticket.side, taker.ticket.id,
                       resting.ticket.id, taker.ticket.sub, resting.ticket.sub);
      taker.filled := taker.filled + take;
      resting.filled := resting.filled + take;
      Publish([Trade(fill)]);
      if resting.Remaining() == 0 {
        consumed := consumed[resting.ticket.id := resting];
        var _ := book.RemoveFilled(resting);
      }
      return Some(fill);
    }

    /** Between two visits of a walk that comes to `w`: what is parked, hit and still to come. */
    ghost predicate Mid(taker: Order, level: seq<Order>, lots: seq<Lot>, w: Swept, j: nat, still: seq<Order>,
                        fills: seq<Fill>, snapshot: seq<(string, int)>, parked: seq<Lot>, prior: seq<Lot>,
                        hit: seq<Lot>, done: set<Order>, within: set<Order>)
      reads taker, level, still, this
    {
      && j <= |level| && 0 <= taker.filled <= taker.ticket.qty && Priced(lots) && |lots| == |level|
      && Pending(level, lots, j) && Parked(still, parked, done) && Apart(done, level, j, within)
      && (forall o :: o in still ==> o in level)
      && snapshot == CountsBefore(hit)
      && (taker.Remaining() > 0 ==> Held(prior + hit, consumed, done))
      && w == Onto(parked, fills, hit, Walk(taker.ticket, Terms(), lots[j..], taker.Remaining()))
    }

    /** One visit: the maker at position `j` trades or is passed by, and is parked unless consumed. */
    method Visit(taker: Order, price: int, level: seq<Order>, j: nat, still0: seq<Order>, fills0: seq<Fill>,
                 snapshot0: seq<(string, int)>, ghost lots: seq<Lot>, ghost w: Swept, ghost parked0: seq<Lot>,
                 ghost prior: seq<Lot>, ghost hit0: seq<Lot>, ghost done: set<Order>, ghost within: set<Order>,
                 ghost log: seq<Event>)
      returns (still: seq<Order>, fills: seq<Fill>, snapshot: seq<(string, int)>, ghost parked: seq<Lot>,
               ghost hit: seq<Lot>)
      requires forall o :: o in level ==> o.ticket.side == taker.ticket.side.Opposite() && o.ticket.price == Some(price)
      requires DistinctOrders(level) && taker !in level && j < |level| && level[j] in within
      requires Mid(taker, level, lots, w, j, still0, fills0, snapshot0, parked0, prior, hit0, done, within)
      requires published == Told(log, hasBus, fills0)
      modifies this`published, this`consumed, book`bids, book`asks, taker`filled, {level[j]}`filled
      ensures Mid(taker, level, lots, w, j + 1, still, fills, snapshot, parked, prior, hit, done + {level[j]}, within)
      ensures published == Told(log, hasBus, fills)
      ensures SetShelf(book.On(taker.ticket.side.Opposite()), price, [])
              == SetShelf(old(book.On(taker.ticket.side.Opposite())), price, [])
      ensures book.On(taker.ticket.side) == old(book.On(taker.ticket.side))
    {
      hide Walk, Onto, Eligible, SetShelf, FillOf, CrossPrice, Held, CountsBefore;
      var resting := level[j];
      assert resting in level;
      ghost var want := taker.Remaining();
      var before := resting.filled;
      ApartNext(done, level, j, within);
      NextStep(taker.ticket, Terms(), lots, j, want, parked0, fills0, hit0);
      NextHeld(prior, hit0, consumed, done, lots[j], resting, want);
      var trade := Cross(taker, resting, price);
      still, fills, snapshot, parked, hit := still0, fills0, snapshot0, parked0, hit0;
      if trade.Some? {
        snapshot, fills, hit := snapshot0 + [(resting.ticket.id, before)], fills0 + [trade.value], hit0 + [lots[j]];
      }
      if trade.None? || resting.Remaining() > 0 {
        still, parked := still0 + [resting], parked0 + [resting.Snap()];
      }
      if trade.Some? {
        ToldOne(log, hasBus, fills0, trade.value);
      }
    }

    /** Cross the taker against one level, oldest order first; `still` is what goes back. `prior` are the
        makers hit at better prices, found among `among`; `within` holds them and this level. */
    method WalkLevel(taker: Order, price: int, level: seq<Order>, ghost prior: seq<Lot>, ghost among: set<Order>,
                     ghost within: set<Order>)
      returns (still: seq<Order>, fills: seq<Fill>, snapshot: seq<(string, int)>)
      requires forall o :: o in level ==> o.ticket.side == taker.ticket.side.Opposite() && o.ticket.price == Some(price)
      requires DistinctOrders(level) && taker !in level && 0 <= taker.filled <= taker.ticket.qty
      requires Held(prior, consumed, among) && Apart(among, level, 0, within) && forall o :: o in level ==> o in within
      modifies this`published, this`consumed, book`bids, book`asks, taker`filled, (set o | o in level)`filled
      ensures Priced(old(Snaps(level)))
      ensures var w := Walk(taker.ticket, Terms(), old(Snaps(level)), old(taker.Remaining()));
              && fills == w.fills && taker.Remaining() == w.left && 0 <= taker.filled <= taker.ticket.qty
              && Snaps(still) == w.rest && (forall o :: o in still ==> o in level)
              && snapshot == CountsBefore(w.hit)
              && (w.left > 0 ==> Held(prior + w.hit, consumed, within))
      ensures SetShelf(book.On(taker.ticket.side.Opposite()), price, [])
              == SetShelf(old(book.On(taker.ticket.side.Opposite())), price, [])
      ensures book.On(taker.ticket.side) == old(book.On(taker.ticket.side))
      ensures published == Told(old(published), hasBus, fills)
    {
      hide Walk, Onto, SetShelf, Held, CountsBefore, Told, Pending, Parked, Apart;
      ghost var t, ex := taker.ticket, Terms();
      ghost var lots := Snaps(level);
      assert Priced(lots) by {
        assert forall k :: 0 <= k < |level| ==> level[k] in level;
      }
      ghost var w := Walk(t, ex, lots, taker.Remaining());
      still, fills, snapshot := [], [], [];
      ghost var log := published;
      ghost var parked: seq<Lot>, hit: seq<Lot>, done: set<Order> := [], [], among;
      StartMid(taker, level, lots, w, prior, among, within);
      hide Mid, DistinctOrders;
      ToldMore(published, hasBus, [], []);
      var j := 0;
      while j < |level|
        invariant j <= |level|
        invariant Mid(taker, level, lots, w, j, still, fills, snapshot, parked, prior, hit, done, within)
        invariant SetShelf(book.On(t.side.Opposite()), price, [])
                  == SetShelf(old(book.On(t.side.Opposite())), price, [])
        invariant book.On(t.side) == old(book.On(t.side))
        invariant published == Told(log, hasBus, fills)
      {
        assert level[j] in level;
        still, fills, snapshot, parked, hit :=
          Visit(taker, price, level, j, still, fills, snapshot, lots, w, parked, prior, hit, done, within, log);
        done := done + {level[j]};
        j := j + 1;
      }
      EndMid(taker, level, lots, w, still, fills, snapshot, parked, prior, hit, done, within);
    }

    lemma StartMid(taker: Order, level: seq<Order>, lots: seq<Lot>, w: Swept, prior: seq<Lot>, among: set<Order>,
                   within: set<Order>)
      requires lots == Snaps(level) && Priced(lots) && w == Walk(taker.ticket, Terms(), lots, taker.Remaining())
      requires 0 <= taker.filled <= taker.ticket.qty && Held(prior, consumed, among) && Apart(among, level, 0, within)
      ensures Mid(taker, level, lots, w, 0, [], [], [], [], prior, [], among, within)
    {
      hide Walk, Onto, Held, CountsBefore, Pending, Parked, Apart, Lot.Remaining;
      StartLevel(level, lots, among, within, consumed, prior);
      WalkStart(taker.ticket, Terms(), lots, taker.Remaining());
    }

    lemma EndMid(taker: Order, level: seq<Order>, lots: seq<Lot>, w: Swept, still: seq<Order>, fills: seq<Fill>,
                 snapshot: seq<(string, int)>, parked: seq<Lot>, prior: seq<Lot>, hit: seq<Lot>, done: set<Order>,
                 within: set<Order>)
      requires Mid(taker, level, lots, w, |level|, still, fills, snapshot, parked, prior, hit, done, within)
      ensures fills == w.fills && taker.Remaining() == w.left && 0 <= taker.filled <= taker.ticket.qty
      ensures Snaps(still) == w.rest && (forall o :: o in still ==> o in level)
      ensures snapshot == CountsBefore(w.hit) && (w.left > 0 ==> Held(prior + w.hit, consumed, within))
    {
      hide Walk, Onto, Held, CountsBefore, Pending, Parked, Apart;
      WalkEnd(taker.ticket, Terms(), lots, taker.Remaining(), parked, fills, hit);
      EndLevel(still, parked, done, level, within);
      if taker.Remaining() > 0 {
        HeldWider(prior + hit, consumed, done, within);
      }
    }

    /** Sweep one level of the dictionary and put back what still rests there. */
    method SweepShelf(taker: Order, price: int, ghost prior: seq<Lot>, ghost among: set<Order>,
                      ghost within: set<Order>)
      returns (still: seq<Order>, fills: seq<Fill>, snapshot: seq<(string, int)>)
      requires KeyedLevels(taker.ticket.side.Opposite(), book.On(taker.ticket.side.Opposite()))
      requires price in book.On(taker.ticket.side.Opposite()) && 0 <= taker.filled <= taker.ticket.qty
      requires var level := book.On(taker.ticket.side.Opposite())[price];
               && DistinctOrders(level) && taker !in level && Apart(among, level, 0, within)
               && forall o :: o in level ==> o in within
      requires Held(prior, consumed, among)
      modifies this`published, this`consumed, book`bids, book`asks, taker`filled
      modifies (set o | o in book.On(taker.ticket.side.Opposite())[price])`filled
      ensures Priced(old(Snaps(book.On(taker.ticket.side.Opposite())[price])))
      ensures var level := old(book.On(taker.ticket.side.Opposite())[price]);
              var w := Walk(taker.ticket, Terms(), old(Snaps(level)), old(taker.Remaining()));
              && fills == w.fills && taker.Remaining() == w.left && 0 <= taker.filled <= taker.ticket.qty
              && Snaps(still) == w.rest && (forall o :: o in still ==> o in level)
              && snapshot == CountsBefore(w.hit) && (w.left > 0 ==> Held(prior + w.hit, consumed, within))
      ensures book.On(taker.ticket.side.Opposite())
              == SetShelf(old(book.On(taker.ticket.side.Opposite())), price, still)
      ensures book.On(taker.ticket.side) == old(book.On(taker.ticket.side))
      ensures published == Told(old(published), hasBus, fills)
    {
      hide Walk, Held, CountsBefore, Told, Apart, DistinctOrders;
      var side := taker.ticket.side.Opposite();
      ghost var shelf := book.On(side);
      still, fills, snapshot := WalkLevel(taker, price, book.On(side)[price], prior, among, within);
      SetShelfTwice(shelf, book.On(side), price, still);
      book.ReplaceLevel(side, price, still);
    }

    /** Sweep one level, as the book sees it. */
    method SweepLevel(taker: Order, price: int, ghost prior: seq<Lot>, ghost among: set<Order>,
                      ghost within: set<Order>)
      returns (fills: seq<Fill>, snapshot: seq<(string, int)>)
      requires book.Keyed() && taker !in book.Orders() && 0 <= taker.filled <= taker.ticket.qty
      requires price in book.On(taker.ticket.side.Opposite())
      requires var level := book.On(taker.ticket.side.Opposite())[price];
               DistinctOrders(level) && Apart(among, level, 0, within) && forall o :: o in level ==> o in within
      requires Held(prior, consumed, among)
      modifies this`published, this`consumed, book`bids, book`asks, taker`filled
      modifies (set o | o in book.On(taker.ticket.side.Opposite())[price])`filled
      ensures Priced(LevelAt(old(book.Contents().On(taker.ticket.side.Opposite())), price))
      ensures var side, was := taker.ticket.side.Opposite(), old(book.Contents());
              var w := Walk(taker.ticket, Terms(), LevelAt(was.On(side), price), old(taker.Remaining()));
              && book.Contents() == was.With(side, SetLevel(was.On(side), price, w.rest))
              && fills == w.fills && taker.Remaining() == w.left && 0 <= taker.filled <= taker.ticket.qty
              && snapshot == CountsBefore(w.hit) && (w.left > 0 ==> Held(prior + w.hit, consumed, within))
      ensures book.Keyed() && book.Orders() <= old(book.Orders())
      ensures exists still :: (forall o :: o in still ==> o in old(book.On(taker.ticket.side.Opposite()))[price])
                && book.On(taker.ticket.side.Opposite())
                   == SetShelf(old(book.On(taker.ticket.side.Opposite())), price, still)
      ensures published == Told(old(published), hasBus, fills)
    {
      hide Walk, Held, CountsBefore, Told, Apart, SetLevel, SetShelf, DistinctOrders, Snaps, KeyedLevels, OrdersOf;
      var side := taker.ticket.side.Opposite();
      ghost var shelf, other, before := book.On(side), book.On(taker.ticket.side), book.Contents();
      ghost var lots, others := SnapLevels(shelf), SnapLevels(other);
      Elsewhere(side, shelf, other, price, taker);
      var still;
      still, fills, snapshot := SweepShelf(taker, price, prior, among, within);
      SnapLevelsSet(shelf, price, still);
      KeyedSet(side, shelf, price, still);
      ContentsAfter(book, before, side, shelf, lots, other, others, price, still);
    }

    /** Between two levels of a sweep that comes to `s`. */
    ghost predicate MidSweep(taker: Order, was: Book, shelf: Shelf, orders: set<Order>, prices: seq<int>, i: nat,
                             s: BookSweep, fills: seq<Fill>, snapshot: seq<(string, int)>, hit: seq<Lot>)
      reads this, taker, book, book.Orders()
    {
      var side := taker.ticket.side.Opposite();
      var now := book.Contents();
      && i <= |prices| && 0 <= taker.filled <= taker.ticket.qty && taker !in orders
      && book.Keyed() && book.Orders() <= orders && OrdersOf(shelf) <= orders
      && now == was.With(side, now.On(side))
      && PricedLevels(now.On(side)) && NoEmpty(now.On(side))
      && (forall k :: i <= k < |prices| ==>
          prices[k] in book.On(side) && book.On(side)[prices[k]] == ShelfAt(shelf, prices[k]))
      && s == OntoBook(fills, hit, SweepLevels(taker.ticket, Terms(), now.On(side), prices[i..], taker.Remaining()))
      && snapshot == CountsBefore(hit)
      && (taker.Remaining() > 0 ==> Held(hit, consumed, Seen(shelf, prices, i)))
    }

    /** Sweep the level at position `i`. */
    method SweepAt(taker: Order, prices: seq<int>, i: nat, fills0: seq<Fill>, snapshot0: seq<(string, int)>,
                   ghost was: Book, ghost shelf: Shelf, ghost orders: set<Order>, ghost s: BookSweep,
                   ghost hit0: seq<Lot>, ghost log: seq<Event>)
      returns (fills: seq<Fill>, snapshot: seq<(string, int)>, ghost hit: seq<Lot>)
      requires i < |prices| && Distinct(prices) && ShelfApart(shelf) && taker.Remaining() > 0
      requires forall k :: 0 <= k < |prices| ==> prices[k] in shelf
      requires MidSweep(taker, was, shelf, orders, prices, i, s, fills0, snapshot0, hit0)
               && published == Told(log, hasBus, fills0)
      modifies this`published, this`consumed, book`bids, book`asks, taker`filled, orders`filled
      ensures MidSweep(taker, was, shelf, orders, prices, i + 1, s, fills, snapshot, hit)
              && published == Told(log, hasBus, fills)
    {
      hide Walk, SweepLevels, OntoBook, Held, CountsBefore, Told, Apart, SetShelf, DistinctOrders, ShelfApart,
           Seen, NoEmpty, OrdersOf, PricedLevels, SnapLevels, KeyedLevels;
      var side := taker.ticket.side.Opposite();
      ghost var levels, want, now := book.Contents().On(side), taker.Remaining(), book.On(side);
      LevelPriced(levels, prices[i]);
      ghost var w := Walk(taker.ticket, Terms(), LevelAt(levels, prices[i]), want);
      SeenApart(shelf, prices, i);
      SweepNext(taker.ticket, Terms(), levels, prices, i, want, fills0, hit0);
      LevelWithin(shelf, prices[i], orders);
      var more, moreSnapshot := SweepLevel(taker, prices[i], hit0, Seen(shelf, prices, i), Seen(shelf, prices, i + 1));
      CountsConcat(hit0, w.hit);
      ToldMore(log, hasBus, fills0, more);
      ghost var still :| (forall o :: o in still ==> o in now[prices[i]])
                && book.On(side) == SetShelf(now, prices[i], still);
      LaterPrices(now, prices, i, still);
      fills, snapshot, hit := fills0 + more, snapshot0 + moreSnapshot, hit0 + w.hit;
    }

    /** Sweep the opposite side in price priority, until the taker wants no more. */
    method Sweep(taker: Order) returns (fills: seq<Fill>, snapshot: seq<(string, int)>)
      requires book.Keyed() && Indexed(book.Contents()) && taker !in book.Orders()
      requires PricedLevels(book.Contents().bids) && PricedLevels(book.Contents().asks)
      requires taker.filled == 0 && 0 <= taker.ticket.qty
      modifies this`published, this`consumed, book`bids, book`asks, taker`filled, book.Orders()`filled
      ensures var was, t := old(book.Contents()), taker.ticket; var s := SweepBook(was, t, Terms());
              && book.Contents() == SweptBook(was, t, Terms())
              && fills == s.fills && taker.Remaining() == s.left && 0 <= taker.filled <= t.qty
              && snapshot == CountsBefore(s.hit) && (s.left > 0 ==> Held(s.hit, consumed, old(book.Orders())))
      ensures book.Keyed() && book.Orders() <= old(book.Orders())
      ensures published == Told(old(published), hasBus, fills)
    {
      hide Walk, SweepLevels, Held, CountsBefore, Told, ShelfApart, Indexed, MidSweep;
      ghost var t, was := taker.ticket, book.Contents();
      var side := taker.ticket.side.Opposite();
      var prices := PriorityPrices(taker.ticket.side, book.On(side).Keys);
      ghost var shelf, orders := book.On(side), book.Orders();
      ghost var s := SweepLevels(t, Terms(), was.On(side), prices, t.qty);
      ShelfIsApart(book, side);
      PrioritySound(t.side, shelf.Keys);
      assert forall k :: 0 <= k < |prices| ==> prices[k] in prices;
      ghost var log, hit: seq<Lot> := published, [];
      fills, snapshot := [], [];
      BeginSweep(taker, was, shelf, orders, prices, s);
      ToldMore(published, hasBus, [], []);
      var i := 0;
      while i < |prices|
        invariant i <= |prices|
        invariant MidSweep(taker, was, shelf, orders, prices, i, s, fills, snapshot, hit)
        invariant published == Told(log, hasBus, fills)
      {
        if taker.Remaining() <= 0 {
          break;
        }
        fills, snapshot, hit := SweepAt(taker, prices, i, fills, snapshot, was, shelf, orders, s, hit, log);
        i := i + 1;
      }
      EndSweep(taker, was, shelf, orders, prices, i, s, fills, snapshot, hit);
    }

    lemma BeginSweep(taker: Order, was: Book, shelf: Shelf, orders: set<Order>, prices: seq<int>, s: BookSweep)
      requires book.Keyed() && Indexed(book.Contents()) && taker !in orders && orders == book.Orders()
               && was == book.Contents()
      requires PricedLevels(was.bids) && PricedLevels(was.asks) && taker.filled == 0 && 0 <= taker.ticket.qty
      requires shelf == book.On(taker.ticket.side.Opposite()) && forall k :: 0 <= k < |prices| ==> prices[k] in shelf
      requires s == SweepLevels(taker.ticket, Terms(), was.On(taker.ticket.side.Opposite()), prices, taker.ticket.qty)
      ensures MidSweep(taker, was, shelf, orders, prices, 0, s, [], [], [])
    {
      hide SweepLevels, Held, CountsBefore, Indexed, NoEmpty, Seen, OrdersOf, OntoBook;
      hide OrderBook.Contents, OrderBook.Keyed;
      var side := taker.ticket.side.Opposite();
      SweepStart(taker.ticket, Terms(), was.On(side), prices, taker.ticket.qty);
      StartSweep(shelf, prices, consumed, was, side);
    }

    lemma EndSweep(taker: Order, was: Book, shelf: Shelf, orders: set<Order>, prices: seq<int>, i: nat, s: BookSweep,
                   fills: seq<Fill>, snapshot: seq<(string, int)>, hit: seq<Lot>)
      requires MidSweep(taker, was, shelf, orders, prices, i, s, fills, snapshot, hit)
      requires i == |prices| || taker.Remaining() <= 0
      ensures book.Contents() == was.With(taker.ticket.side.Opposite(), s.levels)
      ensures fills == s.fills && taker.Remaining() == s.left && 0 <= taker.filled <= taker.ticket.qty
      ensures snapshot == CountsBefore(s.hit) && (s.left > 0 ==> Held(s.hit, consumed, orders))
      ensures book.Keyed() && book.Orders() <= orders
    {
      hide SweepLevels, Held, CountsBefore, NoEmpty, Seen, OrdersOf;
      SweepStop(taker.ticket, Terms(), book.Contents().On(taker.ticket.side.Opposite()), prices[i..], taker.Remaining(),
                fills, hit);
      if taker.Remaining() > 0 {
        SeenWithin(shelf, prices, i, orders, hit, consumed);
      }
    }

    // -------------------------------------------------------------- rollback

    /** Look a resting order up by id. As written, the loop takes each level for an order and reads its id,
        so it raises on the first level there is. */
    method FindResting(id: string) returns (found: Order?, err: Raised)
      ensures lookup.LevelsAsOrders? ==>
                found == null && err == if book.bids.Keys == {} && book.asks.Keys == {} then Fine else AttributeError
      ensures lookup.OverOrders? ==> err == Fine
      ensures lookup.OverOrders? && found == null ==> forall o :: o in book.Orders() ==> o.ticket.id != id
      ensures lookup.OverOrders? && found != null ==> found in book.Orders() && found.ticket.id == id
    {
      if lookup.LevelsAsOrders? {
        return null, if book.bids.Keys == {} && book.asks.Keys == {} then Fine else AttributeError;
      }
      found, err := FindOn(book.bids, Ascending(book.bids.Keys), id), Fine;
      FindOnFinds(book.bids, Ascending(book.bids.Keys), id);
      if found == null {
        found := FindOn(book.asks, Ascending(book.asks.Keys), id);
        FindOnFinds(book.asks, Ascending(book.asks.Keys), id);
      }
    }

    /** The makers `hit` are out of the book, remembered, and may be put back. */
    ghost predicate MidRoll(hit: seq<Lot>, orders: set<Order>)
      reads this, book, book.Orders()
    {
      book.Keyed() && Returnable(book.Contents(), hit) && Held(hit, consumed, orders)
    }

    /** Put the first of the makers back as it stood. */
    method PutBack(id: string, filledBefore: int, ghost hit: seq<Lot>, ghost orders: set<Order>) returns (err: Raised)
      requires hit != [] && id == hit[0].t.id && filledBefore == hit[0].filled && MidRoll(hit, orders)
      modifies this`consumed, book`bids, book`asks, book`clock, orders`filled, orders`arrival
      ensures hit[0].t.price.Some?
      ensures err == if lookup.OverOrders? || old(book.Contents()).IsEmpty() then Fine else AttributeError
      ensures err == Fine ==> MidRoll(hit[1..], orders) && book.Contents() == AddLot(old(book.Contents()), hit[0])
      ensures err != Fine ==> book.Keyed() && book.Contents() == old(book.Contents())
      ensures book.Orders() <= old(book.Orders()) + orders
    {
      hide Returnable, Held, KeyedLevels, AddLot, OrdersOf, Fresh, Snaps, SnapLevels;
      FirstReturnable(book, hit, consumed, orders);
      EmptyShelves(book);
      ghost var was, gone := book.Contents(), consumed[id];
      NotShelved(book, gone);
      var maker;
      maker, err := FindResting(id);
      if err != Fine {
        ContentsAre(book, was, BUY);
        return;
      }
      assert maker == null;
      if maker == null && id in consumed {
        maker := consumed[id];
        consumed := consumed - {id};
      }
      assert maker == gone;
      if maker != null {
        maker.filled := filledBefore;
        ContentsAre(book, was, BUY);
        assert maker.Remaining() > 0;
        if maker.Remaining() > 0 {
          SameAdded(was, maker.Snap(), hit[0]);
          err := book.Add(maker);
        }
      }
    }

    /** Put the makers of a failed fill-or-kill back, one by one, as far as the lookup lets it. */
    method RollBack(snapshot: seq<(string, int)>, ghost hit: seq<Lot>, ghost orders: set<Order>) returns (err: Raised)
      requires snapshot == CountsBefore(hit) && MidRoll(hit, orders)
      modifies this`consumed, book`bids, book`asks, book`clock, orders`filled, orders`arrival
      ensures Priced(hit)
      ensures err == if RollbackEnds(lookup, old(book.Contents()), hit) then Fine else AttributeError
      ensures book.Keyed() && book.Contents() == Restored(lookup, old(book.Contents()), hit)
      ensures book.Orders() <= old(book.Orders()) + orders
    {
      hide MidRoll, AddLot, AddAll, RollbackEnds, Restored, OrdersOf, SnapLevels, KeyedLevels;
      ghost var was, from := book.Contents(), book.Orders();
      ghost var now := was;
      RollPriced(hit, orders);
      RollStart(was, hit);
      err := Fine;
      var k := 0;
      while k < |snapshot|
        invariant 0 <= k <= |hit| == |snapshot| && err == Fine
        invariant Priced(hit[..k]) && now == AddAll(was, hit[..k]) && now == book.Contents()
        invariant MidRoll(hit[k..], orders)
        invariant lookup.OverOrders? || k == 0 || (k == 1 && was.IsEmpty())
        invariant book.Orders() <= from + orders
      {
        assert hit[k..][0] == hit[k] && hit[k..][1..] == hit[k + 1..];
        RollNext(was, hit, k, lookup);
        err := PutBack(snapshot[k].0, snapshot[k].1, hit[k..], orders);
        if err != Fine {
          RollCut(was, hit, k, lookup);
          return;
        }
        now := AddLot(now, hit[k]);
        k := k + 1;
      }
      RollDone(was, hit, lookup);
      RollKeyed(hit[k..], orders);
      assert hit[..k] == hit;
    }

    lemma RollPriced(hit: seq<Lot>, orders: set<Order>)
      requires MidRoll(hit, orders)
      ensures Priced(hit) && book.Keyed() && hit[0..] == hit
    {
    }

    lemma RollKeyed(hit: seq<Lot>, orders: set<Order>)
      requires MidRoll(hit, orders)
      ensures book.Keyed()
    {
    }

    // -------------------------------------------------------------- the whole call

    /** What every call keeps. */
    ghost predicate Valid()
      reads this, book, book.Orders()
    {
      book.Keyed() && Indexed(book.Contents()) && Uncrossed(book.Contents(), Terms())
    }

    /** A fill-or-kill that found too little: give everything back. */
    method Kill(taker: Order, snapshot: seq<(string, int)>, ghost hit: seq<Lot>, ghost orders: set<Order>)
      returns (err: Raised)
      requires snapshot == CountsBefore(hit) && MidRoll(hit, orders) && taker !in orders && taker !in book.Orders()
      modifies this`published, this`consumed, book`bids, book`asks, book`clock, taker`filled, orders`filled,
               orders`arrival
      ensures Priced(hit)
      ensures var was := old(book.Contents()); var ends := RollbackEnds(lookup, was, hit);
              && err == (if ends then Fine else AttributeError)
              && book.Contents() == Restored(lookup, was, hit)
              && taker.filled == (if ends then 0 else old(taker.filled))
              && published == old(published)
                              + (if ends && hasBus then [Rejected(taker.ticket.id, "fok_rolled_back")] else [])
      ensures book.Keyed() && book.Orders() <= old(book.Orders()) + orders
    {
      hide MidRoll, RollbackEnds, Restored, AddAll, KeyedLevels, OrdersOf, SnapLevels,
           OrderBook.Contents, OrderBook.Keyed, OrderBook.Orders;
      ghost var log := published;
      err := RollBack(snapshot, hit, orders);
      if err != Fine {
        return;
      }
      Clear(taker);
      Announce([Rejected(taker.ticket.id, "fok_rolled_back")]);
    }

    /** Publish the closing events and the book as it now stands. */
    method Close(closing: seq<Event>)
      requires book.Keyed() && Indexed(book.Contents())
      modifies this`published
      ensures published == old(published) + (if hasBus then closing + [BookShown(SnapshotOf(book.Contents()))] else [])
      ensures book.Contents() == old(book.Contents())
    {
      hide Indexed, SnapshotOf;
      book.SnapshotShows();
      Announce(closing + [BookShown(book.TakeSnapshot())]);
    }

    /** Park the remainder of a taker. */
    method Park(taker: Order)
      requires book.Keyed() && taker !in book.Orders() && Validates(taker.ticket) && taker.ticket.kind != MARKET
      modifies book`bids, book`asks, book`clock, taker`arrival
      ensures book.Keyed() && book.Orders() == old(book.Orders()) + {taker}
      ensures book.Contents() == AddLot(old(book.Contents()), Lot(taker.ticket, taker.filled, 0))
    {
      hide AddLot, KeyedLevels;
      SameAdded(book.Contents(), taker.Snap(), Lot(taker.ticket, taker.filled, 0));
      var _ := book.Add(taker);
    }

    /** Deal with what the sweep left of an accepted order: done, killed, cancelled, dropped or rested. */
    method Conclude(taker: Order, fills: seq<Fill>, snapshot: seq<(string, int)>, ghost s: BookSweep,
                    ghost orders: set<Order>, ghost o: Outcome)
      returns (result: MatchResult, err: Raised)
      requires book.Keyed() && taker !in book.Orders() && taker !in orders && Validates(taker.ticket)
      requires fills == s.fills && snapshot == CountsBefore(s.hit) && Priced(s.hit)
      requires taker.Remaining() == s.left && taker.filled == taker.ticket.qty - s.left
      requires s.left > 0 ==> MidRoll(s.hit, orders)
      requires Ending(taker.ticket, lookup, s, book.Contents(), o) && Indexed(o.book)
      modifies this`published, this`consumed, book`bids, book`asks, book`clock, taker`filled, taker`arrival
      modifies orders`filled, orders`arrival
      ensures book.Keyed() && book.Contents() == o.book && taker.filled == o.takerFilled
      ensures result == MatchResult(o.fills, o.rested, o.fullyFilled) && err == o.err
      ensures published == old(published) + (if hasBus then Closing(taker.ticket, o) else [])
      ensures book.Orders() <= old(book.Orders()) + orders + {taker}
    {
      hide MidRoll, Indexed, KeyedLevels, AddLot, AddAll, Restored, RollbackEnds, OrdersOf, SnapshotOf, CountsBefore,
           SnapLevels, Priced, OrderBook.Contents, OrderBook.Keyed, OrderBook.Orders;
      if taker.Remaining() > 0 {
        if taker.ticket.tif == FOK {
          err := Kill(taker, snapshot, s.hit, orders);
          return NOTHING, err;
        }
        if taker.ticket.tif == IOC {
          Announce([Rejected(taker.ticket.id, "ioc_remainder_cancelled")]);
          return MatchResult(fills, false, false), Fine;
        }
        if taker.ticket.kind != MARKET {
          Park(taker);
          Close([Rested(taker.ticket.id, taker.ticket.side)]);
          return MatchResult(fills, true, false), Fine;
        }
        Close([]);
        return MatchResult(fills, false, false), Fine;
      }
      Close([Accepted(taker.ticket.id, taker.filled)]);
      return MatchResult(fills, false, true), Fine;
    }

    /** Match an incoming order against the book, filling both sides in place. */
    method Match(taker: Order) returns (result: MatchResult, err: Raised)
      requires Valid() && taker !in book.Orders() && taker.filled == 0 && Fresh(book.Contents(), taker.ticket)
      modifies this`published, this`consumed, book`bids, book`asks, book`clock, taker`filled, taker`arrival
      modifies book.Orders()`filled, book.Orders()`arrival
      ensures PricedLevels(old(book.Contents()).bids) && PricedLevels(old(book.Contents()).asks)
      ensures var was, t := old(book.Contents()), taker.ticket; var o := Execute(was, t, Terms(), lookup);
              && book.Contents() == o.book && taker.filled == o.takerFilled
              && result == MatchResult(o.fills, o.rested, o.fullyFilled) && err == o.err
              && published == Told(old(published), hasBus,
                                   if Validates(t) then SweepBook(was, t, Terms()).fills else [])
                              + (if hasBus then Closing(t, o) else [])
      ensures Valid()
      ensures book.Orders() <= old(book.Orders()) + {taker}
    {
      hide Indexed, Uncrossed, Fresh, Ranking, SweepBook, SweptBook, Told, Held, CountsBefore, KeyedLevels, AddLot,
           AddAll, Restored, RollbackEnds, OrdersOf, PricedLevels, Returnable, Execute, Closing, Ending;
      ghost var was, t, ex, orders := book.Contents(), taker.ticket, Terms(), book.Orders();
      ExecuteKeeps(was, t, ex, lookup);
      ghost var o := Execute(was, t, ex, lookup);
      err := taker.Validate();
      if err != Fine {
        ToldMore(published, hasBus, [], []);
        Refused(was, t, ex, lookup);
        return NOTHING, err;
      }
      ghost var s := SweepBook(was, t, ex);
      SweepBounds(was, t, ex, s);
      Endings(was, t, ex, lookup, s, SweptBook(was, t, ex), o);
      var fills, snapshot := Sweep(taker);
      if taker.Remaining() > 0 {
        ReadyToKill(was, t, ex, consumed, orders, s);
      }
      result, err := Conclude(taker, fills, snapshot, s, orders, o);
    }
  }
}
