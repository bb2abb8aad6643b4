/** What one `match` call means, on values: the walk over a queue of makers, the book it leaves,
    and what becomes of the taker's remainder (exchange/core/matching.py, exchange/core/book.py). */
module PriceTime {
  import opened Wrappers
  import opened Orders

  /** The venue a book trades for: its instrument, and whether it prevents self-trades. */
  datatype Exchange = Exchange(id: int, stp: bool)

  /** A fill, without its random id. */
  datatype Fill = Fill(exchangeId: int, price: int, qty: int, side: Side, taker: string, maker: string,
                       takerSub: string, makerSub: string)

  /** Price levels of one side, each a queue in arrival order. */
  type Levels = map<int, seq<Lot>>

  /** The resting side of one instrument. */
  datatype Book = Book(bids: Levels, asks: Levels, clock: nat) {
    function On(side: Side): Levels { if side.BUY? then bids else asks }
    function With(side: Side, levels: Levels): Book {
      if side.BUY? then this.(bids := levels) else this.(asks := levels)
    }
    predicate IsEmpty() { bids == map[] && asks == map[] }
  }

  function LevelAt(levels: Levels, price: int): seq<Lot> { if price in levels then levels[price] else [] }

  /** Replacing a level; an empty one is dropped. */
  function SetLevel(levels: Levels, price: int, lots: seq<Lot>): Levels {
    if lots != [] then levels[price := lots] else levels - {price}
  }

  /** Appending at the tail of the lot's own level, tagged with the next arrival number. */
  function AddLot(b: Book, m: Lot): Book
    requires m.t.price.Some?
  {
    var levels := b.On(m.t.side);
    var tail := m.(arrival := b.clock + 1);
    b.With(m.t.side, levels[m.t.price.value := LevelAt(levels, m.t.price.value) + [tail]]).(clock := b.clock + 1)
  }

  // ---------------------------------------------------------------- who may trade with whom

  function CrossPrice(t: Ticket, resting: int): Option<int> {
    if t.kind == MARKET then Some(resting)
    else if t.price.None? then None
    else if t.side == BUY then (if resting <= t.price.value then Some(resting) else None)
    else (if resting >= t.price.value then Some(resting) else None)
  }

  predicate Priced(q: seq<Lot>) { forall i :: 0 <= i < |q| ==> q[i].t.price.Some? }

  predicate Eligible(t: Ticket, ex: Exchange, m: Lot)
    requires m.t.price.Some?
  {
    !(ex.stp && m.t.sub == t.sub) && CrossPrice(t, m.t.price.value).Some? && m.Remaining() > 0
  }

  function FillOf(ex: Exchange, t: Ticket, m: Lot, qty: int): Fill
    requires m.t.price.Some?
  {
    Fill(ex.id, m.t.price.value, qty, t.side, t.id, m.t.id, t.sub, m.t.sub)
  }

  // ---------------------------------------------------------------- the walk

  /** `rest`: the makers still resting; `hit`: those that traded, as they stood before; `left`: the
      quantity the taker still wants. */
  datatype Swept = Swept(rest: seq<Lot>, fills: seq<Fill>, hit: seq<Lot>, left: int)

  function Walk(t: Ticket, ex: Exchange, q: seq<Lot>, want: int): Swept
    requires Priced(q)
  {
    if q == [] then Swept([], [], [], want)
    else
      var m := q[0];
      if want > 0 && Eligible(t, ex, m) then
        var take := Min(want, m.Remaining());
        var after := m.(filled := m.filled + take);
        var r := Walk(t, ex, q[1..], want - take);
        Swept((if after.Remaining() == 0 then [] else [after]) + r.rest,
              [FillOf(ex, t, m, take)] + r.fills, [m] + r.hit, r.left)
      else
        var r := Walk(t, ex, q[1..], want);
        r.(rest := [m] + r.rest)
  }

  /** The makers a taker may trade with, and those it passes by, both in queue order. */
  function Makers(t: Ticket, ex: Exchange, q: seq<Lot>): seq<Lot>
    requires Priced(q)
  {
    if q == [] then [] else (if Eligible(t, ex, q[0]) then [q[0]] else []) + Makers(t, ex, q[1..])
  }

  function Skipped(t: Ticket, ex: Exchange, q: seq<Lot>): seq<Lot>
    requires Priced(q)
  {
    if q == [] then [] else (if Eligible(t, ex, q[0]) then [] else [q[0]]) + Skipped(t, ex, q[1..])
  }

  function Quantity(q: seq<Lot>): int {
    if q == [] then 0 else q[0].Remaining() + Quantity(q[1..])
  }

  function FilledQty(fills: seq<Fill>): int {
    if fills == [] then 0 else fills[0].qty + FilledQty(fills[1..])
  }

  // ---------------------------------------------------------------- price priority

  ghost predicate Increasing(r: seq<int>) { forall i, j :: 0 <= i < j < |r| ==> r[i] < r[j] }
  ghost predicate Decreasing(r: seq<int>) { forall i, j :: 0 <= i < j < |r| ==> r[i] > r[j] }
  ghost predicate Lists(r: seq<int>, ks: set<int>) { forall k :: k in r <==> k in ks }

  lemma {:induction false} HasLeast(ks: set<int>)
    requires ks != {}
    ensures exists m :: m in ks && forall k :: k in ks ==> m <= k
  {
    var x := AnyOf(ks);
    var rest := ks - {x};
    var least := x;
    if rest != {} {
      HasLeast(rest);
      var m :| m in rest && forall k :: k in rest ==> m <= k;
      least := Min(m, x);
    }
    assert forall k :: k in ks ==> k == x || k in rest;
    assert least in ks && forall k :: k in ks ==> least <= k;
  }

  function Least(ks: set<int>): (m: int)
    requires ks != {}
    ensures m in ks && forall k :: k in ks ==> m <= k
  {
    HasLeast(ks);
    var m :| m in ks && forall k :: k in ks ==> m <= k;
    m
  }

  function Ascending(ks: set<int>): (r: seq<int>)
    ensures Increasing(r) && Lists(r, ks)
  {
    if ks == {} then []
    else
      var m := Least(ks);
      [m] + Ascending(ks - {m})
  }

  function Reversed(r: seq<int>): (s: seq<int>)
    ensures |s| == |r| && forall i :: 0 <= i < |r| ==> s[i] == r[|r| - 1 - i]
    ensures forall k :: k in s <==> k in r
  {
    if r == [] then [] else Reversed(r[1..]) + [r[0]]
  }

  /** The prices an aggressor on `side` visits: asks upward for a BUY, bids downward for a SELL. */
  function PriorityPrices(side: Side, ks: set<int>): (r: seq<int>)
    ensures Lists(r, ks)
    ensures if side.BUY? then Increasing(r) else Decreasing(r)
  {
    if side.BUY? then Ascending(ks) else Reversed(Ascending(ks))
  }

  // ---------------------------------------------------------------- sweeping the levels

  datatype BookSweep = BookSweep(levels: Levels, fills: seq<Fill>, hit: seq<Lot>, left: int)

  ghost predicate PricedLevels(levels: Levels) {
    forall p :: p in levels ==> Priced(levels[p])
  }

  lemma WalkPriced(t: Ticket, ex: Exchange, q: seq<Lot>, want: int)
    requires Priced(q)
    ensures Priced(Walk(t, ex, q, want).rest) && Priced(Walk(t, ex, q, want).hit)
  {
    if q != [] {
      WalkPriced(t, ex, q[1..], want);
      if want > 0 && Eligible(t, ex, q[0]) {
        WalkPriced(t, ex, q[1..], want - Min(want, q[0].Remaining()));
      }
    }
  }

  ghost function SweepLevels(t: Ticket, ex: Exchange, levels: Levels, prices: seq<int>, want: int): (r: BookSweep)
    requires PricedLevels(levels)
    ensures PricedLevels(r.levels)
    decreases |prices|
  {
    if prices == [] then BookSweep(levels, [], [], want)
    else
      WalkPriced(t, ex, LevelAt(levels, prices[0]), want);
      var w := Walk(t, ex, LevelAt(levels, prices[0]), want);
      var r := SweepLevels(t, ex, SetLevel(levels, prices[0], w.rest), prices[1..], w.left);
      BookSweep(r.levels, w.fills + r.fills, w.hit + r.hit, r.left)
  }

  // ---------------------------------------------------------------- the whole call

  /** How rollback finds a maker by id. `LevelsAsOrders` is the code as it stands: it reads the
      `order_id` of a level, so it raises as soon as any level exists. `OverOrders` walks the orders. */
  datatype Lookup = LevelsAsOrders | OverOrders

  datatype Outcome = Outcome(book: Book, fills: seq<Fill>, takerFilled: int, rested: bool,
                             fullyFilled: bool, err: Raised)

  /** Re-inserting makers one by one, each at the tail of its level. */
  function AddAll(b: Book, makers: seq<Lot>): Book
    requires Priced(makers)
    decreases |makers|
  {
    if makers == [] then b else AddAll(AddLot(b, makers[0]), makers[1..])
  }

  /** Whether the rollback loop gets to its end. */
  predicate RollbackEnds(lookup: Lookup, b: Book, makers: seq<Lot>) {
    lookup.OverOrders? || makers == [] || (|makers| == 1 && b.IsEmpty())
  }

  function Restored(lookup: Lookup, b: Book, makers: seq<Lot>): Book
    requires Priced(makers)
  {
    if RollbackEnds(lookup, b, makers) then AddAll(b, makers)
    else if b.IsEmpty() then AddLot(b, makers[0])
    else b
  }

  ghost function SweepBook(b: Book, t: Ticket, ex: Exchange): (r: BookSweep)
    requires PricedLevels(b.bids) && PricedLevels(b.asks)
    ensures PricedLevels(r.levels)
  {
    var levels := b.On(t.side.Opposite());
    SweepLevels(t, ex, levels, PriorityPrices(t.side, levels.Keys), t.qty)
  }

  ghost function Execute(b: Book, t: Ticket, ex: Exchange, lookup: Lookup): Outcome
    requires PricedLevels(b.bids) && PricedLevels(b.asks)
  {
    if !Validates(t) then Outcome(b, [], 0, false, false, ValueError)
    else
      var s := SweepBook(b, t, ex);
      var swept := b.With(t.side.Opposite(), s.levels);
      var filled := t.qty - s.left;
      if s.left <= 0 then Outcome(swept, s.fills, filled, false, true, Fine)
      else if t.tif == FOK then
        HitPriced(t, ex, b.On(t.side.Opposite()), PriorityPrices(t.side, b.On(t.side.Opposite()).Keys), t.qty);
        var back := Restored(lookup, swept, s.hit);
        if RollbackEnds(lookup, swept, s.hit) then Outcome(back, [], 0, false, false, Fine)
        else Outcome(back, [], filled, false, false, AttributeError)
      else if t.tif == IOC || t.kind == MARKET then Outcome(swept, s.fills, filled, false, false, Fine)
      else Outcome(AddLot(swept, Lot(t, filled, 0)), s.fills, filled, true, false, Fine)
  }

  lemma HitPriced(t: Ticket, ex: Exchange, levels: Levels, prices: seq<int>, want: int)
    requires PricedLevels(levels)
    ensures Priced(SweepLevels(t, ex, levels, prices, want).hit)
    decreases |prices|
  {
    if prices != [] {
      WalkPriced(t, ex, LevelAt(levels, prices[0]), want);
      var w := Walk(t, ex, LevelAt(levels, prices[0]), want);
      HitPriced(t, ex, SetLevel(levels, prices[0], w.rest), prices[1..], w.left);
    }
  }
}
