/** The shadow ledger (exchange/core/settlement.py): positions and P&L per subaccount. */
module Settlement {
  import opened Wrappers
  import opened Orders
  import opened PriceTime
  import opened Sums
  import Conservation
  import Runs

  /** One leg of a fill, as an account sees it. */
  datatype Leg = Leg(side: Side, price: int, qty: nat) {
    function Signed(): int { if side.BUY? then qty else -(qty as int) }
  }

  datatype Holding = Holding(net: int, avg: real, realized: int)

  const FLAT := Holding(0, 0.0, 0)

  /** When a fill that reduces a position resets its average: on every reduction, as the code does, or
      only when the position flips through zero, as its comment says. */
  datatype Reset = EveryCut | OnlyFlips

  /** Python's `int()`: truncation toward zero. */
  function Truncate(x: real): (r: int)
    ensures -1.0 < r as real - x < 1.0
  {
    if x >= 0.0 then x.Floor else -((-x).Floor)
  }

  lemma TruncatesTowardZero(x: real)
    ensures if x >= 0.0 then 0.0 <= Truncate(x) as real <= x else x <= Truncate(x) as real <= 0.0
  {
  }

  function Abs(n: int): nat { if n >= 0 then n else -n }

  predicate Reduces(h: Holding, e: Leg) { h.net != 0 && (e.Signed() > 0) != (h.net > 0) }

  /** A reduction that leaves the position on its side. */
  predicate Partial(h: Holding, e: Leg) {
    Reduces(h, e) && h.net + e.Signed() != 0 && (h.net + e.Signed() > 0) == (h.net > 0)
  }

  /** The part of the position a reduction closes, signed like the position. */
  function Closed(h: Holding, e: Leg): int
    requires Reduces(h, e)
  {
    if h.net > 0 then Min(h.net, e.qty) else Max(h.net, -(e.qty as int))
  }

  /** The average over what was held and what was bought or sold, both signed. */
  function Weighted(net: int, avg: real, signed: int, price: int): real {
    if net + signed == 0 then 0.0 else (avg * net as real + (price * signed) as real) / (net + signed) as real
  }

  /** What closing `closed` contracts realizes, in whole cents. */
  function Cents(avg: real, price: int, closed: int): int { Truncate(Earned(avg, price, closed)) }

  function Earned(avg: real, price: int, closed: int): real { (price as real - avg) * closed as real }

  /** One fill, in signed quantities. */
  function Applied(reset: Reset, h: Holding, e: Leg): Holding {
    var net := h.net + e.Signed();
    if Reduces(h, e) then
      Holding(net,
              if net == 0 then 0.0 else if reset.OnlyFlips? && Partial(h, e) then h.avg else e.price as real,
              h.realized + Cents(h.avg, e.price, Closed(h, e)))
    else
      Holding(net, Weighted(h.net, h.avg, e.Signed(), e.price), h.realized)
  }

  function After(reset: Reset, legs: seq<Leg>): Holding
    decreases |legs|
  {
    if legs == [] then FLAT else Applied(reset, After(reset, legs[..|legs| - 1]), legs[|legs| - 1])
  }

  // ---------------------------------------------------------------- mark to market

  /** Realized plus unrealized P&L at `mark`. */
  function Value(h: Holding, mark: real): real { h.realized as real + (mark - h.avg) * h.net as real }

  /** The P&L a leg has earned once the market stands at `mark`. */
  function Gain(e: Leg, mark: real): real { e.Signed() as real * (mark - e.price as real) }

  function Gains(legs: seq<Leg>, mark: real): real
    decreases |legs|
  {
    if legs == [] then 0.0 else Gains(legs[..|legs| - 1], mark) + Gain(legs[|legs| - 1], mark)
  }

  /** What resetting the average at a partial close loses. */
  function Lost(reset: Reset, h: Holding, e: Leg): real {
    if reset.EveryCut? && Partial(h, e) then (e.price as real - h.avg) * (h.net + e.Signed()) as real else 0.0
  }

  function Losses(reset: Reset, legs: seq<Leg>): real
    decreases |legs|
  {
    if legs == [] then 0.0
    else
      var init := legs[..|legs| - 1];
      Losses(reset, init) + Lost(reset, After(reset, init), legs[|legs| - 1])
  }

  /** How many legs reduced the position: each truncates once. */
  function Cuts(reset: Reset, legs: seq<Leg>): nat
    decreases |legs|
  {
    if legs == [] then 0
    else
      var init := legs[..|legs| - 1];
      Cuts(reset, init) + (if Reduces(After(reset, init), legs[|legs| - 1]) then 1 else 0)
  }

  lemma Opens(reset: Reset, h: Holding, e: Leg, mark: real)
    requires !Reduces(h, e)
    ensures Value(Applied(reset, h, e), mark) == Value(h, mark) + Gain(e, mark)
  {
    var net, cost := h.net + e.Signed(), h.avg * h.net as real + (e.price * e.Signed()) as real;
    var s, p := e.Signed() as real, e.price as real;
    assert (e.price * e.Signed()) as real == p * s;
    if net == 0 {
      assert h.net == 0 && e.Signed() == 0;
    } else {
      var avg := cost / net as real;
      assert avg * net as real == cost;
      assert (mark - avg) * net as real == mark * net as real - cost;
      assert mark * net as real == mark * h.net as real + mark * s;
      assert (mark - h.avg) * h.net as real == mark * h.net as real - h.avg * h.net as real;
      assert s * (mark - p) == mark * s - p * s;
    }
  }

  /** The exact value of a reduction, before its realized part is truncated: closed out, cut in part with
      the average kept or reset, or flipped. */
  lemma CutExact(net: int, signed: int, avg: real, price: real, mark: real)
    ensures net + signed == 0 ==>
              (price - avg) * net as real == (mark - avg) * net as real + signed as real * (mark - price)
    ensures (price - avg) * (-signed) as real + (mark - avg) * (net + signed) as real
            == (mark - avg) * net as real + signed as real * (mark - price)
    ensures (price - avg) * (-signed) as real + (mark - price) * (net + signed) as real
            == (mark - avg) * net as real + signed as real * (mark - price) - (price - avg) * (net + signed) as real
    ensures (price - avg) * net as real + (mark - price) * (net + signed) as real
            == (mark - avg) * net as real + signed as real * (mark - price)
  {
    var n, s := net as real, signed as real;
    assert (net + signed) as real == n + s && (-signed) as real == -s;
    assert (price - avg) * (-s) + (mark - avg) * (n + s) == (mark - avg) * n + s * (mark - price);
    assert (price - avg) * n + (mark - price) * (n + s) == (mark - avg) * n + s * (mark - price);
    assert (price - avg) * (-s) + (mark - price) * (n + s)
           == (mark - avg) * n + s * (mark - price) - (price - avg) * (n + s);
  }

  lemma Cut(reset: Reset, h: Holding, e: Leg, mark: real)
    requires Reduces(h, e)
    ensures -1.0 < Value(Applied(reset, h, e), mark) - (Value(h, mark) + Gain(e, mark) - Lost(reset, h, e)) < 1.0
  {
    hide Truncate;
    var after, exact := Applied(reset, h, e), (e.price as real - h.avg) * Closed(h, e) as real;
    CutExact(h.net, e.Signed(), h.avg, e.price as real, mark);
    assert Closed(h, e) == if Partial(h, e) then -e.Signed() else h.net;
    assert exact + (mark - after.avg) * after.net as real
           == (mark - h.avg) * h.net as real + Gain(e, mark) - Lost(reset, h, e);
  }

  /** For any fills and any mark: realized P&L plus (mark - average) x net is what the fills have earned
      at that mark, less what the partial closes lost, to within a cent per reducing fill. */
  lemma {:induction false} MarkToMarket(reset: Reset, legs: seq<Leg>, mark: real)
    ensures var gap := Value(After(reset, legs), mark) - (Gains(legs, mark) - Losses(reset, legs));
            AbsR(gap) <= Cuts(reset, legs) as real
    decreases |legs|
  {
    if legs != [] {
      var init, e := legs[..|legs| - 1], legs[|legs| - 1];
      var h := After(reset, init);
      MarkToMarket(reset, init, mark);
      if Reduces(h, e) {
        Cut(reset, h, e, mark);
      } else {
        Opens(reset, h, e, mark);
      }
    }
  }

  /** An account that only buys, or only sells, is shown to the cent. */
  lemma {:induction false} OneSidedIsExact(reset: Reset, legs: seq<Leg>, side: Side, mark: real)
    requires forall i :: 0 <= i < |legs| ==> legs[i].side == side && legs[i].qty > 0
    ensures var h := After(reset, legs); if side.BUY? then h.net >= 0 else h.net <= 0
    ensures Cuts(reset, legs) == 0 && Losses(reset, legs) == 0.0
    ensures Value(After(reset, legs), mark) == Gains(legs, mark)
    decreases |legs|
  {
    if legs != [] {
      hide Value, Gain, Weighted, Cents;
      var init, e := legs[..|legs| - 1], legs[|legs| - 1];
      OneSidedIsExact(reset, init, side, mark);
      Opens(reset, After(reset, init), e, mark);
    } else {
      assert Value(FLAT, mark) == 0.0;
    }
  }

  /** Resetting only on flips loses nothing: then the identity is exact up to truncation. */
  lemma {:induction false} FlipsLoseNothing(legs: seq<Leg>)
    ensures Losses(OnlyFlips, legs) == 0.0
    decreases |legs|
  {
    if legs != [] {
      FlipsLoseNothing(legs[..|legs| - 1]);
    }
  }

  /** A flat position carries no average over into the next one. */
  lemma FlatHasNoAverage(reset: Reset, legs: seq<Leg>)
    ensures After(reset, legs).net == 0 ==> After(reset, legs).avg == 0.0
  {
    hide Cents;
  }

  /** The code's reset loses nothing on a fill exactly when the fill is no partial close, or is one at
      the average price; and exactly then it leaves what the documented reset leaves. */
  lemma ResetHarmlessIff(h: Holding, e: Leg)
    ensures Lost(EveryCut, h, e) == 0.0 <==> (!Partial(h, e) || e.price as real == h.avg)
    ensures Applied(EveryCut, h, e) == Applied(OnlyFlips, h, e) <==> (!Partial(h, e) || e.price as real == h.avg)
  {
    if Partial(h, e) && e.price as real != h.avg {
      var a, b := e.price as real - h.avg, (h.net + e.Signed()) as real;
      assert a != 0.0 && b != 0.0;
      assert a * b != 0.0;
    }
  }

  /** Two bought at 50, one sold at 60, market at 60: the account shows 10 cents of the 20 it made. */
  lemma PartialCloseMisstates()
    ensures var legs := [Leg(BUY, 50, 2), Leg(SELL, 60, 1)];
            Value(After(EveryCut, legs), 60.0) == 10.0 && Gains(legs, 60.0) == 20.0
  {
    var a, b := Leg(BUY, 50, 2), Leg(SELL, 60, 1);
    var legs := [a, b];
    assert legs[..1] == [a] && [a][..0] == [];
    var h := After(EveryCut, [a]);
    assert Weighted(0, 0.0, 2, 50) == 50.0;
    assert h == Applied(EveryCut, FLAT, a) == Holding(2, 50.0, 0);
    assert Cents(50.0, 60, 1) == 10;
    assert Applied(EveryCut, h, b) == Holding(1, 60.0, 10);
    assert Gains([a], 60.0) == 20.0;
  }

  // ---------------------------------------------------------------- the class

  class Position {
    const sub: string
    const exchangeId: int
    var net: int
    var avg: real
    var realized: int

    constructor (sub: string, exchangeId: int)
      ensures this.sub == sub && this.exchangeId == exchangeId && State() == FLAT
    {
      this.sub, this.exchangeId := sub, exchangeId;
      net, avg, realized := 0, 0.0, 0;
    }

    function State(): Holding
      reads this
    {
      Holding(net, avg, realized)
    }

    method ApplyFill(side: Side, price: int, qty: nat)
      modifies this
      ensures State() == Applied(EveryCut, old(State()), Leg(side, price, qty))
    {
      hide Applied, Truncate, Reduces, BySize;
      ghost var h, e := State(), Leg(side, price, qty);
      var signed: int := if side == BUY then qty else -(qty as int);
      WhichBranch(h, e);
      if net == 0 || (signed > 0) == (net > 0) {
        OpenedBy(h, e);
        avg := BySize(avg, Abs(net), price, qty);
        net := net + signed;
      } else {
        var closing := Min(qty, Abs(net));
        if net > 0 {
          var gain := (price as real - avg) * closing as real;
          LongReduced(h, e, gain);
          realized := realized + Truncate(gain);
        } else {
          var gain := (avg - price as real) * closing as real;
          ShortReduced(h, e, gain);
          realized := realized + Truncate(gain);
        }
        net := net + signed;
        if net == 0 {
          avg := 0.0;
        } else if (signed > 0) != (net - signed > 0) {
          avg := price as real;
        }
      }
    }

    /** The open part at a mark; nothing without one. */
    function Unrealized(mark: Option<int>): (r: int)
      reads this
      ensures r == Marked(State(), mark)
    {
      if mark.None? || net == 0 then 0
      else if net > 0 then Truncate((mark.value as real - avg) * net as real)
      else
        var open := (avg - mark.value as real) * (-net) as real;
        CentsBySide(avg, mark.value, net, -net, open);
        Truncate(open)
    }
  }

  function Marked(h: Holding, mark: Option<int>): int {
    if mark.None? || h.net == 0 then 0 else Cents(h.avg, mark.value, h.net)
  }

  /** What an account shows at a mark is what it is worth there, to within a cent, and to the cent once it is flat;
      without a mark it shows only what it realized. */
  lemma MarkedWorth(h: Holding, mark: int)
    ensures AbsR(h.realized as real + Marked(h, Some(mark)) as real - Value(h, mark as real)) < 1.0
    ensures h.net == 0 ==> h.realized as real + Marked(h, Some(mark)) as real == Value(h, mark as real)
    ensures Marked(h, None) == 0
  {
    hide Value, Earned, Cents;
    ValueIs(h, mark);
    CentsNear(h.avg, mark, h.net);
    NothingEarned(h.avg, mark);
  }

  lemma ValueIs(h: Holding, mark: int)
    ensures Value(h, mark as real) == h.realized as real + Earned(h.avg, mark, h.net)
  {
  }

  lemma CentsNear(avg: real, price: int, closed: int)
    ensures AbsR(Cents(avg, price, closed) as real - Earned(avg, price, closed)) < 1.0
  {
    hide Truncate, Earned;
  }

  lemma NothingEarned(avg: real, price: int)
    ensures Earned(avg, price, 0) == 0.0
  {
  }

  /** The code's average over absolute sizes; nothing traded on nothing held averages to zero. */
  function BySize(avg: real, held: nat, price: int, qty: nat): real {
    var total := held + qty;
    if total == 0 then 0.0 else (avg * held as real + (price * qty) as real) / total as real
  }

  /** It is the average over signed sizes. */
  lemma WeightedBySize(net: int, signed: int, avg: real, price: int, qty: nat)
    requires signed == qty || signed == -(qty as int)
    requires net == 0 || (signed > 0) == (net > 0)
    ensures Weighted(net, avg, signed, price) == BySize(avg, Abs(net), price, qty)
  {
    if net + signed < 0 {
      ShortBySize(avg, Abs(net), price, qty);
    }
  }

  lemma ShortBySize(avg: real, held: nat, price: int, qty: nat)
    requires held + qty > 0
    ensures Weighted(-(held as int), avg, -(qty as int), price) == BySize(avg, held, price, qty)
  {
    var a, b := avg * held as real + (price * qty) as real, (held + qty) as real;
    NegatedProduct(avg, held);
    NegatedWhole(price, qty);
    assert (-(held as int) + -(qty as int)) as real == -b;
    NegatedQuotient(a, b);
  }

  lemma NegatedWhole(x: int, n: int)
    ensures (x * -n) as real == -((x * n) as real)
  {
    assert x * -n == -(x * n);
  }

  lemma WhichBranch(h: Holding, e: Leg)
    ensures Reduces(h, e) <==> !(h.net == 0 || (e.Signed() > 0) == (h.net > 0))
  {
  }

  /** The three branches of a fill, over the sizes the code computes with. */
  lemma OpenedBy(h: Holding, e: Leg)
    requires !Reduces(h, e)
    ensures Applied(EveryCut, h, e)
            == Holding(h.net + e.Signed(), BySize(h.avg, Abs(h.net), e.price, e.qty), h.realized)
  {
    WeightedBySize(h.net, e.Signed(), h.avg, e.price, e.qty);
    hide Weighted, Cents, BySize;
  }

  lemma LongReduced(h: Holding, e: Leg, gain: real)
    requires Reduces(h, e) && h.net > 0 && gain == (e.price as real - h.avg) * Min(e.qty, Abs(h.net)) as real
    ensures var net := h.net + e.Signed();
            Applied(EveryCut, h, e)
            == Holding(net, if net == 0 then 0.0 else e.price as real, h.realized + Truncate(gain))
  {
    CentsBySide(h.avg, e.price, Closed(h, e), Min(e.qty, Abs(h.net)), gain);
    hide Weighted, Cents;
  }

  lemma ShortReduced(h: Holding, e: Leg, gain: real)
    requires Reduces(h, e) && h.net < 0 && gain == (h.avg - e.price as real) * Min(e.qty, Abs(h.net)) as real
    ensures var net := h.net + e.Signed();
            Applied(EveryCut, h, e)
            == Holding(net, if net == 0 then 0.0 else e.price as real, h.realized + Truncate(gain))
  {
    CentsBySide(h.avg, e.price, Closed(h, e), Min(e.qty, Abs(h.net)), gain);
    hide Weighted, Cents;
  }

  lemma NegatedProduct(x: real, n: int)
    ensures x * (-n) as real == -(x * n as real)
  {
  }

  lemma NegatedQuotient(a: real, b: real)
    requires b != 0.0
    ensures (-a) / (-b) == a / b
  {
  }

  /** Short and long closes are one formula in signed sizes. */
  lemma CentsBySide(avg: real, price: int, closed: int, closing: int, gain: real)
    requires (closed == closing && gain == (price as real - avg) * closing as real)
             || (closed == -closing && gain == (avg - price as real) * closing as real)
    ensures Cents(avg, price, closed) == Truncate(gain)
  {
    CentsLong(avg, price, closing);
    CentsShort(avg, price, closing);
    hide Cents, Truncate;
  }

  lemma CentsLong(avg: real, price: int, n: int)
    ensures Cents(avg, price, n) == Truncate((price as real - avg) * n as real)
  {
    hide Truncate;
  }

  lemma CentsShort(avg: real, price: int, n: int)
    ensures Cents(avg, price, -n) == Truncate((avg - price as real) * n as real)
  {
    hide Truncate, Earned;
    EarnedShort(avg, price, n);
  }

  lemma EarnedShort(avg: real, price: int, n: int)
    ensures Earned(avg, price, -n) == (avg - price as real) * n as real
  {
    Opposites(price as real, avg, n);
  }

  lemma Opposites(a: real, b: real, n: int)
    ensures (a - b) * (-n) as real == (b - a) * n as real
  {
    var r := n as real;
    assert (-n) as real == -r;
    Flip(a, b, r);
  }

  lemma Flip(a: real, b: real, r: real)
    ensures (a - b) * -r == (b - a) * r
  {
  }

  // ---------------------------------------------------------------- the ledger

  type Key = (string, int)
  type Ledger = map<Key, Holding>

  function Look(l: Ledger, k: Key): Holding { if k in l then l[k] else FLAT }

  function Recorded(l: Ledger, k: Key, e: Leg): Ledger { l[k := Applied(EveryCut, Look(l, k), e)] }

  /** A fill, recorded on both of its legs. */
  function TakerKey(f: Fill): Key { (f.takerSub, f.exchangeId) }
  function MakerKey(f: Fill): Key { (f.makerSub, f.exchangeId) }

  function RecordedBoth(l: Ledger, f: Fill): Ledger
    requires f.qty >= 0
  {
    Recorded(Recorded(l, TakerKey(f), Leg(f.side, f.price, f.qty)), MakerKey(f), Leg(f.side.Opposite(), f.price, f.qty))
  }

  ghost predicate Sizes(fills: seq<Fill>) { forall f :: f in fills ==> f.qty >= 0 }

  function Books(fills: seq<Fill>): Ledger
    requires Sizes(fills)
    decreases |fills|
  {
    if fills == [] then map[] else RecordedBoth(Books(fills[..|fills| - 1]), fills[|fills| - 1])
  }

  function NetOn(l: Ledger, ex: int): Key -> int { (k: Key) => if k.1 == ex then Look(l, k).net else 0 }

  lemma RecordMoves(l: Ledger, k: Key, e: Leg, keys: set<Key>, ex: int)
    requires k in keys
    ensures SumInt(keys, NetOn(Recorded(l, k, e), ex))
            == SumInt(keys, NetOn(l, ex)) + (if k.1 == ex then e.Signed() else 0)
  {
    var f, g := NetOn(Recorded(l, k, e), ex), NetOn(l, ex);
    SumIntPick(keys, f, k);
    SumIntPick(keys, g, k);
    SumIntSame(keys - {k}, f, g);
  }

  /** Recording every fill on both legs keeps each instrument's net positions summing to zero. */
  lemma {:induction false} BooksBalance(fills: seq<Fill>, keys: set<Key>, ex: int)
    requires Sizes(fills) && forall f :: f in fills ==> TakerKey(f) in keys && MakerKey(f) in keys
    ensures SumInt(keys, NetOn(Books(fills), ex)) == 0
    decreases |fills|
  {
    if fills == [] {
      AllFlat(keys, ex);
    } else {
      var init, f := fills[..|fills| - 1], fills[|fills| - 1];
      assert f in fills;
      BooksBalance(init, keys, ex);
      var e, d := Leg(f.side, f.price, f.qty), Leg(f.side.Opposite(), f.price, f.qty);
      RecordMoves(Books(init), TakerKey(f), e, keys, ex);
      RecordMoves(Recorded(Books(init), TakerKey(f), e), MakerKey(f), d, keys, ex);
    }
  }

  lemma {:induction false} AllFlat(keys: set<Key>, ex: int)
    ensures SumInt(keys, NetOn(map[], ex)) == 0
    decreases |keys|
  {
    if keys != {} {
      AllFlat(keys - {AnyOf(keys)}, ex);
    }
  }

  /** The legs one account saw, in order. */
  function LegsOf(fills: seq<Fill>, k: Key): seq<Leg>
    requires Sizes(fills)
    decreases |fills|
  {
    if fills == [] then []
    else
      var f := fills[|fills| - 1];
      LegsOf(fills[..|fills| - 1], k)
      + (if TakerKey(f) == k then [Leg(f.side, f.price, f.qty)] else [])
      + (if MakerKey(f) == k then [Leg(f.side.Opposite(), f.price, f.qty)] else [])
  }

  lemma AfterOne(reset: Reset, legs: seq<Leg>, e: Leg)
    ensures After(reset, legs + [e]) == Applied(reset, After(reset, legs), e)
  {
    assert (legs + [e])[..|legs|] == legs;
  }

  lemma LookRecorded(l: Ledger, at: Key, e: Leg, k: Key)
    ensures Look(Recorded(l, at, e), k) == if k == at then Applied(EveryCut, Look(l, k), e) else Look(l, k)
  {
    hide Applied;
  }

  /** Accounts do not disturb one another: each stands where its own legs alone put it. */
  lemma {:induction false} BooksByAccount(fills: seq<Fill>, k: Key)
    requires Sizes(fills)
    ensures Look(Books(fills), k) == After(EveryCut, LegsOf(fills, k))
    decreases |fills|
  {
    if fills != [] {
      hide Applied, Look, Recorded;
      var init, f := fills[..|fills| - 1], fills[|fills| - 1];
      BooksByAccount(init, k);
      var legs := LegsOf(init, k);
      var e, d := Leg(f.side, f.price, f.qty), Leg(f.side.Opposite(), f.price, f.qty);
      LookRecorded(Books(init), TakerKey(f), e, k);
      LookRecorded(Recorded(Books(init), TakerKey(f), e), MakerKey(f), d, k);
      AfterOne(EveryCut, legs, e);
      AfterOne(EveryCut, legs, d);
      AfterOne(EveryCut, legs + [e], d);
      assert legs + [] == legs && legs + [e] + [] == legs + [e];
    }
  }

  /** What a subaccount bought on an instrument less what it sold, as taker and as maker. */
  function Traded(fills: seq<Fill>, sub: string, ex: int): int
    decreases |fills|
  {
    if fills == [] then 0
    else
      var f := fills[|fills| - 1];
      var taken := if f.exchangeId != ex then 0 else if f.side == BUY then f.qty else -f.qty;
      Traded(fills[..|fills| - 1], sub, ex) + (if f.takerSub == sub then taken else 0)
      - (if f.makerSub == sub then taken else 0)
  }

  /** That is its net position. */
  lemma {:induction false} NetIsTraded(fills: seq<Fill>, sub: string, ex: int)
    requires Sizes(fills)
    ensures Look(Books(fills), (sub, ex)).net == Traded(fills, sub, ex)
    decreases |fills|
  {
    if fills != [] {
      hide Look, Recorded, Cents, Weighted;
      var init, f := fills[..|fills| - 1], fills[|fills| - 1];
      NetIsTraded(init, sub, ex);
      LookRecorded(Books(init), TakerKey(f), Leg(f.side, f.price, f.qty), (sub, ex));
      LookRecorded(Recorded(Books(init), TakerKey(f), Leg(f.side, f.price, f.qty)), MakerKey(f),
                   Leg(f.side.Opposite(), f.price, f.qty), (sub, ex));
    }
  }

  // ---------------------------------------------------------------- the venue as a whole

  function GainOf(fills: seq<Fill>, marks: int -> real): Key -> real
    requires Sizes(fills)
  {
    (k: Key) => Gains(LegsOf(fills, k), marks(k.1))
  }

  lemma GainsOne(legs: seq<Leg>, e: Leg, mark: real)
    ensures Gains(legs + [e], mark) == Gains(legs, mark) + Gain(e, mark)
  {
    assert (legs + [e])[..|legs|] == legs;
  }

  lemma GainOfStep(fills: seq<Fill>, marks: int -> real, k: Key)
    requires Sizes(fills) && fills != []
    ensures var f := fills[|fills| - 1]; var g := Gain(Leg(f.side, f.price, f.qty), marks(k.1));
            GainOf(fills, marks)(k) == GainOf(fills[..|fills| - 1], marks)(k)
              + (if TakerKey(f) == k then g else 0.0) - (if MakerKey(f) == k then g else 0.0)
  {
    hide Gain, Gains;
    var init, f := fills[..|fills| - 1], fills[|fills| - 1];
    var legs := LegsOf(init, k);
    var e, d := Leg(f.side, f.price, f.qty), Leg(f.side.Opposite(), f.price, f.qty);
    GainsOne(legs, e, marks(k.1));
    GainsOne(legs, d, marks(k.1));
    GainsOne(legs + [e], d, marks(k.1));
    OppositeGain(e, marks(k.1));
    assert legs + [] == legs && legs + [e] + [] == legs + [e];
  }

  lemma OppositeGain(e: Leg, mark: real)
    ensures Gain(Leg(e.side.Opposite(), e.price, e.qty), mark) == -Gain(e, mark)
  {
    assert -(e.Signed() as real * (mark - e.price as real)) == (-e.Signed()) as real * (mark - e.price as real);
  }

  /** What one account gains, another loses. */
  lemma {:induction false} GainsCancel(fills: seq<Fill>, marks: int -> real, keys: set<Key>)
    requires Sizes(fills) && forall f :: f in fills ==> TakerKey(f) in keys && MakerKey(f) in keys
    ensures SumReal(keys, GainOf(fills, marks)) == 0.0
    decreases |fills|
  {
    if fills == [] {
      NoGains(marks, keys);
    } else {
      hide GainOf, LegsOf, Gain;
      var init, f := fills[..|fills| - 1], fills[|fills| - 1];
      assert f in fills;
      GainsCancel(init, marks, keys);
      forall k | k in keys
        ensures var g := Gain(Leg(f.side, f.price, f.qty), marks(k.1));
                GainOf(fills, marks)(k) == GainOf(init, marks)(k)
                  + (if TakerKey(f) == k then g else 0.0) - (if MakerKey(f) == k then g else 0.0)
      {
        GainOfStep(fills, marks, k);
      }
      Transfer(keys, GainOf(init, marks), GainOf(fills, marks), TakerKey(f), MakerKey(f),
               Gain(Leg(f.side, f.price, f.qty), marks(f.exchangeId)));
    }
  }

  /** Moving an amount from one key to another keeps the sum. */
  lemma Transfer(keys: set<Key>, f: Key -> real, g: Key -> real, a: Key, b: Key, x: real)
    requires a in keys && b in keys
    requires forall k :: k in keys ==> g(k) == f(k) + (if a == k then x else 0.0) - (if b == k then x else 0.0)
    ensures SumReal(keys, g) == SumReal(keys, f)
  {
    SumRealPick(keys, f, a);
    SumRealPick(keys, g, a);
    if a == b {
      SumRealSame(keys - {a}, f, g);
    } else {
      SumRealPick(keys - {a}, f, b);
      SumRealPick(keys - {a}, g, b);
      SumRealSame(keys - {a} - {b}, f, g);
    }
  }

  lemma {:induction false} NoGains(marks: int -> real, keys: set<Key>)
    ensures SumReal(keys, GainOf([], marks)) == 0.0
    decreases |keys|
  {
    if keys != {} {
      NoGains(marks, keys - {AnyOf(keys)});
    }
  }

  /** An account's marked P&L with what its partial closes lost put back. */
  function Restated(fills: seq<Fill>, marks: int -> real): Key -> real
    requires Sizes(fills)
  {
    (k: Key) => Value(Look(Books(fills), k), marks(k.1)) + Losses(EveryCut, LegsOf(fills, k))
  }

  function CutsOf(fills: seq<Fill>): Key -> real
    requires Sizes(fills)
  {
    (k: Key) => Cuts(EveryCut, LegsOf(fills, k)) as real
  }

  lemma {:induction false} SumsStayClose(keys: set<Key>, f: Key -> real, g: Key -> real, gap: Key -> real)
    requires forall k :: k in keys ==> AbsR(f(k) - g(k)) <= gap(k)
    ensures AbsR(SumReal(keys, f) - SumReal(keys, g)) <= SumReal(keys, gap)
    decreases |keys|
  {
    if keys != {} {
      SumsStayClose(keys - {AnyOf(keys)}, f, g, gap);
    }
  }

  lemma RestatedIsGain(fills: seq<Fill>, marks: int -> real, k: Key)
    requires Sizes(fills)
    ensures AbsR(Restated(fills, marks)(k) - GainOf(fills, marks)(k)) <= CutsOf(fills)(k)
  {
    hide Value, Gains, Losses, Cuts, After, LegsOf, Books, Look;
    BooksByAccount(fills, k);
    MarkToMarket(EveryCut, LegsOf(fills, k), marks(k.1));
  }

  /** The venue makes nothing: over all accounts, marked P&L with the partial-close losses put back sums
      to zero, to within a cent per reducing leg. */
  lemma VenueIsZeroSum(fills: seq<Fill>, marks: int -> real, keys: set<Key>)
    requires Sizes(fills) && forall f :: f in fills ==> TakerKey(f) in keys && MakerKey(f) in keys
    ensures AbsR(SumReal(keys, Restated(fills, marks))) <= SumReal(keys, CutsOf(fills))
  {
    hide Restated, GainOf, CutsOf, Books, LegsOf;
    forall k | k in keys
      ensures AbsR(Restated(fills, marks)(k) - GainOf(fills, marks)(k)) <= CutsOf(fills)(k)
    {
      RestatedIsGain(fills, marks, k);
    }
    SumsStayClose(keys, Restated(fills, marks), GainOf(fills, marks), CutsOf(fills));
    GainsCancel(fills, marks, keys);
  }

  // ---------------------------------------------------------------- the engine's own tape

  lemma {:induction false} TapeSized(orders: seq<Ticket>, venue: Exchange, lookup: Lookup)
    requires Runs.DistinctIds(orders)
    ensures Sizes(Runs.After(orders, venue, lookup).tape)
    decreases |orders|
  {
    if orders != [] {
      hide Runs.Step, Runs.Safe, PriceTime.Execute;
      var n := |orders| - 1;
      TapeSized(orders[..n], venue, lookup);
      Conservation.AfterStep(orders, n, venue, lookup);
      TapeGrows(Runs.After(orders[..n], venue, lookup), orders[n], venue, lookup);
    }
  }

  lemma TapeGrows(v: Runs.Venue, t: Ticket, venue: Exchange, lookup: Lookup)
    requires Runs.Safe(v, venue) && Runs.DistinctIds(v.orders + [t]) && Sizes(v.tape)
    ensures Sizes(Runs.Step(v, t, venue, lookup).tape)
  {
    Conservation.FillsPaired(v, t, venue, lookup, PriceTime.Execute(v.book, t, venue, lookup));
  }

  /** The fills of any run of the matching engine, recorded on both legs, leave every instrument's net
      positions summing to zero. */
  lemma RunBooksBalance(orders: seq<Ticket>, venue: Exchange, lookup: Lookup, keys: set<Key>, ex: int)
    requires Runs.DistinctIds(orders)
    requires forall f :: f in Runs.After(orders, venue, lookup).tape ==> TakerKey(f) in keys && MakerKey(f) in keys
    ensures Sizes(Runs.After(orders, venue, lookup).tape)
    ensures SumInt(keys, NetOn(Books(Runs.After(orders, venue, lookup).tape), ex)) == 0
  {
    TapeSized(orders, venue, lookup);
    BooksBalance(Runs.After(orders, venue, lookup).tape, keys, ex);
  }

  // ---------------------------------------------------------------- the ledger object

  datatype PnL = PnL(sub: string, realized: int, unrealized: int, total: int)

  function MarkOf(marks: map<int, int>, ex: int): Option<int> { if ex in marks then Some(marks[ex]) else None }

  function RealizedOf(l: Ledger, sub: string): Key -> int { (k: Key) => if k.0 == sub then Look(l, k).realized else 0 }

  function UnrealizedOf(l: Ledger, sub: string, marks: map<int, int>): Key -> int {
    (k: Key) => if k.0 == sub then Marked(Look(l, k), MarkOf(marks, k.1)) else 0
  }

  /** What a subaccount's fills on an instrument earned at its mark, less what the partial closes lost. */
  function EarnedOf(fills: seq<Fill>, sub: string, marks: map<int, int>): Key -> real
    requires Sizes(fills)
  {
    (k: Key) => if k.0 == sub && k.1 in marks
                then Gains(LegsOf(fills, k), marks[k.1] as real) - Losses(EveryCut, LegsOf(fills, k)) else 0.0
  }

  /** A cent for each leg that reduced a position, and one for a position still open. */
  function CentsLostOf(fills: seq<Fill>, sub: string): Key -> real
    requires Sizes(fills)
  {
    (k: Key) => if k.0 == sub
                then Cuts(EveryCut, LegsOf(fills, k)) as real + (if Look(Books(fills), k).net != 0 then 1.0 else 0.0)
                else 0.0
  }

  /** What the ledger shows for it. */
  function ShownOf(l: Ledger, sub: string, marks: map<int, int>): Key -> real {
    (k: Key) => (RealizedOf(l, sub)(k) + UnrealizedOf(l, sub, marks)(k)) as real
  }

  lemma {:induction false} SumsAdd(keys: set<Key>, f: Key -> int, g: Key -> int, h: Key -> real)
    requires forall k :: k in keys ==> h(k) == (f(k) + g(k)) as real
    ensures (SumInt(keys, f) + SumInt(keys, g)) as real == SumReal(keys, h)
    decreases |keys|
  {
    if keys != {} {
      SumsAdd(keys - {AnyOf(keys)}, f, g, h);
    }
  }

  /** For one of its instruments what was realized and what its mark makes of the rest, which without a mark is
      nothing; nothing for another's. */
  lemma ShownIs(l: Ledger, sub: string, marks: map<int, int>, k: Key)
    ensures ShownOf(l, sub, marks)(k)
            == if k.0 != sub then 0.0
               else Look(l, k).realized as real
                    + (if k.1 in marks then Marked(Look(l, k), Some(marks[k.1])) as real else 0.0)
  {
    assert RealizedOf(l, sub)(k) == if k.0 == sub then Look(l, k).realized else 0;
    assert UnrealizedOf(l, sub, marks)(k)
           == if k.0 == sub && k.1 in marks then Marked(Look(l, k), Some(marks[k.1])) else 0;
    assert ShownOf(l, sub, marks)(k) == (RealizedOf(l, sub)(k) + UnrealizedOf(l, sub, marks)(k)) as real;
    hide Marked;
  }

  lemma ShownIsEarned(fills: seq<Fill>, sub: string, marks: map<int, int>, k: Key)
    requires Sizes(fills) && (k.0 == sub ==> k.1 in marks)
    ensures AbsR(ShownOf(Books(fills), sub, marks)(k) - EarnedOf(fills, sub, marks)(k)) <= CentsLostOf(fills, sub)(k)
  {
    hide Value, Gains, Losses, Cuts, After, LegsOf, Books, Look, Marked;
    ShownIs(Books(fills), sub, marks, k);
    if k.0 == sub {
      BooksByAccount(fills, k);
      MarkToMarket(EveryCut, LegsOf(fills, k), marks[k.1] as real);
      MarkedWorth(Look(Books(fills), k), marks[k.1]);
    }
  }

  /** The total reported for a subaccount over any fills, with a mark for each instrument it traded: what its fills
      earned at the marks less what its partial closes lost, to within a cent per reducing leg and one per open
      position. */
  lemma TotalIsEarned(fills: seq<Fill>, sub: string, marks: map<int, int>, keys: set<Key>)
    requires Sizes(fills) && forall k :: k in keys && k.0 == sub ==> k.1 in marks
    ensures var l := Books(fills);
            var total := SumInt(keys, RealizedOf(l, sub)) + SumInt(keys, UnrealizedOf(l, sub, marks));
            AbsR(total as real - SumReal(keys, EarnedOf(fills, sub, marks)))
            <= SumReal(keys, CentsLostOf(fills, sub))
  {
    hide EarnedOf, CentsLostOf, RealizedOf, UnrealizedOf, Books;
    var l := Books(fills);
    forall k | k in keys
      ensures AbsR(ShownOf(l, sub, marks)(k) - EarnedOf(fills, sub, marks)(k)) <= CentsLostOf(fills, sub)(k)
    {
      ShownIsEarned(fills, sub, marks, k);
    }
    SumsStayClose(keys, ShownOf(l, sub, marks), EarnedOf(fills, sub, marks), CentsLostOf(fills, sub));
    SumsAdd(keys, RealizedOf(l, sub), UnrealizedOf(l, sub, marks), ShownOf(l, sub, marks));
  }

  class ShadowLedger {
    var positions: map<Key, Position>
    var subs: set<string>

    constructor ()
      ensures Valid() && Contents() == map[] && subs == {} && positions == map[]
    {
      positions, subs := map[], {};
    }

    /** No two accounts share a position object. */
    ghost predicate Valid()
      reads this
    {
      forall j, k :: j in positions && k in positions && j != k ==> positions[j] != positions[k]
    }

    ghost function Contents(): (l: Ledger)
      reads this, positions.Values
      ensures l.Keys == positions.Keys && forall k :: k in positions ==> l[k] == positions[k].State()
    {
      map k | k in positions :: positions[k].State()
    }

    /** The position of an account, opened flat if there is none. */
    method Find(sub: string, exchangeId: int) returns (pos: Position)
      requires Valid()
      modifies this`positions
      ensures Valid() && (sub, exchangeId) in positions && positions[(sub, exchangeId)] == pos
      ensures forall k :: k in old(positions) ==> k in positions && positions[k] == old(positions)[k]
      ensures positions.Keys == old(positions).Keys + {(sub, exchangeId)}
      ensures pos.State() == Look(old(Contents()), (sub, exchangeId))
      ensures (sub, exchangeId) !in old(positions) ==> fresh(pos)
    {
      var key := (sub, exchangeId);
      if key !in positions {
        var made := new Position(sub, exchangeId);
        positions := positions[key := made];
      }
      pos := positions[key];
    }

    method RecordFill(sub: string, exchangeId: int, side: Side, price: int, qty: nat) returns (pos: Position)
      requires Valid()
      modifies this, positions.Values
      ensures Valid() && Contents() == Recorded(old(Contents()), (sub, exchangeId), Leg(side, price, qty))
      ensures subs == old(subs) + {sub}
      ensures pos.State() == Look(Contents(), (sub, exchangeId))
      ensures fresh(positions.Values - old(positions.Values))
    {
      hide Applied;
      ghost var was, key := Contents(), (sub, exchangeId);
      pos := Find(sub, exchangeId);
      ghost var held := positions;
      pos.ApplyFill(side, price, qty);
      subs := subs + {sub};
      ContentsAre(was, key, pos, Leg(side, price, qty));
    }

    lemma ContentsAre(was: Ledger, key: Key, pos: Position, e: Leg)
      requires Valid() && key in positions && positions[key] == pos && positions.Keys == was.Keys + {key}
      requires forall k :: k in positions && k != key ==> positions[k].State() == was[k]
      requires pos.State() == Applied(EveryCut, Look(was, key), e)
      ensures Contents() == Recorded(was, key, e)
    {
      hide Applied;
    }

    /** P&L of a subaccount: its positions' realized and marked parts, each truncated on its own. */
    method Pnl(sub: string, marks: map<int, int>) returns (r: PnL)
      requires Valid()
      ensures r.sub == sub && r.total == r.realized + r.unrealized
      ensures r.realized == SumInt(positions.Keys, RealizedOf(Contents(), sub))
      ensures r.unrealized == SumInt(positions.Keys, UnrealizedOf(Contents(), sub, marks))
    {
      hide Marked, Position.Unrealized, MarkOf;
      var realized, unrealized := 0, 0;
      var todo := positions.Keys;
      ghost var f, g := RealizedOf(Contents(), sub), UnrealizedOf(Contents(), sub, marks);
      while todo != {}
        invariant todo <= positions.Keys
        invariant realized + SumInt(todo, f) == SumInt(positions.Keys, f)
        invariant unrealized + SumInt(todo, g) == SumInt(positions.Keys, g)
        decreases |todo|
      {
        var key :| key in todo;
        SumIntPick(todo, f, key);
        SumIntPick(todo, g, key);
        if key.0 == sub {
          realized := realized + positions[key].realized;
          unrealized := unrealized + positions[key].Unrealized(MarkOf(marks, key.1));
        }
        todo := todo - {key};
      }
      r := PnL(sub, realized, unrealized, realized + unrealized);
    }
  }
}
