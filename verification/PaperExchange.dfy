/** The paper account and the exchange that applies authorizations to it (fleet/fin/domain.py,
    fleet/fin/exchange_sim.py). */
module PaperExchange {
  import opened Wrappers
  import opened Sums
  import opened PaperTrading

  class Position {
    const symbol: string
    var qty: real
    var avg: real

    constructor (symbol: string, qty: real, avg: real)
      ensures this.symbol == symbol && State() == Holding(qty, avg)
    {
      this.symbol, this.qty, this.avg := symbol, qty, avg;
    }

    function State(): Holding
      reads this
    {
      Holding(qty, avg)
    }
  }

  class PaperAccount {
    const id: string
    const ccy: string
    const mandate: Option<Mandate>
    var cash: real
    var positions: map<string, Position>
    var ordersToday: int
    var pnl: real

    constructor (id: string, ccy: string, mandate: Option<Mandate>, cash: real)
      ensures Valid() && State() == Account(id, cash, ccy, map[], 0, 0.0, mandate)
    {
      this.id, this.ccy, this.mandate, this.cash := id, ccy, mandate, cash;
      positions, ordersToday, pnl := map[], 0, 0.0;
    }

    /** Positions are filed under their own symbols, so no two symbols share one. */
    ghost predicate Valid()
      reads this
    {
      forall k :: k in positions ==> positions[k].symbol == k
    }

    function Held(): (r: map<string, Holding>)
      reads this`positions, positions.Values
      ensures r.Keys == positions.Keys && forall k :: k in positions ==> r[k] == positions[k].State()
    {
      map k | k in positions :: positions[k].State()
    }

    function State(): Account
      reads this, positions.Values
    {
      Account(id, cash, ccy, Held(), ordersToday, pnl, mandate)
    }

    lemma HeldIs(r: map<string, Holding>)
      requires r.Keys == positions.Keys && forall k :: k in positions ==> r[k] == positions[k].State()
      ensures Held() == r
    {
    }

    lemma OneWorth(price: string -> real, k: string)
      requires Valid() && k in positions
      ensures Worths(Held(), AtPrice(price))(k) == positions[k].qty * price(positions[k].symbol)
    {
    }

    /** Cash plus every position at its price. */
    method Value(price: string -> real) returns (mv: real)
      requires Valid()
      ensures mv == MarketValue(State(), price)
    {
      hide Worths, AtPrice;
      mv := cash;
      var todo := positions.Keys;
      ghost var f := Worths(Held(), AtPrice(price));
      while todo != {}
        invariant todo <= positions.Keys
        invariant mv + SumReal(todo, f) == cash + SumReal(positions.Keys, f)
        decreases |todo|
      {
        var k :| k in todo;
        SumRealPick(todo, f, k);
        OneWorth(price, k);
        mv := mv + positions[k].qty * price(positions[k].symbol);
        todo := todo - {k};
      }
    }

    /** Take a fill in at `price`. */
    method Buy(symbol: string, qty: real, price: real)
      requires Valid() && qty > 0.0 && Sound(State())
      modifies this`cash, this`positions, positions.Values
      ensures Valid() && fresh(positions.Values - old(positions.Values))
      ensures State() == old(State()).(cash := old(cash) - qty * price,
                                       positions := Bought(old(Held()), symbol, qty, price))
    {
      ghost var r := Bought(Held(), symbol, qty, price);
      assert forall k :: k in positions && k != symbol ==> k in r && r[k] == positions[k].State();
      cash := cash - qty * price;
      if symbol !in positions {
        var pos := new Position(symbol, qty, price);
        positions := positions[symbol := pos];
      } else {
        var pos := positions[symbol];
        assert r[symbol] == Holding(pos.qty + qty, Averaged(pos.avg, pos.qty, price, qty));
        hide Bought, Averaged;
        pos.avg := Averaged(pos.avg, pos.qty, price, qty);
        pos.qty := pos.qty + qty;
      }
      HeldIs(r);
    }

    method Count()
      modifies this`ordersToday
      ensures State() == old(State()).(ordersToday := old(ordersToday) + 1)
    {
      ordersToday := ordersToday + 1;
    }

    /** Give `qty` of a position up; an emptied position is dropped. */
    method Sell(symbol: string, qty: real, price: real)
      requires Valid() && symbol in positions
      modifies this`cash, this`positions, this`pnl, positions.Values
      ensures Valid() && fresh(positions.Values - old(positions.Values))
      ensures State() == old(State()).(cash := old(cash) + qty * price, positions := Sold(old(Held()), symbol, qty),
                                       pnl := old(pnl) + (price - old(positions[symbol].avg)) * qty)
    {
      ghost var was := Held();
      var held := positions[symbol];
      var realized := (price - held.avg) * qty;
      pnl := pnl + realized;
      cash := cash + qty * price;
      held.qty := held.qty - qty;
      if held.qty <= 0.0 {
        positions := positions - {symbol};
      }
      HeldIs(Sold(was, symbol, qty));
    }
  }

  // ---------------------------------------------------------------- the exchange

  datatype Receipt = Receipt(order: OrderKey, agent: string, account: string, symbol: string, side: string, qty: real,
                             price: real, ts: int, prev: Account, next: Account, ledgerSeq: int)

  class ExchangeSim {
    const account: PaperAccount
    var market: Market
    var now: int
    var seqNo: int

    constructor (account: PaperAccount, market: Market, now: int, ledgerSeq: int)
      ensures this.account == account && this.market == market && this.now == now && seqNo == ledgerSeq
    {
      this.account, this.market, this.now, seqNo := account, market, now, ledgerSeq;
    }

    /** Fill an order the boundary has let through, if cash or holdings cover it. */
    method Carry(symbol: string, side: string, qty: real, price: real) returns (why: Option<Refusal>)
      requires account.Valid() && Sound(account.State()) && qty > 0.0 && (side == "BUY" || side == "SELL")
      modifies account, account.positions.Values
      ensures account.Valid() && fresh(account.positions.Values - old(account.positions.Values))
      ensures match Fill(old(account.State()), symbol, side, qty, price) {
                case Refused(reason) => why == Some(reason) && account.State() == old(account.State())
                case Executed(after) => why == None && account.State() == after
              }
    {
      hide Bought, Sold, Sound, PaperAccount.Held;
      ghost var s := account.State();
      ghost var r := Fill(s, symbol, side, qty, price);
      var notional := qty * price;
      if side == "BUY" {
        if account.cash < notional {
          return Some(InsufficientCash);
        }
        assert r.Executed?;
        assert r.after == s.(cash := s.cash - notional, positions := r.after.positions,
                             ordersToday := s.ordersToday + 1);
        account.Buy(symbol, qty, price);
      } else {
        if symbol !in account.positions || account.positions[symbol].qty < qty {
          return Some(InsufficientHoldings);
        }
        account.Sell(symbol, qty, price);
      }
      account.Count();
      why := None;
    }

    /** Check a signed authorization against the account as it is, then fill it; or refuse and touch nothing. */
    method Apply(sigs: seq<Signed>, ta: Authorization, cert: OperatorCert, at: Option<int>)
      returns (why: Option<Refusal>, receipt: Option<Receipt>)
      requires account.Valid() && Sound(account.State()) && ta.body.qty > 0.0
      modifies this`seqNo, account, account.positions.Values
      ensures account.Valid() && fresh(account.positions.Values - old(account.positions.Values))
      ensures var t := if at.Some? then at.value else now; var was, b := old(account.State()), ta.body;
              match Rule(sigs, was, market, ta, cert, t) {
                case Refused(reason) =>
                  why == Some(reason) && receipt == None && account.State() == was && seqNo == old(seqNo)
                case Executed(after) =>
                  && why == None && account.State() == after && seqNo == old(seqNo) + 1
                  && receipt == Some(Receipt(b.order, b.agent, b.account, b.symbol, b.side, b.qty, market.last, t, was,
                                             after, seqNo))
              }
    {
      hide Fill, VerifyAuthorization, OutOfBand, Sound;
      var t, b := if at.Some? then at.value else now, ta.body;
      if !VerifyAuthorization(sigs, ta, cert, t) {
        return Some(Unauthorized), None;
      }
      var prev := account.State();
      if prev != b.pre {
        return Some(StateMismatch), None;
      }
      if b.symbol != market.symbol {
        return Some(SymbolMismatch), None;
      }
      if b.side != "BUY" && b.side != "SELL" {
        return Some(SideNotAllowed), None;
      }
      if OutOfBand(b.constraint, market.last) {
        return Some(PriceOutOfBand), None;
      }
      why := Carry(b.symbol, b.side, b.qty, market.last);
      if why.Some? {
        return why, None;
      }
      seqNo := seqNo + 1;
      receipt := Some(Receipt(b.order, b.agent, b.account, b.symbol, b.side, b.qty, market.last, t, prev,
                              account.State(), seqNo));
    }
  }
}
