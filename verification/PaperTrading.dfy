/** The paper-trading boundary on values (fleet/fin/domain.py, authorization.py, exchange_sim.py):
    risk evaluation, signed authorization, and what applying one does to the account. */
module PaperTrading {
  import opened Wrappers
  import opened Sums

  // ---------------------------------------------------------------- entities

  datatype Mandate = Mandate(allowedAssets: seq<string>, allowedSides: seq<string>, maxPositionPct: real,
                             maxOrderUsd: real, maxDailyLossUsd: real, maxOrdersPerDay: int)

  datatype Market = Market(symbol: string, ts: int, bid: real, ask: real, last: real, vol: real, source: string)

  datatype Holding = Holding(qty: real, avg: real)

  /** The account as its state hash sees it; the hash is ideal, so the state stands for it. */
  datatype Account = Account(id: string, cash: real, ccy: string, positions: map<string, Holding>, ordersToday: int,
                             pnl: real, mandate: Option<Mandate>)

  datatype Constraint = Constraint(kind: string, limit: Option<real>, band: Option<real>)

  datatype Proposal = Proposal(symbol: string, side: string, qty: real, constraint: Constraint, thesis: string,
                               confidence: real, evidence: seq<string>, strategy: string)

  datatype Disposition = AUTO | HUMAN | BLOCKED

  datatype Risk = Risk(positionPctAfter: real, grossExposurePct: real, cashOk: bool, assetAllowed: bool,
                       sideAllowed: bool, sizeOk: bool, priceOk: bool, dataFresh: bool, dailyLossOk: bool,
                       frequencyOk: bool, score: real, reasons: seq<string>)

  const MAX_STALE_SEC := 60
  const POSITION_WARN_PCT := 0.15
  const MAX_ORDER_TTL_SEC := 300

  // ---------------------------------------------------------------- valuation

  function Worths(ps: map<string, Holding>, f: (string, Holding) -> real): string -> real {
    (k: string) => if k in ps then f(k, ps[k]) else 0.0
  }

  /** A sum over the positions. */
  ghost function Worth(ps: map<string, Holding>, f: (string, Holding) -> real): real { SumReal(ps.Keys, Worths(ps, f)) }

  function AtPrice(price: string -> real): (string, Holding) -> real { (k: string, h: Holding) => h.qty * price(k) }

  function AtCost(): (string, Holding) -> real { (k: string, h: Holding) => h.qty * h.avg }

  ghost function MarketValue(s: Account, price: string -> real): real { s.cash + Worth(s.positions, AtPrice(price)) }

  /** The evaluator's price lookup: the market's last price for its own symbol, nothing for the rest. */
  function PriceOf(m: Market): string -> real { (k: string) => if k == m.symbol then m.last else 0.0 }

  function PositionValue(s: Account, symbol: string, price: string -> real): real {
    if symbol in s.positions then s.positions[symbol].qty * price(symbol) else 0.0
  }

  // ---------------------------------------------------------------- risk evaluation

  /** Python's `round(x, 6)` on reals: to the nearest millionth, halves to even. */
  function Round6(x: real): real {
    var up := x * 1000000.0;
    var k := up.Floor;
    var rest := up - k as real;
    (if rest < 0.5 || (rest == 0.5 && k % 2 == 0) then k else k + 1) as real / 1000000.0
  }

  function Limit(c: Constraint, last: real): real { if c.limit.Some? then c.limit.value else last }

  function Band(c: Constraint): real { if c.band.Some? then c.band.value else 0.0 }

  predicate PriceOk(c: Constraint, last: real) {
    c.kind == "LIMIT" ==>
      if Band(c) > 0.0 then AbsR(Limit(c, last) - last) <= Band(c) * last else Limit(c, last) == last
  }

  predicate CashOk(p: Proposal, s: Account, notional: real) {
    if p.side == "BUY" then s.cash >= notional
    else p.symbol in s.positions && s.positions[p.symbol].qty >= p.qty
  }

  function Realized(p: Proposal, s: Account, price: real): real {
    if p.side == "SELL" && p.symbol in s.positions then (price - s.positions[p.symbol].avg) * p.qty else 0.0
  }

  function Share(part: real, whole: real): real { if whole > 0.0 then part / whole else 0.0 }

  /** What an order comes to. */
  function Notional(qty: real, price: real): real { qty * price }

  /** The share of the account an order would leave in its position, as the evaluation computes it: every other
      holding counts for nothing, and the order is added to the account's value. */
  ghost function Estimate(s: Account, symbol: string, m: Market, notional: real): real {
    Share(PositionValue(s, symbol, PriceOf(m)) + notional, MarketValue(s, PriceOf(m)) + notional)
  }

  function Note(bad: bool, reason: string): seq<string> { if bad then [reason] else [] }

  /** The evaluation; a side that is neither BUY nor SELL raises. */
  ghost function Assess(p: Proposal, s: Account, m: Market, mandate: Mandate, now: int): Option<Risk> {
    if p.side != "BUY" && p.side != "SELL" then None
    else
      var notional := Notional(p.qty, m.last);
      var total := MarketValue(s, PriceOf(m)) + notional;
      var pct := Estimate(s, p.symbol, m, notional);
      var gross := Share(MarketValue(s, PriceOf(m)) + notional, total);
      var asset := p.symbol in mandate.allowedAssets;
      var side := p.side in mandate.allowedSides;
      var cash := CashOk(p, s, notional);
      var size := notional <= mandate.maxOrderUsd;
      var price := PriceOk(p.constraint, m.last);
      var recent := now - m.ts <= MAX_STALE_SEC;
      var loss := s.pnl + Realized(p, s, m.last) >= -mandate.maxDailyLossUsd;
      var frequency := s.ordersToday < mandate.maxOrdersPerDay;
      var soft := (if pct > POSITION_WARN_PCT then 1 else 0) + (if asset then 0 else 1);
      Some(Risk(Round6(pct), Round6(gross), cash, asset, side, size, price, recent, loss, frequency,
                1.0 - 0.15 * soft as real,
                Note(!asset, "asset-not-allowed") + Note(!side, "side-not-allowed")
                + Note(!cash, "insufficient-cash-or-holdings") + Note(!size, "order-too-large")
                + Note(!price, "price-out-of-band") + Note(!recent, "stale-market-data")
                + Note(!loss, "daily-loss-cap") + Note(!frequency, "order-frequency-cap")
                + Note(pct > POSITION_WARN_PCT, "position-pct-warning")))
  }

  function Required(r: Risk, consensus: Option<string>): Disposition {
    if !(r.assetAllowed && r.sideAllowed && r.cashOk && r.sizeOk && r.priceOk && r.dataFresh && r.dailyLossOk
         && r.frequencyOk) then BLOCKED
    else if consensus == Some("severe") then BLOCKED
    else if consensus == Some("weak") then HUMAN
    else if r.positionPctAfter > POSITION_WARN_PCT then HUMAN
    else AUTO
  }

  // ---------------------------------------------------------------- authorization

  datatype OrderKey = OrderKey(account: string, symbol: string, side: string, qty: real, constraint: Constraint)

  /** What the operator signs. `pre` stands for the hash of the account it was evaluated against. */
  datatype Body = Body(agent: string, epoch: int, strategy: string, account: string, symbol: string, side: string,
                       qty: real, constraint: Constraint, proposal: Proposal, pre: Account, market: Market, risk: Risk,
                       policy: string, disposition: Disposition, approval: Option<string>, nonce: string, ts: int,
                       expiration: int, order: OrderKey)

  datatype Authorization = Authorization(body: Body, sig: Option<nat>)

  datatype OperatorCert = OperatorCert(agent: string, pubkey: nat, certSeq: int)

  /** An ideal signature: who signed what, by signature. */
  datatype Signed = Signed(key: nat, body: Body)

  function Build(cert: OperatorCert, strategy: string, account: string, p: Proposal, pre: Account, m: Market,
                 risk: Risk, policy: string, disposition: Disposition, approval: Option<string>, nonce: string,
                 ts: int): Body {
    Body(cert.agent, cert.certSeq, strategy, account, p.symbol, p.side, p.qty, p.constraint, p, pre, m, risk, policy,
         disposition, approval, nonce, ts, ts + MAX_ORDER_TTL_SEC,
         OrderKey(account, p.symbol, p.side, p.qty, p.constraint))
  }

  predicate VerifyAuthorization(sigs: seq<Signed>, ta: Authorization, cert: OperatorCert, now: int) {
    && ta.body.disposition != BLOCKED
    && ta.sig.Some? && ta.sig.value < |sigs| && sigs[ta.sig.value] == Signed(cert.pubkey, ta.body)
    && cert.certSeq == ta.body.epoch
    && now <= ta.body.expiration
    && ta.body.nonce != ""
  }

  // ---------------------------------------------------------------- the boundary

  datatype Refusal =
    | Unauthorized | StateMismatch | SymbolMismatch | SideNotAllowed | PriceOutOfBand | InsufficientCash
    | InsufficientHoldings

  datatype Ruling = Refused(why: Refusal) | Executed(after: Account)

  predicate OutOfBand(c: Constraint, last: real) {
    c.kind == "LIMIT"
    && ((Band(c) > 0.0 && AbsR(Limit(c, last) - last) > Band(c) * last) || (Band(c) == 0.0 && Limit(c, last) != last))
  }

  /** Every position held is one. */
  ghost predicate Sound(s: Account) { forall k :: k in s.positions ==> s.positions[k].qty > 0.0 }

  /** The average price of what was held and what was bought. */
  function Averaged(avg: real, held: real, price: real, qty: real): real
    requires held > 0.0 && qty > 0.0
  {
    (avg * held + price * qty) / (held + qty)
  }

  function Bought(ps: map<string, Holding>, symbol: string, qty: real, price: real): map<string, Holding>
    requires qty > 0.0 && (symbol in ps ==> ps[symbol].qty > 0.0)
  {
    if symbol !in ps then ps[symbol := Holding(qty, price)]
    else
      ps[symbol := Holding(ps[symbol].qty + qty, Averaged(ps[symbol].avg, ps[symbol].qty, price, qty))]
  }

  function Sold(ps: map<string, Holding>, symbol: string, qty: real): map<string, Holding>
    requires symbol in ps
  {
    if ps[symbol].qty - qty <= 0.0 then ps - {symbol} else ps[symbol := ps[symbol].(qty := ps[symbol].qty - qty)]
  }

  /** An order filled at `price`, if cash or holdings cover it. */
  function Fill(s: Account, symbol: string, side: string, qty: real, price: real): Ruling
    requires qty > 0.0 && Sound(s) && (side == "BUY" || side == "SELL")
  {
    if side == "BUY" then
      if s.cash < qty * price then Refused(InsufficientCash)
      else Executed(s.(cash := s.cash - qty * price, positions := Bought(s.positions, symbol, qty, price),
                       ordersToday := s.ordersToday + 1))
    else
      if symbol !in s.positions || s.positions[symbol].qty < qty then Refused(InsufficientHoldings)
      else Executed(s.(cash := s.cash + qty * price, positions := Sold(s.positions, symbol, qty),
                       pnl := s.pnl + (price - s.positions[symbol].avg) * qty, ordersToday := s.ordersToday + 1))
  }

  /** Where the boundary takes an authorization. */
  function Rule(sigs: seq<Signed>, s: Account, m: Market, ta: Authorization, cert: OperatorCert, now: int): Ruling
    requires ta.body.qty > 0.0 && Sound(s)
  {
    if !VerifyAuthorization(sigs, ta, cert, now) then Refused(Unauthorized)
    else if s != ta.body.pre then Refused(StateMismatch)
    else if ta.body.symbol != m.symbol then Refused(SymbolMismatch)
    else if ta.body.side != "BUY" && ta.body.side != "SELL" then Refused(SideNotAllowed)
    else if OutOfBand(ta.body.constraint, m.last) then Refused(PriceOutOfBand)
    else Fill(s, ta.body.symbol, ta.body.side, ta.body.qty, m.last)
  }

  // ---------------------------------------------------------------- sums over positions

  lemma WorthWithout(ps: map<string, Holding>, f: (string, Holding) -> real, k: string)
    requires k in ps
    ensures Worth(ps, f) == Worth(ps - {k}, f) + f(k, ps[k])
  {
    var rest := ps - {k};
    assert rest.Keys == ps.Keys - {k};
    SumRealPick(ps.Keys, Worths(ps, f), k);
    SumRealSame(rest.Keys, Worths(ps, f), Worths(rest, f));
  }

  /** The parts of the positions other than `k` do not count. */
  ghost function Rest(ps: map<string, Holding>, f: (string, Holding) -> real, k: string): real { Worth(ps - {k}, f) }

  lemma WorthSplit(ps: map<string, Holding>, f: (string, Holding) -> real, k: string)
    ensures Worth(ps, f) == Rest(ps, f, k) + (if k in ps then f(k, ps[k]) else 0.0)
  {
    if k in ps {
      WorthWithout(ps, f, k);
    } else {
      assert ps - {k} == ps;
    }
  }

  lemma AverageWeighs(a: real, p: real, b: real, q: real)
    requires p > 0.0 && q > 0.0
    ensures (p + q) * Averaged(a, p, b, q) == a * p + b * q
  {
    var t, x := p + q, a * p + b * q;
    assert t * (x / t) == x;
  }

  lemma BoughtRest(ps: map<string, Holding>, symbol: string, qty: real, price: real)
    requires qty > 0.0 && (symbol in ps ==> ps[symbol].qty > 0.0)
    ensures Bought(ps, symbol, qty, price) - {symbol} == ps - {symbol} && symbol in Bought(ps, symbol, qty, price)
  {
  }

  lemma SoldRest(ps: map<string, Holding>, symbol: string, qty: real)
    requires symbol in ps
    ensures Sold(ps, symbol, qty) - {symbol} == ps - {symbol}
  {
  }

  /** What a purchase adds to a sum over positions. */
  lemma BoughtAdds(ps: map<string, Holding>, symbol: string, qty: real, price: real)
    requires qty > 0.0 && (symbol in ps ==> ps[symbol].qty > 0.0)
    ensures Worth(Bought(ps, symbol, qty, price), AtCost()) == Worth(ps, AtCost()) + qty * price
    ensures forall prices: string -> real :: prices(symbol) == price ==>
              Worth(Bought(ps, symbol, qty, price), AtPrice(prices)) == Worth(ps, AtPrice(prices)) + qty * price
  {
    hide Worth, Rest;
    var r := Bought(ps, symbol, qty, price);
    BoughtRest(ps, symbol, qty, price);
    WorthSplit(ps, AtCost(), symbol);
    WorthSplit(r, AtCost(), symbol);
    RestBy(r, ps, AtCost(), symbol);
    if symbol in ps {
      AverageWeighs(ps[symbol].avg, ps[symbol].qty, price, qty);
      BoughtPart(ps[symbol].qty, qty, price);
    }
    forall prices: string -> real | prices(symbol) == price
      ensures Worth(r, AtPrice(prices)) == Worth(ps, AtPrice(prices)) + qty * price
    {
      WorthSplit(ps, AtPrice(prices), symbol);
      WorthSplit(r, AtPrice(prices), symbol);
      RestBy(r, ps, AtPrice(prices), symbol);
    }
  }

  /** What a sale takes off it. */
  lemma SoldTakes(ps: map<string, Holding>, symbol: string, qty: real, price: real)
    requires symbol in ps && ps[symbol].qty >= qty
    ensures Worth(Sold(ps, symbol, qty), AtCost()) == Worth(ps, AtCost()) - qty * ps[symbol].avg
    ensures forall prices: string -> real :: prices(symbol) == price ==>
              Worth(Sold(ps, symbol, qty), AtPrice(prices)) == Worth(ps, AtPrice(prices)) - qty * price
  {
    hide Worth, Rest;
    var r := Sold(ps, symbol, qty);
    SoldRest(ps, symbol, qty);
    WorthSplit(ps, AtCost(), symbol);
    WorthSplit(r, AtCost(), symbol);
    RestBy(r, ps, AtCost(), symbol);
    SoldPart(ps[symbol].qty, qty, ps[symbol].avg);
    SoldPart(ps[symbol].qty, qty, price);
    forall prices: string -> real | prices(symbol) == price
      ensures Worth(r, AtPrice(prices)) == Worth(ps, AtPrice(prices)) - qty * price
    {
      WorthSplit(ps, AtPrice(prices), symbol);
      WorthSplit(r, AtPrice(prices), symbol);
      RestBy(r, ps, AtPrice(prices), symbol);
    }
  }

  lemma RestBy(a: map<string, Holding>, b: map<string, Holding>, f: (string, Holding) -> real, k: string)
    requires a - {k} == b - {k}
    ensures Rest(a, f, k) == Rest(b, f, k)
  {
  }

  lemma SoldPart(held: real, qty: real, each: real)
    ensures (held - qty) * each == held * each - qty * each
    ensures held - qty <= 0.0 <= held - qty ==> held * each == qty * each
  {
  }

  lemma BoughtPart(held: real, qty: real, each: real)
    ensures (held + qty) * each == held * each + qty * each
  {
  }

  // ---------------------------------------------------------------- conservation

  /** Cash plus positions at cost, less what has been realized. */
  ghost function Funds(s: Account): real { s.cash + Worth(s.positions, AtCost()) - s.pnl }

  /** One fill moves value about but makes none: funds are kept, the account is worth the same at the fill
      price, every position held stays positive, and the order is counted. */
  lemma FillConserves(s: Account, symbol: string, side: string, qty: real, price: real, prices: string -> real)
    requires qty > 0.0 && Sound(s) && (side == "BUY" || side == "SELL") && Fill(s, symbol, side, qty, price).Executed?
    requires prices(symbol) == price
    ensures var v := Fill(s, symbol, side, qty, price).after;
            && Sound(v) && Funds(v) == Funds(s) && MarketValue(v, prices) == MarketValue(s, prices)
            && v.ordersToday == s.ordersToday + 1
            && (side == "BUY" ==> v.cash >= 0.0 && v.pnl == s.pnl)
            && (side == "SELL" ==> v.cash == s.cash + qty * price)
  {
    hide Worth, Bought, Sold;
    if side == "BUY" {
      BoughtAdds(s.positions, symbol, qty, price);
      BoughtSound(s.positions, symbol, qty, price);
    } else {
      SoldTakes(s.positions, symbol, qty, price);
      SoldSound(s.positions, symbol, qty);
      SoldPart(price, s.positions[symbol].avg, qty);
    }
  }

  // ---------------------------------------------------------------- runs

  /** One submission to the boundary, under the market and operator of the moment. */
  datatype Attempt = Attempt(market: Market, ta: Authorization, cert: OperatorCert, now: int)

  ghost predicate Positive(xs: seq<Attempt>) { forall x :: x in xs ==> x.ta.body.qty > 0.0 }

  function Next(sigs: seq<Signed>, s: Account, x: Attempt): (v: Account)
    requires x.ta.body.qty > 0.0 && Sound(s)
  {
    var r := Rule(sigs, s, x.market, x.ta, x.cert, x.now);
    if r.Executed? then r.after else s
  }

  lemma BoughtSound(ps: map<string, Holding>, symbol: string, qty: real, price: real)
    requires qty > 0.0 && forall k :: k in ps ==> ps[k].qty > 0.0
    ensures forall k :: k in Bought(ps, symbol, qty, price) ==> Bought(ps, symbol, qty, price)[k].qty > 0.0
  {
  }

  lemma SoldSound(ps: map<string, Holding>, symbol: string, qty: real)
    requires symbol in ps && forall k :: k in ps ==> ps[k].qty > 0.0
    ensures forall k :: k in Sold(ps, symbol, qty) ==> Sold(ps, symbol, qty)[k].qty > 0.0
  {
  }

  lemma NextSound(sigs: seq<Signed>, s: Account, x: Attempt)
    requires x.ta.body.qty > 0.0 && Sound(s)
    ensures Sound(Next(sigs, s, x))
  {
  }

  ghost function After(sigs: seq<Signed>, s: Account, xs: seq<Attempt>): (v: Account)
    requires Positive(xs) && Sound(s)
    ensures Sound(v)
    decreases |xs|
  {
    if xs == [] then s
    else
      var n := |xs| - 1;
      assert xs[n] in xs && forall x :: x in xs[..n] ==> x in xs;
      var v := After(sigs, s, xs[..n]);
      NextSound(sigs, v, xs[n]);
      Next(sigs, v, xs[n])
  }

  /** Whether the `i`-th submission executes. */
  ghost predicate Executes(sigs: seq<Signed>, s: Account, xs: seq<Attempt>, i: nat)
    requires Positive(xs) && Sound(s) && i < |xs|
  {
    assert xs[i] in xs && forall x :: x in xs[..i] ==> x in xs;
    Rule(sigs, After(sigs, s, xs[..i]), xs[i].market, xs[i].ta, xs[i].cert, xs[i].now).Executed?
  }

  lemma AfterStep(sigs: seq<Signed>, s: Account, xs: seq<Attempt>, i: nat)
    requires Positive(xs) && Sound(s) && i < |xs|
    ensures Positive(xs[..i]) && Positive(xs[..i + 1]) && xs[i].ta.body.qty > 0.0
    ensures After(sigs, s, xs[..i + 1]) == Next(sigs, After(sigs, s, xs[..i]), xs[i])
  {
    assert xs[..i + 1][..i] == xs[..i];
    assert xs[i] in xs && (forall x :: x in xs[..i] ==> x in xs) && forall x :: x in xs[..i + 1] ==> x in xs;
  }

  /** Any run of submissions keeps the funds, and no position held is ever empty or short. */
  lemma {:induction false} RunConserves(sigs: seq<Signed>, s: Account, xs: seq<Attempt>)
    requires Positive(xs) && Sound(s)
    ensures Funds(After(sigs, s, xs)) == Funds(s)
    decreases |xs|
  {
    if xs != [] {
      var n := |xs| - 1;
      AfterStep(sigs, s, xs, n);
      assert xs[..n + 1] == xs;
      RunConserves(sigs, s, xs[..n]);
      NextConserves(sigs, After(sigs, s, xs[..n]), xs[n]);
    }
  }

  lemma NextConserves(sigs: seq<Signed>, s: Account, x: Attempt)
    requires x.ta.body.qty > 0.0 && Sound(s)
    ensures Funds(Next(sigs, s, x)) == Funds(s)
  {
    hide Fill, Funds;
    if Rule(sigs, s, x.market, x.ta, x.cert, x.now).Executed? {
      FillConserves(s, x.ta.body.symbol, x.ta.body.side, x.ta.body.qty, x.market.last, (k: string) => x.market.last);
    }
  }

  // ---------------------------------------------------------------- at most once

  lemma NextCounts(sigs: seq<Signed>, s: Account, x: Attempt)
    requires x.ta.body.qty > 0.0 && Sound(s)
    ensures var r := Rule(sigs, s, x.market, x.ta, x.cert, x.now);
            && Next(sigs, s, x).ordersToday == s.ordersToday + (if r.Executed? then 1 else 0)
            && (r.Executed? ==> s == x.ta.body.pre)
  {
  }

  lemma PrefixPositive(xs: seq<Attempt>, i: nat)
    requires Positive(xs) && i <= |xs|
    ensures Positive(xs[..i])
  {
    assert forall x :: x in xs[..i] ==> x in xs;
  }

  lemma {:induction false} OrdersNeverFall(sigs: seq<Signed>, s: Account, xs: seq<Attempt>, i: nat, j: nat)
    requires Positive(xs) && Sound(s) && i <= j <= |xs|
    ensures Positive(xs[..i]) && Positive(xs[..j])
    ensures After(sigs, s, xs[..i]).ordersToday <= After(sigs, s, xs[..j]).ordersToday
    decreases j
  {
    PrefixPositive(xs, i);
    PrefixPositive(xs, j);
    hide Rule, Sound, Next, Positive;
    if i < j {
      OrdersNeverFall(sigs, s, xs, i, j - 1);
      AfterStep(sigs, s, xs, j - 1);
      NextCounts(sigs, After(sigs, s, xs[..j - 1]), xs[j - 1]);
    }
  }

  /** Of all authorizations evaluated against one account state, at most one ever executes, and it
      executes once: a second execution would find another order on the day's count. */
  lemma AtMostOnce(sigs: seq<Signed>, s: Account, xs: seq<Attempt>, i: nat, j: nat)
    requires Positive(xs) && Sound(s) && i < j < |xs|
    requires Executes(sigs, s, xs, i) && Executes(sigs, s, xs, j)
    ensures xs[i].ta.body.pre != xs[j].ta.body.pre && xs[i].ta != xs[j].ta
  {
    AfterStep(sigs, s, xs, i);
    AfterStep(sigs, s, xs, j);
    NextCounts(sigs, After(sigs, s, xs[..i]), xs[i]);
    NextCounts(sigs, After(sigs, s, xs[..j]), xs[j]);
    OrdersNeverFall(sigs, s, xs, i + 1, j);
  }

  // ---------------------------------------------------------------- preflight and boundary

  /** The boundary's price check is the preflight's, save that it lets any price pass a negative band. */
  lemma BandsAgreeIff(c: Constraint, last: real)
    ensures PriceOk(c, last) ==> !OutOfBand(c, last)
    ensures (PriceOk(c, last) <==> !OutOfBand(c, last))
            <==> !(c.kind == "LIMIT" && Band(c) < 0.0 && Limit(c, last) != last)
  {
  }

  /** A trade the preflight does not block, authorized and submitted in its bound state and market, is
      executed exactly when it names the market's own symbol: never refused on price, cash or holdings. */
  lemma PreflightHolds(sigs: seq<Signed>, cert: OperatorCert, p: Proposal, s: Account, m: Market, mandate: Mandate,
                       risk: Risk, evaluated: int, consensus: Option<string>, ta: Authorization, now: int,
                       strategy: string, policy: string, approval: Option<string>, nonce: string, ts: int)
    requires p.qty > 0.0 && Sound(s)
    requires Assess(p, s, m, mandate, evaluated) == Some(risk) && Required(risk, consensus) != BLOCKED
    requires ta.body == Build(cert, strategy, s.id, p, s, m, risk, policy, Required(risk, consensus), approval, nonce,
                              ts)
    requires ta.sig.Some? && ta.sig.value < |sigs| && sigs[ta.sig.value] == Signed(cert.pubkey, ta.body)
    requires now <= ts + MAX_ORDER_TTL_SEC && nonce != ""
    ensures Rule(sigs, s, m, ta, cert, now).Executed? <==> p.symbol == m.symbol
    ensures p.symbol != m.symbol ==> Rule(sigs, s, m, ta, cert, now) == Refused(SymbolMismatch)
    ensures p.symbol == m.symbol ==> Rule(sigs, s, m, ta, cert, now) == Fill(s, p.symbol, p.side, p.qty, m.last)
  {
    BandsAgreeIff(p.constraint, m.last);
    hide PriceOk, OutOfBand, MarketValue, Round6, Share, PositionValue, Bought, Sold;
  }

  // ---------------------------------------------------------------- the mandate

  function Rank(d: Disposition): nat { if d.AUTO? then 0 else if d.HUMAN? then 1 else 2 }

  /** What is not blocked is inside every hard bound of the mandate, and advice only ever escalates. */
  lemma NotBlockedIff(p: Proposal, s: Account, m: Market, mandate: Mandate, now: int, risk: Risk,
                      consensus: Option<string>)
    requires Assess(p, s, m, mandate, now) == Some(risk)
    ensures Required(risk, consensus) != BLOCKED <==>
              (&& p.symbol in mandate.allowedAssets && p.side in mandate.allowedSides
               && p.qty * m.last <= mandate.maxOrderUsd
               && CashOk(p, s, p.qty * m.last) && PriceOk(p.constraint, m.last) && now - m.ts <= 60
               && s.pnl + Realized(p, s, m.last) >= -mandate.maxDailyLossUsd && s.ordersToday < mandate.maxOrdersPerDay
               && consensus != Some("severe"))
    ensures Rank(Required(risk, consensus)) >= Rank(Required(risk, None))
  {
    hide MarketValue, Round6, Share, PositionValue, PriceOk, Realized;
    var notional := p.qty * m.last;
    assert risk.cashOk == CashOk(p, s, notional) && risk.sizeOk == (notional <= mandate.maxOrderUsd);
  }

  /** An order that executes in the market it was evaluated in is one the mandate allows. */
  lemma ExecutedIsAllowed(sigs: seq<Signed>, s: Account, x: Attempt, mandate: Mandate)
    requires x.ta.body.qty > 0.0 && Sound(s) && Evaluated(x.ta.body, mandate) && x.market == x.ta.body.market
    requires Rule(sigs, s, x.market, x.ta, x.cert, x.now).Executed?
    ensures var b := x.ta.body;
            b.symbol in mandate.allowedAssets && b.side in mandate.allowedSides
            && b.qty * x.market.last <= mandate.maxOrderUsd
  {
    var b := x.ta.body;
    var evaluated: int, consensus: Option<string> :|
      Assess(b.proposal, b.pre, b.market, mandate, evaluated) == Some(b.risk) && Required(b.risk, consensus) != BLOCKED
      && b.symbol == b.proposal.symbol && b.side == b.proposal.side && b.qty == b.proposal.qty;
    NotBlockedIff(b.proposal, b.pre, b.market, mandate, evaluated, b.risk, consensus);
  }

  /** The account is inside its mandate. */
  ghost predicate Within(s: Account, mandate: Mandate) {
    s.cash >= 0.0 && s.ordersToday <= mandate.maxOrdersPerDay && s.pnl >= -mandate.maxDailyLossUsd
  }

  /** The authorization came out of an evaluation that did not block it; what it was evaluated at is in
      its body. */
  ghost predicate Evaluated(b: Body, mandate: Mandate) {
    exists evaluated: int, consensus: Option<string> ::
      Assess(b.proposal, b.pre, b.market, mandate, evaluated) == Some(b.risk) && Required(b.risk, consensus) != BLOCKED
      && b.symbol == b.proposal.symbol && b.side == b.proposal.side && b.qty == b.proposal.qty
  }

  /** What an evaluated sale leaves of the day's loss cap. */
  function Slack(b: Body, mandate: Mandate): real
    requires b.symbol in b.pre.positions
  {
    b.pre.pnl + (b.market.last - b.pre.positions[b.symbol].avg) * b.qty + mandate.maxDailyLossUsd
  }

  /** The room for the market to move since the evaluation: a sale may fill lower by what the slack covers,
      and at a negative price by what cash covers. Both are known before the call. */
  predicate Headroom(x: Attempt, mandate: Mandate) {
    var b := x.ta.body;
    b.side == "SELL" && b.symbol in b.pre.positions ==>
      && (b.market.last - x.market.last) * b.qty <= Slack(b, mandate)
      && b.qty * -x.market.last <= b.pre.cash
  }

  /** In the market it was evaluated in, an order always has it. */
  lemma UnmovedHasHeadroom(x: Attempt, mandate: Mandate)
    requires Evaluated(x.ta.body, mandate) && x.market == x.ta.body.market && x.market.last >= 0.0
    requires x.ta.body.qty > 0.0 && x.ta.body.pre.cash >= 0.0
    ensures Headroom(x, mandate)
  {
    EvaluationSays(x.ta.body, mandate);
    hide Evaluated;
    NoDebt(x.ta.body.qty, x.market.last);
  }

  lemma NoDebt(qty: real, price: real)
    requires qty > 0.0 && price >= 0.0
    ensures qty * -price <= 0.0
  {
  }

  /** An evaluated order that executes leaves the account inside its mandate exactly if it had the headroom;
      one that is refused leaves it where it was. */
  lemma NextWithinIff(sigs: seq<Signed>, s: Account, x: Attempt, mandate: Mandate)
    requires x.ta.body.qty > 0.0 && Sound(s) && Within(s, mandate) && Evaluated(x.ta.body, mandate)
    ensures Within(Next(sigs, s, x), mandate)
            <==> (Rule(sigs, s, x.market, x.ta, x.cert, x.now).Executed? ==> Headroom(x, mandate))
  {
    var b := x.ta.body;
    EvaluationSays(b, mandate);
    ExecutedIs(sigs, s, x);
    hide Bought, Sold, Rule, Evaluated;
    if Rule(sigs, s, x.market, x.ta, x.cert, x.now).Executed? {
      if b.side == "BUY" {
        hide Headroom;
      } else {
        Falls(x.market.last, b.market.last, s.positions[b.symbol].avg, b.qty);
      }
    }
  }

  lemma ExecutedIs(sigs: seq<Signed>, s: Account, x: Attempt)
    requires x.ta.body.qty > 0.0 && Sound(s)
    ensures var b := x.ta.body;
            Rule(sigs, s, x.market, x.ta, x.cert, x.now).Executed? ==>
              && s == b.pre && (b.side == "BUY" || b.side == "SELL")
              && Rule(sigs, s, x.market, x.ta, x.cert, x.now) == Fill(s, b.symbol, b.side, b.qty, x.market.last)
  {
    hide Fill, OutOfBand, VerifyAuthorization;
  }

  lemma EvaluationSays(b: Body, mandate: Mandate)
    requires Evaluated(b, mandate)
    ensures b.pre.ordersToday < mandate.maxOrdersPerDay
    ensures b.side == "SELL" && b.symbol in b.pre.positions ==>
              b.pre.pnl + (b.market.last - b.pre.positions[b.symbol].avg) * b.qty >= -mandate.maxDailyLossUsd
  {
    hide MarketValue, Round6, Share, PositionValue, PriceOk;
  }

  /** A sale realizes less than evaluated by the drop in price. */
  lemma Falls(price: real, evaluated: real, avg: real, qty: real)
    ensures (price - avg) * qty == (evaluated - avg) * qty - (evaluated - price) * qty
    ensures qty * -price == -(qty * price)
  {
    assert price - avg == (evaluated - avg) - (evaluated - price);
  }

  /** The account after each number of submissions. */
  ghost predicate AlwaysWithin(sigs: seq<Signed>, s: Account, xs: seq<Attempt>, mandate: Mandate)
    requires Positive(xs) && Sound(s)
  {
    forall k :: 0 <= k <= |xs| ==> WithinAt(sigs, s, xs, k, mandate)
  }

  ghost predicate WithinAt(sigs: seq<Signed>, s: Account, xs: seq<Attempt>, k: nat, mandate: Mandate)
    requires Positive(xs) && Sound(s) && k <= |xs|
  {
    PrefixPositive(xs, k);
    Within(After(sigs, s, xs[..k]), mandate)
  }

  /** Over any run of evaluated authorizations the account stays inside its mandate throughout - no more orders
      than allowed, no more loss than allowed, no negative cash - exactly if each one that executed had the
      headroom. */
  lemma RunWithinIff(sigs: seq<Signed>, s: Account, xs: seq<Attempt>, mandate: Mandate)
    requires Positive(xs) && Sound(s) && Within(s, mandate) && forall x :: x in xs ==> Evaluated(x.ta.body, mandate)
    ensures AlwaysWithin(sigs, s, xs, mandate)
            <==> forall i :: 0 <= i < |xs| && Executes(sigs, s, xs, i) ==> Headroom(xs[i], mandate)
  {
    hide Within, Evaluated, Headroom, Next, Positive, Sound;
    if AlwaysWithin(sigs, s, xs, mandate) {
      forall i | 0 <= i < |xs| && Executes(sigs, s, xs, i)
        ensures Headroom(xs[i], mandate)
      {
        assert WithinAt(sigs, s, xs, i, mandate) && WithinAt(sigs, s, xs, i + 1, mandate);
        StepWithinIff(sigs, s, xs, i, mandate);
      }
    } else {
      var k :| 0 <= k <= |xs| && !WithinAt(sigs, s, xs, k, mandate);
      var i := LeavesAt(sigs, s, xs, k, mandate);
    }
  }

  lemma StepWithinIff(sigs: seq<Signed>, s: Account, xs: seq<Attempt>, i: nat, mandate: Mandate)
    requires Positive(xs) && Sound(s) && i < |xs| && Evaluated(xs[i].ta.body, mandate)
             && WithinAt(sigs, s, xs, i, mandate)
    ensures WithinAt(sigs, s, xs, i + 1, mandate) <==> (Executes(sigs, s, xs, i) ==> Headroom(xs[i], mandate))
  {
    hide Within, Evaluated, Headroom, Next, Positive, Sound, Rule;
    AfterStep(sigs, s, xs, i);
    NextWithinIff(sigs, After(sigs, s, xs[..i]), xs[i], mandate);
  }

  /** A run that is outside its mandate at some point left it by an order without the headroom. */
  lemma {:induction false} LeavesAt(sigs: seq<Signed>, s: Account, xs: seq<Attempt>, k: nat, mandate: Mandate)
    returns (i: nat)
    requires Positive(xs) && Sound(s) && Within(s, mandate) && forall x :: x in xs ==> Evaluated(x.ta.body, mandate)
    requires k <= |xs| && !WithinAt(sigs, s, xs, k, mandate)
    ensures i < k && Executes(sigs, s, xs, i) && !Headroom(xs[i], mandate)
  {
    hide Within, Evaluated, Headroom, Next, Positive, Sound, Rule, Executes;
    StartsWithin(sigs, s, xs, mandate);
    if k > 0 {
      if WithinAt(sigs, s, xs, k - 1, mandate) {
        assert xs[k - 1] in xs;
        StepWithinIff(sigs, s, xs, k - 1, mandate);
        i := k - 1;
      } else {
        i := LeavesAt(sigs, s, xs, k - 1, mandate);
      }
    }
  }

  lemma StartsWithin(sigs: seq<Signed>, s: Account, xs: seq<Attempt>, mandate: Mandate)
    requires Positive(xs) && Sound(s) && Within(s, mandate)
    ensures WithinAt(sigs, s, xs, 0, mandate)
  {
    assert xs[..0] == [];
  }

  // ---------------------------------------------------------------- where the code falls short

  /** The boundary does not compare markets: a sale evaluated at 100 and filled at 10 breaks a loss cap
      of 50 that the evaluation respected. */
  lemma MovedMarketBreaksCap(sigs: seq<Signed>, cert: OperatorCert)
    requires sigs == [Signed(cert.pubkey, MovedBody(cert))]
    ensures var ta := Authorization(MovedBody(cert), Some(0)); var mandate := MovedMandate();
            && Evaluated(ta.body, mandate) && Sound(ta.body.pre) && Within(ta.body.pre, mandate)
            && Rule(sigs, ta.body.pre, ta.body.market.(last := 10.0), ta, cert, 0).Executed?
            && !Within(Rule(sigs, ta.body.pre, ta.body.market.(last := 10.0), ta, cert, 0).after, mandate)
  {
    MovedEvaluated(cert);
    hide Evaluated, Assess;
  }

  lemma MovedEvaluated(cert: OperatorCert)
    ensures Evaluated(MovedBody(cert), MovedMandate())
  {
    var b, mandate := MovedBody(cert), MovedMandate();
    hide MarketValue, Round6, Share, Estimate;
    assert "SPY" in mandate.allowedAssets && "SELL" in mandate.allowedSides;
    NotBlockedIff(b.proposal, b.pre, b.market, mandate, 0, b.risk, None);
    assert Assess(b.proposal, b.pre, b.market, mandate, 0) == Some(b.risk);
  }

  function MovedMandate(): Mandate { Mandate(["SPY"], ["SELL"], 1.0, 1000.0, 50.0, 5) }

  ghost function MovedBody(cert: OperatorCert): Body {
    var m := Market("SPY", 0, 100.0, 100.0, 100.0, 0.0, "sim");
    var s := Account("acct", 0.0, "USD", map["SPY" := Holding(1.0, 100.0)], 0, 0.0, None);
    var p := Proposal("SPY", "SELL", 1.0, Constraint("MARKET", None, None), "", 1.0, [], "");
    Build(cert, "", "acct", p, s, m, Assess(p, s, m, MovedMandate(), 0).value, "", AUTO, None, "n", 0)
  }

  // ---------------------------------------------------------------- the position cap

  /** The evaluation does not read the mandate's cap on a position. */
  lemma PositionCapUnread(p: Proposal, s: Account, m: Market, mandate: Mandate, now: int, cap: real)
    ensures Assess(p, s, m, mandate.(maxPositionPct := cap), now) == Assess(p, s, m, mandate, now)
  {
    hide MarketValue, Round6, Share, PositionValue, PriceOk, CashOk, Realized;
  }

  /** Prices of everything that could be held, the traded symbol's being the market's. */
  predicate Quotes(price: string -> real, m: Market) { price(m.symbol) == m.last }

  /** The share of the account a position makes up. */
  ghost function TrueShare(s: Account, symbol: string, price: string -> real): real {
    Share(PositionValue(s, symbol, price), MarketValue(s, price))
  }

  /** At any prices of the other holdings: a purchase leaves its position within a cap exactly if the position and
      the order together are within that share of what the account is worth before; the authorization boundary
      asks for nothing of the kind. */
  lemma PositionCapIff(s: Account, m: Market, qty: real, cap: real, price: string -> real, after: Account)
    requires Sound(s) && qty > 0.0 && m.last > 0.0 && s.cash >= qty * m.last
    requires Quotes(price, m) && MarketValue(s, price) > 0.0
    requires after == Fill(s, m.symbol, "BUY", qty, m.last).after
    ensures TrueShare(after, m.symbol, price) <= cap
            <==> PositionValue(s, m.symbol, price) + qty * m.last <= cap * MarketValue(s, price)
  {
    hide MarketValue, PositionValue, Sound, Share, Bought, Funds;
    BoughtValue(s, m, qty, price);
    BuysAtMarket(s, m, qty, price);
    ShareIff(PositionValue(after, m.symbol, price), MarketValue(s, price), cap);
  }

  lemma BuysAtMarket(s: Account, m: Market, qty: real, price: string -> real)
    requires Sound(s) && qty > 0.0 && s.cash >= qty * m.last && Quotes(price, m)
    ensures MarketValue(Fill(s, m.symbol, "BUY", qty, m.last).after, price) == MarketValue(s, price)
  {
    FillConserves(s, m.symbol, "BUY", qty, m.last, price);
  }

  lemma ShareIff(part: real, whole: real, cap: real)
    requires whole > 0.0
    ensures Share(part, whole) <= cap <==> part <= cap * whole
  {
    var share := part / whole;
    assert share * whole == part;
    Scales(share, cap, whole);
  }

  lemma Scales(a: real, b: real, whole: real)
    requires whole > 0.0
    ensures a <= b <==> a * whole <= b * whole
  {
    if a <= b {
      assert (b - a) * whole >= 0.0;
    } else {
      assert (a - b) * whole > 0.0;
    }
  }

  function CapMandate(cap: real): Mandate { Mandate(["SPY"], ["BUY"], cap, 1.0, 50.0, 5) }

  /** Of an account worth 1, all in cash: a purchase half-way between the cap and everything. */
  ghost function CapBody(cert: OperatorCert, cap: real): Body {
    var m := Market("SPY", 0, 1.0, 1.0, 1.0, 0.0, "sim");
    var s := Account("acct", 1.0, "USD", map[], 0, 0.0, None);
    var p := Proposal("SPY", "BUY", (1.0 + cap) / 2.0, Constraint("MARKET", None, None), "", 1.0, [], "");
    var risk := Assess(p, s, m, CapMandate(cap), 0).value;
    Build(cert, "", "acct", p, s, m, risk, "", Required(risk, None), None, "n", 0)
  }

  /** Whatever the cap, short of everything: an order inside every bound that is checked, evaluated, authorized
      and executed in the market it was evaluated in, leaves its position above the cap. */
  lemma PositionCapUnenforced(sigs: seq<Signed>, cert: OperatorCert, cap: real, price: string -> real)
    requires 0.0 <= cap < 1.0 && sigs == [Signed(cert.pubkey, CapBody(cert, cap))]
    requires Quotes(price, CapBody(cert, cap).market)
    ensures var b := CapBody(cert, cap); var ta := Authorization(b, Some(0)); var mandate := CapMandate(cap);
            && Evaluated(b, mandate) && Sound(b.pre) && b.qty > 0.0 && Within(b.pre, mandate)
            && var r := Rule(sigs, b.pre, b.market, ta, cert, 0);
            && r.Executed? && Within(r.after, mandate)
            && TrueShare(r.after, b.symbol, price) > mandate.maxPositionPct
  {
    var b, mandate := CapBody(cert, cap), CapMandate(cap);
    var ta := Authorization(b, Some(0));
    assert "SPY" in mandate.allowedAssets && "BUY" in mandate.allowedSides;
    EmptyWorth(b.pre, price);
    hide MarketValue, Round6, Share, PositionValue, TrueShare;
    assert Assess(b.proposal, b.pre, b.market, mandate, 0) == Some(b.risk);
    NotBlockedIff(b.proposal, b.pre, b.market, mandate, 0, b.risk, None);
    assert Rule(sigs, b.pre, b.market, ta, cert, 0) == Fill(b.pre, "SPY", "BUY", b.qty, 1.0);
    PositionCapIff(b.pre, b.market, b.qty, cap, price, Fill(b.pre, "SPY", "BUY", b.qty, 1.0).after);
    NothingHeld(b.pre, b.symbol, price);
  }

  lemma EmptyWorth(s: Account, price: string -> real)
    requires s.positions == map[]
    ensures MarketValue(s, price) == s.cash
  {
  }

  lemma NothingHeld(s: Account, symbol: string, price: string -> real)
    requires symbol !in s.positions
    ensures PositionValue(s, symbol, price) == 0.0
  {
  }

  /** The warning is tested on the rounded share: a share escalates exactly above 0.1500005. */
  lemma WarnsAboveIff(share: real)
    ensures Round6(share) > POSITION_WARN_PCT <==> share > 0.1500005
  {
    var up := share * 1000000.0;
    var k := up.Floor;
    if k == 150000 {
      assert k % 2 == 0;
    }
  }

  /** Rounding moves a figure by half a millionth at most. */
  lemma RoundsNear(share: real)
    ensures AbsR(Round6(share) - share) <= 0.0000005
  {
    var up := share * 1000000.0;
    var k := up.Floor;
    var rest := up - k as real;
    assert 0.0 <= rest < 1.0;
    assert (k as real / 1000000.0) - share == -rest / 1000000.0;
  }

  lemma ReportedIsEstimate(p: Proposal, s: Account, m: Market, mandate: Mandate, now: int, risk: Risk)
    requires Assess(p, s, m, mandate, now) == Some(risk)
    ensures var estimate := Estimate(s, p.symbol, m, Notional(p.qty, m.last));
            risk.positionPctAfter == Round6(estimate) && AbsR(risk.positionPctAfter - estimate) <= 0.0000005
  {
    hide Notional, Estimate, Round6, MarketValue, PriceOk, CashOk, Realized, Share;
    RoundsNear(Estimate(s, p.symbol, m, Notional(p.qty, m.last)));
  }

  /** At any prices of the other holdings: what they are worth decides how the estimate of a purchase stands to the
      share it really leaves. It is too low exactly if they are worth less than the order, right exactly if they
      are worth as much, and so too high exactly if they are worth more. */
  lemma EstimateIff(s: Account, m: Market, qty: real, price: string -> real, after: Account)
    requires Sound(s) && qty > 0.0 && m.last > 0.0 && s.cash >= qty * m.last
    requires Quotes(price, m) && MarketValue(s, price) > 0.0
    requires after == Fill(s, m.symbol, "BUY", qty, m.last).after
    ensures var others := Rest(s.positions, AtPrice(price), m.symbol); var left := TrueShare(after, m.symbol, price);
            && (Estimate(s, m.symbol, m, qty * m.last) < left <==> others < qty * m.last)
            && (Estimate(s, m.symbol, m, qty * m.last) == left <==> others == qty * m.last)
  {
    hide MarketValue, PositionValue, Sound, Share, Bought, Funds, Rest;
    var others, held := Rest(s.positions, AtPrice(price), m.symbol), PositionValue(s, m.symbol, price);
    BoughtValue(s, m, qty, price);
    BuysAtMarket(s, m, qty, price);
    ValueSplit(s, m.symbol, price);
    ValueSplit(s, m.symbol, PriceOf(m));
    OthersAtNothing(s.positions, m);
    SamePosition(s, m, price);
    SharesIff(held + qty * m.last, s.cash + held + qty * m.last, s.cash + held + others);
  }

  lemma ValueSplit(s: Account, symbol: string, price: string -> real)
    ensures MarketValue(s, price)
            == s.cash + PositionValue(s, symbol, price) + Rest(s.positions, AtPrice(price), symbol)
  {
    WorthSplit(s.positions, AtPrice(price), symbol);
  }

  lemma OthersAtNothing(ps: map<string, Holding>, m: Market)
    ensures Rest(ps, AtPrice(PriceOf(m)), m.symbol) == 0.0
  {
    var rest := ps - {m.symbol};
    SumRealZero(rest.Keys, Worths(rest, AtPrice(PriceOf(m))));
  }

  lemma SamePosition(s: Account, m: Market, price: string -> real)
    requires Quotes(price, m)
    ensures PositionValue(s, m.symbol, price) == PositionValue(s, m.symbol, PriceOf(m))
  {
  }

  lemma SharesIff(part: real, whole: real, more: real)
    requires part > 0.0 && whole > 0.0 && more > 0.0
    ensures Share(part, whole) < Share(part, more) <==> more < whole
    ensures Share(part, whole) == Share(part, more) <==> more == whole
  {
    if more < whole {
      Shrinks(part, more, whole);
    } else if whole < more {
      Shrinks(part, whole, more);
    }
  }

  lemma Shrinks(part: real, whole: real, more: real)
    requires part > 0.0 && 0.0 < whole < more
    ensures part / more < part / whole
  {
    var a, b := part / more, part / whole;
    assert a * more == part && b * whole == part;
    assert a > 0.0;
    assert a * whole < a * more;
  }

  /** So a purchase escalates though it is small: twenty at 1, of an account that holds 1000 in another symbol and
      100 in cash, is reported at a sixth and leaves less than a fiftieth. */
  lemma SmallPurchaseEscalates(price: string -> real)
    requires price("SPY") == 1.0 && price("QQQ") == 100.0
    ensures var (p, s, m, mandate) := SmallPurchase();
            && Sound(s) && Assess(p, s, m, mandate, 0).Some?
            && Required(Assess(p, s, m, mandate, 0).value, None) == HUMAN
            && TrueShare(Fill(s, "SPY", "BUY", 20.0, 1.0).after, "SPY", price) < 0.02
  {
    var (p, s, m, mandate) := SmallPurchase();
    hide TrueShare, Assess, Required, Fill;
    ASixth(s, m);
    Escalates(p, s, m, mandate);
    AFiftieth(s, m, price);
  }

  lemma AFiftieth(s: Account, m: Market, price: string -> real)
    requires (s, m) == (SmallPurchase().1, SmallPurchase().2) && price("SPY") == 1.0 && price("QQQ") == 100.0
    ensures TrueShare(Fill(s, "SPY", "BUY", 20.0, 1.0).after, "SPY", price) < 0.02
  {
    NothingHeld(s, "SPY", price);
    OnlyQqq(s.positions, price);
    ValueSplit(s, "SPY", price);
    hide MarketValue, PositionValue, Rest, TrueShare, Fill;
    PositionCapIff(s, m, 20.0, 0.019, price, Fill(s, "SPY", "BUY", 20.0, 1.0).after);
  }

  lemma Escalates(p: Proposal, s: Account, m: Market, mandate: Mandate)
    requires (p, s, m, mandate) == SmallPurchase() && Round6(Estimate(s, "SPY", m, 20.0)) > POSITION_WARN_PCT
    ensures Assess(p, s, m, mandate, 0).Some? && Required(Assess(p, s, m, mandate, 0).value, None) == HUMAN
  {
    hide Estimate, Round6, Share, MarketValue;
    assert "SPY" in mandate.allowedAssets && "BUY" in mandate.allowedSides;
    var risk := Assess(p, s, m, mandate, 0).value;
    ReportedIsEstimate(p, s, m, mandate, 0, risk);
    NotBlockedIff(p, s, m, mandate, 0, risk, None);
  }

  lemma ASixth(s: Account, m: Market)
    requires s.cash == 100.0 && m.symbol == "SPY" && "SPY" !in s.positions
    ensures Round6(Estimate(s, "SPY", m, 20.0)) > POSITION_WARN_PCT
  {
    NothingHeld(s, "SPY", PriceOf(m));
    OthersAtNothing(s.positions, m);
    ValueSplit(s, "SPY", PriceOf(m));
    hide MarketValue, PositionValue;
    assert Estimate(s, "SPY", m, 20.0) == 20.0 / 120.0;
    WarnsAboveIff(20.0 / 120.0);
  }

  function SmallPurchase(): (Proposal, Account, Market, Mandate) {
    (Proposal("SPY", "BUY", 20.0, Constraint("MARKET", None, None), "", 1.0, [], ""),
     Account("acct", 100.0, "USD", map["QQQ" := Holding(10.0, 100.0)], 0, 0.0, None),
     Market("SPY", 0, 1.0, 1.0, 1.0, 0.0, "sim"), Mandate(["SPY"], ["BUY"], 1.0, 1000.0, 50.0, 5))
  }

  lemma OnlyQqq(ps: map<string, Holding>, price: string -> real)
    requires ps == map["QQQ" := Holding(10.0, 100.0)] && price("QQQ") == 100.0
    ensures Rest(ps, AtPrice(price), "SPY") == 1000.0
  {
    assert ps - {"SPY"} == ps;
    WorthWithout(ps, AtPrice(price), "QQQ");
    assert ps - {"QQQ"} == map[];
  }

  /** And rounding alone can lift a figure above the true one: six ten-millionths are reported as one millionth. */
  lemma RoundingLifts(price: string -> real)
    requires price("SPY") == 1.0
    ensures var s, m := Account("acct", 1.0, "USD", map[], 0, 0.0, None), Market("SPY", 0, 1.0, 1.0, 1.0, 0.0, "sim");
            Round6(Estimate(s, "SPY", m, 0.0000006))
            > TrueShare(Fill(s, "SPY", "BUY", 0.0000006, 1.0).after, "SPY", price)
  {
    var s, m := Account("acct", 1.0, "USD", map[], 0, 0.0, None), Market("SPY", 0, 1.0, 1.0, 1.0, 0.0, "sim");
    hide Round6, TrueShare, Estimate;
    LeavesItself(s, m, price, 0.0000006);
    EstimatesLess(s, m, 0.0000006);
    RoundsUp(0.0000006 / 1.0000006);
  }

  /** A first purchase of an account worth 1, all in cash, leaves the share that was bought. */
  lemma LeavesItself(s: Account, m: Market, price: string -> real, qty: real)
    requires s.positions == map[] && s.cash == 1.0 && m.symbol == "SPY" && m.last == 1.0 && Quotes(price, m)
    requires 0.0 < qty <= 1.0
    ensures TrueShare(Fill(s, "SPY", "BUY", qty, 1.0).after, "SPY", price) <= qty
  {
    EmptyWorth(s, price);
    NothingHeld(s, "SPY", price);
    hide MarketValue, PositionValue, TrueShare, Fill;
    PositionCapIff(s, m, qty, qty, price, Fill(s, "SPY", "BUY", qty, 1.0).after);
  }

  lemma EstimatesLess(s: Account, m: Market, qty: real)
    requires s.positions == map[] && s.cash == 1.0 && m.symbol == "SPY" && qty > 0.0
    ensures Estimate(s, "SPY", m, qty) == qty / (1.0 + qty)
  {
    EmptyWorth(s, PriceOf(m));
    NothingHeld(s, "SPY", PriceOf(m));
    hide MarketValue, PositionValue;
  }

  lemma RoundsUp(share: real)
    requires 0.0000005 < share < 0.0000015
    ensures Round6(share) == 0.000001
  {
    var up := share * 1000000.0;
    assert 0.5 < up < 1.5;
  }

  lemma BoughtValue(s: Account, m: Market, qty: real, price: string -> real)
    requires Sound(s) && qty > 0.0 && m.last > 0.0 && s.cash >= qty * m.last && Quotes(price, m)
    ensures PositionValue(Fill(s, m.symbol, "BUY", qty, m.last).after, m.symbol, price)
            == PositionValue(s, m.symbol, price) + qty * m.last
    ensures PositionValue(s, m.symbol, price) >= 0.0 && qty * m.last > 0.0
  {
    if m.symbol in s.positions {
      BoughtPart(s.positions[m.symbol].qty, qty, m.last);
    }
  }
}
