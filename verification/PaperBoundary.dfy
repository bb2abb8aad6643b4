/** What the paper boundary lets through, in terms of what was signed, held and quoted, and what the risk evaluation
    tells (fleet/fin/domain.py, authorization.py, exchange_sim.py). */
module PaperBoundary {
  import opened Wrappers
  import opened Sums
  import opened PaperTrading

  // ---------------------------------------------------------------- what executes

  /** Within the band around the limit the order names, if it is a limit order; without a band, at the limit. A
      negative band lets any price pass. */
  predicate PricePasses(c: Constraint, last: real) {
    c.kind == "LIMIT" ==>
      var limit := match c.limit { case Some(x) => x case None => last };
      var band := match c.band { case Some(x) => x case None => 0.0 };
      && (band > 0.0 ==> -(band * last) <= limit - last <= band * last)
      && (band == 0.0 ==> limit == last)
  }

  lemma PricePassesIff(c: Constraint, last: real)
    ensures OutOfBand(c, last) <==> !PricePasses(c, last)
  {
  }

  /** An order executes exactly if the operator's key signed this very body, which is not blocked, is for this
      certificate's epoch, has not expired and carries a nonce; the account is the one evaluated, the symbol the
      market's, the price passes, and cash or holdings cover it. */
  lemma ExecutedIff(sigs: seq<Signed>, s: Account, m: Market, ta: Authorization, cert: OperatorCert, now: int)
    requires ta.body.qty > 0.0 && Sound(s)
    ensures var b := ta.body;
            Rule(sigs, s, m, ta, cert, now).Executed? <==>
              && (exists k :: 0 <= k < |sigs| && ta.sig == Some(k) && sigs[k] == Signed(cert.pubkey, b))
              && (b.disposition == AUTO || b.disposition == HUMAN)
              && b.epoch == cert.certSeq && now <= b.expiration && |b.nonce| > 0
              && s == b.pre && b.symbol == m.symbol && PricePasses(b.constraint, m.last)
              && ((b.side == "BUY" && s.cash >= b.qty * m.last)
                  || (b.side == "SELL" && b.symbol in s.positions && s.positions[b.symbol].qty >= b.qty))
  {
    PricePassesIff(ta.body.constraint, m.last);
    hide OutOfBand, PricePasses, Bought, Sold;
  }

  /** Each refusal names a check that fails. */
  lemma RefusedWhy(sigs: seq<Signed>, s: Account, m: Market, ta: Authorization, cert: OperatorCert, now: int)
    requires ta.body.qty > 0.0 && Sound(s)
    ensures var b, r := ta.body, Rule(sigs, s, m, ta, cert, now);
            && (r == Refused(StateMismatch) ==> s != b.pre)
            && (r == Refused(SymbolMismatch) ==> b.symbol != m.symbol)
            && (r == Refused(SideNotAllowed) ==> b.side != "BUY" && b.side != "SELL")
            && (r == Refused(PriceOutOfBand) ==> !PricePasses(b.constraint, m.last))
            && (r == Refused(InsufficientCash) ==> b.side == "BUY" && s.cash < b.qty * m.last)
            && (r == Refused(InsufficientHoldings) ==>
                  b.side == "SELL" && (b.symbol !in s.positions || s.positions[b.symbol].qty < b.qty))
            && (r == Refused(Unauthorized) <==>
                  !(&& (exists k :: 0 <= k < |sigs| && ta.sig == Some(k) && sigs[k] == Signed(cert.pubkey, b))
                    && (b.disposition == AUTO || b.disposition == HUMAN)
                    && b.epoch == cert.certSeq && now <= b.expiration && |b.nonce| > 0))
  {
    PricePassesIff(ta.body.constraint, m.last);
    hide OutOfBand, PricePasses, Bought, Sold;
  }

  /** What was never signed never executes: however an authorization is altered after signing, in whatever field and
      under whatever signature, in any run. */
  lemma UnsignedNeverExecutes(sigs: seq<Signed>, s: Account, xs: seq<Attempt>, i: nat)
    requires Positive(xs) && Sound(s) && i < |xs|
    requires forall k :: 0 <= k < |sigs| ==> sigs[k] != Signed(xs[i].cert.pubkey, xs[i].ta.body)
    ensures !Executes(sigs, s, xs, i)
  {
    assert xs[i] in xs;
    AfterStep(sigs, s, xs, i);
    var v := After(sigs, s, xs[..i]);
    ExecutedIff(sigs, v, xs[i].market, xs[i].ta, xs[i].cert, xs[i].now);
    hide Rule, Sound, Positive, PricePasses;
  }

  /** An authorization built by the operator executes within five minutes of its making or not at all. */
  lemma BuiltExpires(sigs: seq<Signed>, s: Account, m: Market, ta: Authorization, cert: OperatorCert, now: int,
                     strategy: string, account: string, p: Proposal, at: Market, risk: Risk, policy: string,
                     disposition: Disposition, approval: Option<string>, nonce: string, ts: int)
    requires ta.body.qty > 0.0 && Sound(s)
    requires ta.body == Build(cert, strategy, account, p, s, at, risk, policy, disposition, approval, nonce, ts)
    requires Rule(sigs, s, m, ta, cert, now).Executed?
    ensures now <= ts + 300 && ta.body.agent == cert.agent && ta.body.account == account
    ensures (ta.body.symbol, ta.body.side, ta.body.qty, ta.body.constraint) == (p.symbol, p.side, p.qty, p.constraint)
    ensures ta.body.order == OrderKey(account, p.symbol, p.side, p.qty, p.constraint)
    ensures (ta.body.strategy, ta.body.proposal, ta.body.market, ta.body.risk) == (strategy, p, at, risk)
    ensures (ta.body.policy, ta.body.disposition, ta.body.approval, ta.body.nonce, ta.body.ts)
            == (policy, disposition, approval, nonce, ts)
  {
    ExecutedIff(sigs, s, m, ta, cert, now);
  }

  /** What an execution does to the account, at the market's last price: cash moves by the order's worth, the symbol's
      holding by its quantity, no other holding moves, and the order is counted. */
  lemma ExecutedAccount(sigs: seq<Signed>, s: Account, m: Market, ta: Authorization, cert: OperatorCert, now: int)
    requires ta.body.qty > 0.0 && Sound(s) && Rule(sigs, s, m, ta, cert, now).Executed?
    ensures var b := ta.body; var v := Rule(sigs, s, m, ta, cert, now).after;
            var had := if b.symbol in s.positions then s.positions[b.symbol].qty else 0.0;
            var has := if b.symbol in v.positions then v.positions[b.symbol].qty else 0.0;
            && v == s.(cash := v.cash, positions := v.positions, ordersToday := s.ordersToday + 1, pnl := v.pnl)
            && (b.side == "BUY" ==> v.cash == s.cash - b.qty * m.last && has == had + b.qty && v.pnl == s.pnl)
            && (b.side == "SELL" ==> v.cash == s.cash + b.qty * m.last && has == had - b.qty)
            && (forall k :: k != b.symbol ==> (k in v.positions <==> k in s.positions))
            && (forall k :: k != b.symbol && k in s.positions ==> v.positions[k] == s.positions[k])
  {
    hide VerifyAuthorization, OutOfBand, Averaged;
  }

  /** A sale realizes what it fetched over what the position cost, and leaves the rest at that cost; a purchase leaves
      the position at what was paid for all of it. */
  lemma ExecutedCost(sigs: seq<Signed>, s: Account, m: Market, ta: Authorization, cert: OperatorCert, now: int)
    requires ta.body.qty > 0.0 && Sound(s) && Rule(sigs, s, m, ta, cert, now).Executed?
    ensures var b := ta.body; var v := Rule(sigs, s, m, ta, cert, now).after;
            && (b.side == "SELL" ==>
                  && b.symbol in s.positions && v.pnl == s.pnl + (m.last - s.positions[b.symbol].avg) * b.qty
                  && (b.symbol in v.positions ==> v.positions[b.symbol].avg == s.positions[b.symbol].avg))
            && (b.side == "BUY" ==>
                  && b.symbol in v.positions
                  && v.positions[b.symbol].qty * v.positions[b.symbol].avg
                     == b.qty * m.last + (if b.symbol in s.positions
                                          then s.positions[b.symbol].avg * s.positions[b.symbol].qty else 0.0))
  {
    hide VerifyAuthorization, OutOfBand;
    var b := ta.body;
    if b.side == "BUY" {
      PaidFor(s.positions, b.symbol, b.qty, m.last);
      hide Bought;
    }
  }

  lemma PaidFor(ps: map<string, Holding>, symbol: string, qty: real, price: real)
    requires qty > 0.0 && (symbol in ps ==> ps[symbol].qty > 0.0)
    ensures symbol in Bought(ps, symbol, qty, price)
    ensures var h := Bought(ps, symbol, qty, price)[symbol];
            h.qty * h.avg == qty * price + (if symbol in ps then ps[symbol].avg * ps[symbol].qty else 0.0)
  {
    if symbol in ps {
      AverageWeighs(ps[symbol].avg, ps[symbol].qty, price, qty);
      hide Averaged;
    }
  }

  // ---------------------------------------------------------------- what the evaluation tells

  /** What is not blocked a human decides exactly on weak advice or a reported position share above fifteen
      hundredths. */
  lemma RequiredIff(r: Risk, consensus: Option<string>)
    ensures Required(r, consensus) == HUMAN
            <==> Required(r, consensus) != BLOCKED && (consensus == Some("weak") || r.positionPctAfter > 0.15)
  {
  }

  /** The price the evaluation lets a limit order name; without a positive band, the last one itself. */
  predicate PriceMeets(c: Constraint, last: real) {
    c.kind == "LIMIT" ==>
      var limit := match c.limit { case Some(x) => x case None => last };
      var band := match c.band { case Some(x) => x case None => 0.0 };
      if band > 0.0 then -(band * last) <= limit - last <= band * last else limit == last
  }

  /** The reasons an evaluation may give. */
  const REASONS: seq<string> :=
    ["asset-not-allowed", "side-not-allowed", "insufficient-cash-or-holdings", "order-too-large", "price-out-of-band",
     "stale-market-data", "daily-loss-cap", "order-frequency-cap", "position-pct-warning"]

  /** What each is for. */
  ghost function Breaches(p: Proposal, s: Account, m: Market, mandate: Mandate, now: int): (bs: seq<bool>)
    ensures |bs| == 9
  {
    var worth := Notional(p.qty, m.last);
    var holds := p.symbol in s.positions && s.positions[p.symbol].qty >= p.qty;
    var made := if p.side == "SELL" && p.symbol in s.positions then Earned(p.qty, m.last, s.positions[p.symbol].avg)
                else 0.0;
    [p.symbol !in mandate.allowedAssets, p.side !in mandate.allowedSides,
     if p.side == "BUY" then s.cash < worth else !holds, worth > mandate.maxOrderUsd,
     !PriceMeets(p.constraint, m.last), now - m.ts > 60, s.pnl + made < -mandate.maxDailyLossUsd,
     s.ordersToday >= mandate.maxOrdersPerDay, Estimate(s, p.symbol, m, worth) > 0.15]
  }

  /** What a sale at `last` makes on what was bought at `avg`. */
  function Earned(qty: real, last: real, avg: real): real { qty * (last - avg) }

  lemma EarnedIs(p: Proposal, s: Account, last: real)
    ensures Realized(p, s, last)
            == if p.side == "SELL" && p.symbol in s.positions then Earned(p.qty, last, s.positions[p.symbol].avg)
               else 0.0
  {
  }

  lemma PriceMeetsIff(c: Constraint, last: real)
    ensures PriceOk(c, last) <==> PriceMeets(c, last)
  {
  }

  /** Each figure of the evaluation tells of its own breach. */
  lemma FlagsTell(p: Proposal, s: Account, m: Market, mandate: Mandate, now: int, risk: Risk)
    requires Assess(p, s, m, mandate, now) == Some(risk)
    ensures var bs := Breaches(p, s, m, mandate, now);
            && risk.assetAllowed == !bs[0] && risk.sideAllowed == !bs[1] && risk.cashOk == !bs[2]
            && risk.sizeOk == !bs[3] && risk.priceOk == !bs[4] && risk.dataFresh == !bs[5]
            && risk.dailyLossOk == !bs[6] && risk.frequencyOk == !bs[7]
  {
    hide Estimate, Notional, MarketValue, Round6, Share, PriceOk, PriceMeets, Realized, Earned, Note;
    PriceMeetsIff(p.constraint, m.last);
    EarnedIs(p, s, m.last);
  }

  /** The evaluation blocks exactly on one of the first eight breaches or on severe advice. */
  lemma BlockedIff(p: Proposal, s: Account, m: Market, mandate: Mandate, now: int, risk: Risk,
                   consensus: Option<string>)
    requires Assess(p, s, m, mandate, now) == Some(risk)
    ensures var bs := Breaches(p, s, m, mandate, now);
            Required(risk, consensus) == BLOCKED
            <==> consensus == Some("severe") || bs[0] || bs[1] || bs[2] || bs[3] || bs[4] || bs[5] || bs[6] || bs[7]
  {
    hide Assess, Breaches;
    FlagsTell(p, s, m, mandate, now, risk);
  }

  function Noted(bs: seq<bool>): seq<string>
    requires |bs| == 9
  {
    Note(bs[0], REASONS[0]) + Note(bs[1], REASONS[1]) + Note(bs[2], REASONS[2]) + Note(bs[3], REASONS[3])
    + Note(bs[4], REASONS[4]) + Note(bs[5], REASONS[5]) + Note(bs[6], REASONS[6]) + Note(bs[7], REASONS[7])
    + Note(bs[8], REASONS[8])
  }

  lemma NotedIff(bs: seq<bool>, x: string)
    requires |bs| == 9
    ensures x in Noted(bs) <==> exists k :: 0 <= k < 9 && bs[k] && REASONS[k] == x
  {
    forall k | 0 <= k < 9
      ensures x in Note(bs[k], REASONS[k]) <==> bs[k] && REASONS[k] == x
    {
      NoteTells(bs[k], REASONS[k], x);
    }
    hide Note, REASONS;
  }

  lemma NoteTells(bad: bool, reason: string, x: string)
    ensures x in Note(bad, reason) <==> bad && reason == x
  {
  }

  /** Each check gives its reason exactly if it fails, the position share exactly above fifteen hundredths before
      rounding, and nothing else gives one; the score falls by as much for that share and for the asset. */
  lemma ReasonsTell(p: Proposal, s: Account, m: Market, mandate: Mandate, now: int, risk: Risk, reason: string)
    requires Assess(p, s, m, mandate, now) == Some(risk)
    ensures var bs := Breaches(p, s, m, mandate, now);
            && (reason in risk.reasons <==> exists k :: 0 <= k < 9 && bs[k] && REASONS[k] == reason)
            && risk.score == 1.0 - (if bs[8] then 0.15 else 0.0) - (if bs[0] then 0.15 else 0.0)
  {
    hide Estimate, Notional, MarketValue, Round6, Share, PriceOk, PriceMeets, Realized, Earned, Note;
    PriceMeetsIff(p.constraint, m.last);
    EarnedIs(p, s, m.last);
    var bs := Breaches(p, s, m, mandate, now);
    NotedIff(bs, reason);
    assert risk.reasons == Noted(bs);
  }

  /** The share reported, to within half a millionth: what is held in the market's symbol and the order, over cash and
      both; nothing else held counts. */
  lemma ReportedShare(p: Proposal, s: Account, m: Market, mandate: Mandate, now: int, risk: Risk)
    requires Assess(p, s, m, mandate, now) == Some(risk)
    ensures var held := if m.symbol in s.positions then s.positions[m.symbol].qty * m.last else 0.0;
            var worth := Notional(p.qty, m.last); var whole := s.cash + held + worth;
            var part := (if p.symbol == m.symbol then held else 0.0) + worth;
            var share := if whole > 0.0 then part / whole else 0.0;
            && Estimate(s, p.symbol, m, worth) == share && AbsR(risk.positionPctAfter - share) <= 0.0000005
            && risk.grossExposurePct == if whole > 0.0 then 1.0 else 0.0
  {
    var held := if m.symbol in s.positions then s.positions[m.symbol].qty * m.last else 0.0;
    PositionAtLast(s, p.symbol, m, held);
    ReportedIsEstimate(p, s, m, mandate, now, risk);
    hide MarketValue, PositionValue, Notional, Round6, PriceOk, CashOk, Realized;
    GrossIs(MarketValue(s, PriceOf(m)) + Notional(p.qty, m.last));
  }

  lemma PositionAtLast(s: Account, symbol: string, m: Market, held: real)
    requires held == if m.symbol in s.positions then s.positions[m.symbol].qty * m.last else 0.0
    ensures MarketValue(s, PriceOf(m)) == s.cash + held
    ensures PositionValue(s, symbol, PriceOf(m)) == if symbol == m.symbol then held else 0.0
  {
    ValueSplit(s, m.symbol, PriceOf(m));
    OthersAtNothing(s.positions, m);
    hide MarketValue, Rest;
  }

  lemma GrossIs(total: real)
    ensures Round6(Share(total, total)) == if total > 0.0 then 1.0 else 0.0
  {
    if total > 0.0 {
      assert total / total == 1.0;
      assert Round6(1.0) == 1.0;
    } else {
      assert Round6(0.0) == 0.0;
    }
  }
}
