/** The walk as a greedy allocation over one flat queue of eligible makers. */
module GreedyLaws {
  import opened Wrappers
  import opened Orders
  import opened PriceTime

  lemma {:induction false} WalkIdle(t: Ticket, ex: Exchange, q: seq<Lot>, want: int)
    requires Priced(q) && want <= 0
    ensures Walk(t, ex, q, want) == Swept(q, [], [], want)
  {
    if q != [] {
      WalkIdle(t, ex, q[1..], want);
    }
  }

  /** Walking two queues in turn is walking the one after the other. */
  ghost predicate Joins(t: Ticket, ex: Exchange, a: seq<Lot>, b: seq<Lot>, want: int)
    requires Priced(a) && Priced(b) && Priced(a + b)
  {
    var x := Walk(t, ex, a, want);
    var y := Walk(t, ex, b, x.left);
    Walk(t, ex, a + b, want) == Swept(x.rest + y.rest, x.fills + y.fills, x.hit + y.hit, y.left)
  }

  lemma {:induction false} WalkConcat(t: Ticket, ex: Exchange, a: seq<Lot>, b: seq<Lot>, want: int)
    requires Priced(a) && Priced(b)
    ensures Priced(a + b) && Joins(t, ex, a, b, want)
  {
    if a == [] {
      assert a + b == b;
    } else {
      hide Joins, Eligible;
      var take := if want > 0 && Eligible(t, ex, a[0]) then Min(want, a[0].Remaining()) else 0;
      WalkConcat(t, ex, a[1..], b, want - take);
      if want > 0 && Eligible(t, ex, a[0]) {
        JoinsTraded(t, ex, a, b, want);
      } else {
        JoinsPassed(t, ex, a, b, want);
      }
    }
  }

  lemma JoinsTraded(t: Ticket, ex: Exchange, a: seq<Lot>, b: seq<Lot>, want: int)
    requires Priced(a) && Priced(b) && Priced(a + b) && a != [] && want > 0 && Eligible(t, ex, a[0])
    requires Priced(a[1..]) && Priced(a[1..] + b) && Joins(t, ex, a[1..], b, want - Min(want, a[0].Remaining()))
    ensures Joins(t, ex, a, b, want)
  {
    hide Eligible, FillOf, Lot.Remaining;
    var m := a[0];
    var take := Min(want, m.Remaining());
    var after := m.(filled := m.filled + take);
    assert (a + b)[0] == m && (a + b)[1..] == a[1..] + b;
    var r := Walk(t, ex, a[1..], want - take);
    var y := Walk(t, ex, b, r.left);
    Assoc(if after.Remaining() == 0 then [] else [after], r.rest, y.rest);
    Assoc([FillOf(ex, t, m, take)], r.fills, y.fills);
    Assoc([m], r.hit, y.hit);
  }

  lemma JoinsPassed(t: Ticket, ex: Exchange, a: seq<Lot>, b: seq<Lot>, want: int)
    requires Priced(a) && Priced(b) && Priced(a + b) && a != [] && !(want > 0 && Eligible(t, ex, a[0]))
    requires Priced(a[1..]) && Priced(a[1..] + b) && Joins(t, ex, a[1..], b, want)
    ensures Joins(t, ex, a, b, want)
  {
    hide Eligible, FillOf, Lot.Remaining;
    assert (a + b)[0] == a[0] && (a + b)[1..] == a[1..] + b;
    var r := Walk(t, ex, a[1..], want);
    Assoc([a[0]], r.rest, Walk(t, ex, b, r.left).rest);
  }

  lemma Assoc<T>(a: seq<T>, b: seq<T>, c: seq<T>)
    ensures (a + b) + c == a + (b + c)
  {
  }

  lemma {:induction false} FilledQtyConcat(a: seq<Fill>, b: seq<Fill>)
    ensures FilledQty(a + b) == FilledQty(a) + FilledQty(b)
  {
    if a == [] {
      assert a + b == b;
    } else {
      assert (a + b)[1..] == a[1..] + b;
      FilledQtyConcat(a[1..], b);
    }
  }

  lemma {:induction false} MakersConcat(t: Ticket, ex: Exchange, a: seq<Lot>, b: seq<Lot>)
    requires Priced(a) && Priced(b)
    ensures Priced(a + b) && Makers(t, ex, a + b) == Makers(t, ex, a) + Makers(t, ex, b)
  {
    if a == [] {
      assert a + b == b;
    } else {
      assert (a + b)[1..] == a[1..] + b;
      MakersConcat(t, ex, a[1..], b);
    }
  }

  /** Makers is the filter it claims to be: every element eligible and from the queue, none missed. */
  lemma {:induction false} MakersMembers(t: Ticket, ex: Exchange, q: seq<Lot>)
    requires Priced(q)
    ensures Priced(Makers(t, ex, q)) && Priced(Skipped(t, ex, q))
    ensures forall m :: m in Makers(t, ex, q) <==> m in q && m.t.price.Some? && Eligible(t, ex, m)
    ensures forall m :: m in Skipped(t, ex, q) <==> m in q && m.t.price.Some? && !Eligible(t, ex, m)
    ensures forall i :: 0 <= i < |Makers(t, ex, q)| ==> Makers(t, ex, q)[i].Remaining() > 0
  {
    if q != [] {
      MakersMembers(t, ex, q[1..]);
      assert forall m :: m in q <==> m == q[0] || m in q[1..];
    }
  }

  lemma {:induction false} QuantityNonNegative(q: seq<Lot>)
    ensures Quantity(q) >= 0
  {
    if q != [] {
      QuantityNonNegative(q[1..]);
    }
  }

  /** A taker takes what there is, up to what it wants. */
  lemma {:induction false} WalkTotals(t: Ticket, ex: Exchange, q: seq<Lot>, want: int)
    requires Priced(q) && want >= 0
    ensures var w := Walk(t, ex, q, want); var there := Quantity(Makers(t, ex, q));
            FilledQty(w.fills) == Min(want, there) && w.left == want - Min(want, there)
  {
    QuantityNonNegative(Makers(t, ex, q));
    if q != [] {
      var m, es := q[0], Makers(t, ex, q[1..]);
      QuantityNonNegative(es);
      if Eligible(t, ex, m) {
        assert Makers(t, ex, q) == [m] + es;
        assert Quantity([m] + es) == m.Remaining() + Quantity(es);
        if want > 0 {
          var take := Min(want, m.Remaining());
          var r := Walk(t, ex, q[1..], want - take);
          WalkTotals(t, ex, q[1..], want - take);
          FilledQtyConcat([FillOf(ex, t, m, take)], r.fills);
        } else {
          WalkIdle(t, ex, q, want);
        }
      } else {
        WalkTotals(t, ex, q[1..], want);
        assert Makers(t, ex, q) == es;
      }
    }
  }

  /** If the taker is left wanting, it has emptied every maker it may trade with. */
  lemma {:induction false} WalkDry(t: Ticket, ex: Exchange, q: seq<Lot>, want: int)
    requires Priced(q) && Walk(t, ex, q, want).left > 0
    ensures var w := Walk(t, ex, q, want);
            w.rest == Skipped(t, ex, q) && w.hit == Makers(t, ex, q)
  {
    if q != [] {
      var m := q[0];
      if want <= 0 {
        WalkIdle(t, ex, q, want);
      } else if Eligible(t, ex, m) {
        if want <= m.Remaining() {
          WalkIdle(t, ex, q[1..], 0);
        }
        WalkDry(t, ex, q[1..], want - Min(want, m.Remaining()));
      } else {
        WalkDry(t, ex, q[1..], want);
      }
    }
  }

  /** The quantity waiting ahead of the k-th maker. */
  function Ahead(makers: seq<Lot>, k: nat): int
    requires k <= |makers|
  {
    Quantity(makers[..k])
  }

  /** What a taker wanting `want` gets from the k-th eligible maker: what the makers ahead leave it. */
  function Share(makers: seq<Lot>, k: nat, want: int): int
    requires k < |makers|
  {
    Max(0, Min(makers[k].Remaining(), want - Ahead(makers, k)))
  }

  /** The greedy allocation, fill by fill: the k-th fill is the k-th eligible maker's share at that
      maker's own price, and the fills stop exactly where the shares do. */
  ghost predicate IsGreedy(ex: Exchange, t: Ticket, makers: seq<Lot>, want: int, fills: seq<Fill>)
    requires Priced(makers)
  {
    && |fills| <= |makers|
    && (forall k :: 0 <= k < |fills| ==>
        Share(makers, k, want) > 0 && fills[k] == FillOf(ex, t, makers[k], Share(makers, k, want)))
    && (forall k :: |fills| <= k < |makers| ==> Share(makers, k, want) == 0)
  }

  /** So no maker is passed over: whoever stands ahead of one that trades has traded all it had. */
  lemma NonePassedOver(ex: Exchange, t: Ticket, makers: seq<Lot>, want: int, fills: seq<Fill>, j: nat, k: nat)
    requires Priced(makers) && IsGreedy(ex, t, makers, want, fills) && j < k < |fills|
    ensures fills[j].maker == makers[j].t.id && fills[j].qty == makers[j].Remaining()
  {
    AheadGrows(makers, j, k);
    assert Share(makers, k, want) > 0;
  }

  /** What stands ahead of a maker includes all of each maker before it. */
  lemma {:induction false} AheadGrows(makers: seq<Lot>, j: nat, k: nat)
    requires j < k <= |makers|
    ensures Ahead(makers, j) + makers[j].Remaining() <= Ahead(makers, k)
    decreases k
  {
    AheadOne(makers, k - 1);
    if j < k - 1 {
      AheadGrows(makers, j, k - 1);
    }
  }

  lemma AheadOne(makers: seq<Lot>, k: nat)
    requires k < |makers|
    ensures Ahead(makers, k + 1) == Ahead(makers, k) + makers[k].Remaining()
  {
    assert makers[..k + 1] == makers[..k] + [makers[k]];
    QuantityOne(makers[..k], makers[k]);
  }

  lemma {:induction false} QuantityOne(q: seq<Lot>, m: Lot)
    ensures Quantity(q + [m]) == Quantity(q) + m.Remaining()
  {
    if q == [] {
      assert [] + [m] == [m] && [m][1..] == [];
    } else {
      assert (q + [m])[1..] == q[1..] + [m];
      QuantityOne(q[1..], m);
    }
  }

  lemma {:induction false} AheadShift(m: Lot, makers: seq<Lot>, k: nat)
    requires k <= |makers|
    ensures Ahead([m] + makers, k + 1) == m.Remaining() + Ahead(makers, k)
  {
    var all := [m] + makers;
    assert all[..k + 1][1..] == makers[..k];
  }

  lemma {:induction false} WalkGreedy(t: Ticket, ex: Exchange, q: seq<Lot>, want: int)
    requires Priced(q) && want >= 0
    ensures Priced(Makers(t, ex, q))
    ensures IsGreedy(ex, t, Makers(t, ex, q), want, Walk(t, ex, q, want).fills)
  {
    hide Eligible, IsGreedy, FillOf, Lot.Remaining;
    MakersMembers(t, ex, q);
    NothingGreedy(ex, t, want);
    if q != [] {
      var m := q[0];
      WalkHead(t, ex, q, want);
      StillRemaining(t, ex, m);
      var take := if Eligible(t, ex, m) then Min(want, m.Remaining()) else 0;
      WalkGreedy(t, ex, q[1..], want - take);
      if Eligible(t, ex, m) {
        GreedyCons(ex, t, m, Makers(t, ex, q[1..]), want, Walk(t, ex, q[1..], want - take).fills);
      }
    }
  }

  lemma NothingGreedy(ex: Exchange, t: Ticket, want: int)
    ensures IsGreedy(ex, t, [], want, [])
  {
  }

  lemma StillRemaining(t: Ticket, ex: Exchange, m: Lot)
    requires m.t.price.Some?
    ensures Eligible(t, ex, m) ==> m.Remaining() > 0
  {
  }

  /** One step of the walk, as the fills see it. */
  lemma WalkHead(t: Ticket, ex: Exchange, q: seq<Lot>, want: int)
    requires Priced(q) && q != [] && want >= 0
    ensures var m := q[0]; var take := if Eligible(t, ex, m) then Min(want, m.Remaining()) else 0;
            && Makers(t, ex, q) == (if Eligible(t, ex, m) then [m] + Makers(t, ex, q[1..]) else Makers(t, ex, q[1..]))
            && Walk(t, ex, q, want).fills ==
               (if want > 0 && Eligible(t, ex, m) then [FillOf(ex, t, m, take)] + Walk(t, ex, q[1..], want - take).fills
                else Walk(t, ex, q[1..], want - take).fills)
            && (want == 0 ==> Walk(t, ex, q[1..], want - take).fills == [])
  {
    if want == 0 {
      WalkIdle(t, ex, q, 0);
      WalkIdle(t, ex, q[1..], 0);
    }
  }

  lemma GreedyCons(ex: Exchange, t: Ticket, m: Lot, es: seq<Lot>, want: int, fills: seq<Fill>)
    requires m.t.price.Some? && Priced([m] + es) && Priced(es) && want >= 0 && m.Remaining() > 0
    requires IsGreedy(ex, t, es, want - Min(want, m.Remaining()), fills)
    requires want == 0 ==> fills == []
    ensures IsGreedy(ex, t, [m] + es, want,
                     if want > 0 then [FillOf(ex, t, m, Min(want, m.Remaining()))] + fills else [])
  {
    var all, left := [m] + es, want - Min(want, m.Remaining());
    var now := if want > 0 then [FillOf(ex, t, m, Min(want, m.Remaining()))] + fills else [];
    assert Ahead(all, 0) == 0;
    forall k: nat | 0 < k < |all|
      ensures Share(all, k, want) == Share(es, k - 1, left)
    {
      AheadShift(m, es, k - 1);
      AheadNonNegative(es, k - 1);
    }
    forall k: nat | k < |now|
      ensures Share(all, k, want) > 0 && now[k] == FillOf(ex, t, all[k], Share(all, k, want))
    {
      if k > 0 {
        assert now[k] == fills[k - 1] && all[k] == es[k - 1];
      }
    }
    forall k: nat | |now| <= k < |all|
      ensures Share(all, k, want) == 0
    {
      if k > 0 && want > 0 {
        assert |fills| <= k - 1 < |es|;
      }
      if k > 0 {
        assert Share(es, k - 1, left) == 0;
      }
    }
  }

  lemma AheadNonNegative(makers: seq<Lot>, k: nat)
    requires k <= |makers|
    ensures Ahead(makers, k) >= 0
  {
    QuantityNonNegative(makers[..k]);
  }

  /** The allocation leaves no freedom: two fill lists that are both greedy are the same list. */
  lemma GreedyUnique(ex: Exchange, t: Ticket, makers: seq<Lot>, want: int, f: seq<Fill>, g: seq<Fill>)
    requires Priced(makers) && IsGreedy(ex, t, makers, want, f) && IsGreedy(ex, t, makers, want, g)
    ensures f == g
  {
    var n := Min(|f|, |g|);
    assert n < |makers| ==> (Share(makers, n, want) > 0 || Share(makers, n, want) == 0);
  }

  // ---------------------------------------------------------------- one flat queue

  function Queue(levels: Levels, prices: seq<int>): seq<Lot> {
    if prices == [] then [] else LevelAt(levels, prices[0]) + Queue(levels, prices[1..])
  }

  ghost predicate Distinct(prices: seq<int>) {
    forall i, j :: 0 <= i < j < |prices| ==> prices[i] != prices[j]
  }

  lemma {:induction false} QueuePriced(levels: Levels, prices: seq<int>)
    requires PricedLevels(levels)
    ensures Priced(Queue(levels, prices))
  {
    if prices != [] {
      QueuePriced(levels, prices[1..]);
    }
  }

  lemma {:induction false} QueueFrame(a: Levels, b: Levels, prices: seq<int>)
    requires forall p :: p in prices ==> LevelAt(a, p) == LevelAt(b, p)
    ensures Queue(a, prices) == Queue(b, prices)
  {
    if prices != [] {
      QueueFrame(a, b, prices[1..]);
    }
  }

  /** Sweeping level by level is one walk over the flat queue; other prices are untouched. */
  lemma {:induction false} SweepIsWalk(t: Ticket, ex: Exchange, levels: Levels, prices: seq<int>, want: int)
    requires PricedLevels(levels) && Distinct(prices)
    ensures Priced(Queue(levels, prices))
    ensures var s := SweepLevels(t, ex, levels, prices, want); var w := Walk(t, ex, Queue(levels, prices), want);
            s.fills == w.fills && s.hit == w.hit && s.left == w.left && Queue(s.levels, prices) == w.rest
    ensures forall p :: p !in prices ==>
              LevelAt(SweepLevels(t, ex, levels, prices, want).levels, p) == LevelAt(levels, p)
    decreases |prices|
  {
    QueuePriced(levels, prices);
    if prices != [] {
      var p, ps := prices[0], prices[1..];
      WalkPriced(t, ex, LevelAt(levels, p), want);
      var w := Walk(t, ex, LevelAt(levels, p), want);
      var next := SetLevel(levels, p, w.rest);
      SweepIsWalk(t, ex, next, ps, w.left);
      QueuePriced(levels, ps);
      assert p !in ps;
      QueueFrame(levels, next, ps);
      WalkConcat(t, ex, LevelAt(levels, p), Queue(levels, ps), want);
    }
  }
}
