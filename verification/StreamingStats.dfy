/** Streaming statistics and change detectors (exchange/quant/streaming.py). */
module StreamingStats {
  import opened Wrappers

  function Sum(xs: seq<real>): real
    decreases |xs|
  {
    if xs == [] then 0.0 else Sum(xs[..|xs| - 1]) + xs[|xs| - 1]
  }

  /** The sum of squared deviations from `c`. */
  function Spread(xs: seq<real>, c: real): real
    decreases |xs|
  {
    if xs == [] then 0.0 else Spread(xs[..|xs| - 1], c) + Squared(xs[|xs| - 1] - c)
  }

  function Squared(x: real): real { x * x }

  function Mean(xs: seq<real>): real { if xs == [] then 0.0 else Sum(xs) / |xs| as real }

  lemma SumOne(xs: seq<real>, x: real)
    ensures Sum(xs + [x]) == Sum(xs) + x
  {
    assert (xs + [x])[..|xs|] == xs;
  }

  lemma SpreadOne(xs: seq<real>, x: real, c: real)
    ensures Spread(xs + [x], c) == Spread(xs, c) + (x - c) * (x - c)
  {
    assert (xs + [x])[..|xs|] == xs;
  }

  // ---------------------------------------------------------------- Welford

  lemma Square(a: real, b: real)
    ensures (a + b) * (a + b) == a * a + 2.0 * (a * b) + b * b
  {
  }

  lemma ShiftOne(x: real, c: real, d: real)
    ensures (x - (c + d)) * (x - (c + d)) == (x - c) * (x - c) - 2.0 * d * (x - c) + d * d
  {
    Square(x - c, -d);
    assert (x - c) * (-d) == -(d * (x - c)) && (-d) * (-d) == d * d;
  }

  lemma Twice(d: real, a: real, b: real)
    ensures 2.0 * d * (a + b) == 2.0 * d * a + 2.0 * d * b
  {
  }

  lemma Times(a: real, b: real, c: real)
    ensures (a + b) * c == a * c + b * c
  {
  }

  /** A sum of squares about a centre, and the sum about the centre moved by `d`. */
  predicate Shifted(n: real, c: real, d: real, spread: real, shifted: real, sum: real) {
    shifted == spread - 2.0 * d * (sum - n * c) + n * (d * d)
  }

  lemma ShiftStep(n: real, c: real, d: real, x: real, spread: real, shifted: real, sum: real, more: real)
    requires Shifted(n, c, d, spread, shifted, sum) && more == n + 1.0
    ensures Shifted(more, c, d, spread + Squared(x - c), shifted + Squared(x - (c + d)), sum + x)
  {
    ShiftOne(x, c, d);
    Times(n, 1.0, c);
    Times(n, 1.0, d * d);
    Twice(d, sum - n * c, x - c);
    assert sum + x - (n + 1.0) * c == (sum - n * c) + (x - c);
  }

  /** Deviations about a shifted centre. */
  lemma {:induction false} SpreadShift(xs: seq<real>, c: real, d: real)
    ensures Shifted(|xs| as real, c, d, Spread(xs, c), Spread(xs, c + d), Sum(xs))
    decreases |xs|
  {
    hide Shifted, Squared;
    if xs == [] {
      ShiftNone(c, d);
    } else {
      var init, x := xs[..|xs| - 1], xs[|xs| - 1];
      SpreadShift(init, c, d);
      ShiftStep(|init| as real, c, d, x, Spread(init, c), Spread(init, c + d), Sum(init), |xs| as real);
    }
  }

  lemma ShiftNone(c: real, d: real)
    ensures Shifted(0.0, c, d, 0.0, 0.0, 0.0)
  {
  }

  /** The running mean after one more value is the mean of them all. */
  lemma MeanMoves(xs: seq<real>, mean: real, x: real)
    requires |xs| as real * mean == Sum(xs)
    ensures var n := |xs| + 1; n as real * (mean + (x - mean) / n as real) == Sum(xs + [x])
  {
    SumOne(xs, x);
    hide Sum;
    var k := |xs| as real;
    assert (|xs| + 1) as real == k + 1.0;
    MeanStep(k, mean, x, Sum(xs));
  }

  lemma MeanStep(k: real, mean: real, x: real, sum: real)
    requires k >= 0.0 && k * mean == sum
    ensures (k + 1.0) * (mean + (x - mean) / (k + 1.0)) == sum + x
  {
    var n := k + 1.0;
    var d := (x - mean) / n;
    Divide(x - mean, n);
    Times(k, 1.0, mean);
    Times(mean, d, n);
  }

  lemma Divide(a: real, n: real)
    requires n != 0.0
    ensures n * (a / n) == a
  {
  }

  /** Welford's update: with the old mean centred on the old values, adding (x - old)(x - new) keeps the
      sum of squared deviations, now about the new mean. */
  lemma SpreadMoves(xs: seq<real>, mean: real, x: real)
    requires |xs| as real * mean == Sum(xs)
    ensures var next := mean + (x - mean) / (|xs| + 1) as real;
            Spread(xs + [x], next) == Spread(xs, mean) + (x - mean) * (x - next)
  {
    hide Sum, Spread;
    var k := |xs| as real;
    assert (|xs| + 1) as real == k + 1.0;
    Divide(x - mean, k + 1.0);
    SpreadMovesBy(xs, mean, x, (x - mean) / (k + 1.0));
  }

  lemma SpreadMovesBy(xs: seq<real>, mean: real, x: real, d: real)
    requires |xs| as real * mean == Sum(xs) && (|xs| as real + 1.0) * d == x - mean
    ensures Spread(xs + [x], mean + d) == Spread(xs, mean) + (x - mean) * (x - (mean + d))
  {
    hide Spread, Sum;
    var k, a := |xs| as real, x - mean;
    SpreadShift(xs, mean, d);
    Centred(d, Sum(xs) - k * mean);
    SpreadOne(xs, x, mean + d);
    Steps(k, d, a);
    assert x - (mean + d) == a - d;
  }

  lemma Centred(d: real, off: real)
    requires off == 0.0
    ensures 2.0 * d * off == 0.0
  {
  }

  lemma Steps(k: real, d: real, a: real)
    requires (k + 1.0) * d == a
    ensures k * (d * d) + (a - d) * (a - d) == a * (a - d)
  {
    assert a - d == k * d;
    var e := k * d;
    assert a == e + d;
    Times(e, d, e);
    Regroup(k, d, d);
    assert (a - d) * (a - d) == e * e && a * (a - d) == e * e + d * e;
  }

  lemma Regroup(a: real, b: real, c: real)
    ensures a * (b * c) == c * (a * b)
  {
  }

  class OnlineStats {
    /** What the caller asked for bounds the deque; the reported window is at least one. */
    const capacity: nat
    const window: nat
    var n: nat
    var mean: real
    var m2: real
    var recent: seq<real>
    ghost var seen: seq<real>

    constructor (window: nat)
      ensures capacity == window && this.window == Max(1, window) && Valid() && seen == []
    {
      capacity, this.window := window, Max(1, window);
      n, mean, m2, recent, seen := 0, 0.0, 0.0, [], [];
    }

    /** The running state is what two passes over everything seen would give. */
    ghost predicate Valid()
      reads this
    {
      && window == Max(1, capacity)
      && n == |seen| && n as real * mean == Sum(seen) && (n == 0 ==> mean == 0.0)
      && m2 == Spread(seen, mean)
      && recent == LastOf(seen, capacity)
    }

    method Update(x: real)
      requires Valid()
      modifies this
      ensures Valid() && seen == old(seen) + [x]
    {
      hide Sum, Spread, LastOf;
      MeanMoves(seen, mean, x);
      SpreadMoves(seen, mean, x);
      LastOfMore(seen, x, capacity);
      n := n + 1;
      var delta := x - mean;
      mean := mean + delta / n as real;
      var delta2 := x - mean;
      m2 := m2 + delta * delta2;
      recent := recent + [x];
      if |recent| > capacity {
        recent := recent[|recent| - capacity..];
      }
      seen := seen + [x];
    }

    function Var(): real
      reads this
    {
      if n > 1 then m2 / (n - 1) as real else 0.0
    }

    /** The sample variance of everything seen, about its mean. */
    lemma VarIsSample()
      requires Valid()
      ensures mean == Mean(seen)
      ensures Var() == if |seen| > 1 then Spread(seen, Mean(seen)) / (|seen| - 1) as real else 0.0
    {
      if seen != [] {
        MeanIs(seen, mean);
      }
    }

    function WindowMean(): real
      reads this
    {
      if recent == [] then 0.0 else Sum(recent) / |recent| as real
    }

    /** The square of the window's standard deviation. */
    function WindowVar(): real
      reads this
    {
      if |recent| < 2 then 0.0 else Spread(recent, Sum(recent) / |recent| as real) / (|recent| - 1) as real
    }

    /** The window holds exactly the last `window` values, and its figures are theirs, exactly when it was
        not asked for with size zero or nothing has been seen. */
    lemma WindowIsLast()
      requires Valid()
      ensures recent == LastOf(seen, window) <==> capacity > 0 || seen == []
      ensures capacity > 0 ==> WindowMean() == Mean(LastOf(seen, window))
      ensures capacity > 0 && |LastOf(seen, window)| > 1 ==>
                WindowVar() == Spread(LastOf(seen, window), Mean(LastOf(seen, window)))
                               / (|LastOf(seen, window)| - 1) as real
    {
      if capacity == 0 {
        assert recent == [] && (seen != [] ==> |LastOf(seen, window)| == 1);
      }
    }
  }

  lemma MeanIs(xs: seq<real>, mean: real)
    requires xs != [] && |xs| as real * mean == Sum(xs)
    ensures mean == Mean(xs)
  {
    Divide(Sum(xs), |xs| as real);
    var n, d := |xs| as real, mean - Mean(xs);
    assert n * mean == n * Mean(xs);
    assert n * d == 0.0;
  }

  // ---------------------------------------------------------------- recursions that reset at zero

  /** A running sum that is pulled up to zero whenever it falls below. */
  function Excess(ys: seq<real>): real
    decreases |ys|
  {
    if ys == [] then 0.0 else MaxR(0.0, Excess(ys[..|ys| - 1]) + ys[|ys| - 1])
  }

  lemma ExcessOne(ys: seq<real>, y: real)
    ensures Excess(ys + [y]) == MaxR(0.0, Excess(ys) + y)
  {
    assert (ys + [y])[..|ys|] == ys;
  }

  lemma SuffixOne(ys: seq<real>, i: nat)
    requires ys != [] && i < |ys|
    ensures Sum(ys[i..]) == Sum(ys[..|ys| - 1][i..]) + ys[|ys| - 1]
  {
    assert ys[i..] == ys[..|ys| - 1][i..] + [ys[|ys| - 1]];
    SumOne(ys[..|ys| - 1][i..], ys[|ys| - 1]);
  }

  /** No run up to now sums to more. */
  lemma {:induction false} ExcessBounds(ys: seq<real>, i: nat)
    requires i <= |ys|
    ensures Sum(ys[i..]) <= Excess(ys)
    decreases |ys|
  {
    if i < |ys| {
      ExcessBounds(ys[..|ys| - 1], i);
      SuffixOne(ys, i);
    }
  }

  /** And some run, perhaps the empty one, sums to exactly that. */
  lemma {:induction false} ExcessAttained(ys: seq<real>) returns (i: nat)
    ensures i <= |ys| && Sum(ys[i..]) == Excess(ys)
    decreases |ys|
  {
    if ys == [] || Excess(ys[..|ys| - 1]) + ys[|ys| - 1] < 0.0 {
      i := |ys|;
      assert ys[i..] == [];
    } else {
      i := ExcessAttained(ys[..|ys| - 1]);
      SuffixOne(ys, i);
    }
  }

  /** So it crosses a threshold exactly when the sum over some recent run does. */
  lemma CrossesIff(ys: seq<real>, h: real)
    ensures Excess(ys) > h <==> exists i :: 0 <= i <= |ys| && Sum(ys[i..]) > h
  {
    var i := ExcessAttained(ys);
    if j :| 0 <= j <= |ys| && Sum(ys[j..]) > h {
      ExcessBounds(ys, j);
    }
  }

  // ---------------------------------------------------------------- CUSUM

  const WARM_UP := 20

  /** What each value adds to the upper sum, and, as written, to the lower one: its slack has the sign of
      the upper sum's, so it adds where it should take away. */
  function Up(xs: seq<real>, target: real, k: real): (ys: seq<real>)
    ensures |ys| == |xs| && forall i :: 0 <= i < |xs| ==> ys[i] == xs[i] - target - k
  {
    seq(|xs|, i requires 0 <= i < |xs| => xs[i] - target - k)
  }

  function Down(xs: seq<real>, target: real, k: real): (ys: seq<real>)
    ensures |ys| == |xs| && forall i :: 0 <= i < |xs| ==> ys[i] == -(xs[i] - target - k)
  {
    seq(|xs|, i requires 0 <= i < |xs| => -(xs[i] - target - k))
  }

  lemma MapsOne(xs: seq<real>, x: real, target: real, k: real)
    ensures Up(xs + [x], target, k) == Up(xs, target, k) + [x - target - k]
    ensures Down(xs + [x], target, k) == Down(xs, target, k) + [-(x - target - k)]
  {
  }

  /** What `n` values on the way to an alarm are measured against: each the target and the slack. */
  function Allowed(n: nat, target: real, k: real): real { n as real * (target + k) }

  lemma AllowedOne(n: nat, target: real, k: real)
    ensures Allowed(n + 1, target, k) == Allowed(n, target, k) + target + k
  {
    Times(n as real, 1.0, target + k);
  }

  lemma {:induction false} UpSums(xs: seq<real>, target: real, k: real)
    ensures Sum(Up(xs, target, k)) == Sum(xs) - Allowed(|xs|, target, k)
    ensures Sum(Down(xs, target, k)) == Allowed(|xs|, target, k) - Sum(xs)
    decreases |xs|
  {
    if xs != [] {
      hide Allowed, Up, Down;
      var init, x := xs[..|xs| - 1], xs[|xs| - 1];
      assert init + [x] == xs;
      UpSums(init, target, k);
      MapsOne(init, x, target, k);
      SumOne(Up(init, target, k), x - target - k);
      SumOne(Down(init, target, k), -(x - target - k));
      AllowedOne(|init|, target, k);
    }
  }

  lemma UpFrom(xs: seq<real>, target: real, k: real, i: nat)
    requires i <= |xs|
    ensures Sum(Up(xs, target, k)[i..]) == Sum(xs[i..]) - Allowed(|xs| - i, target, k)
    ensures Sum(Down(xs, target, k)[i..]) == Allowed(|xs| - i, target, k) - Sum(xs[i..])
  {
    UpSums(xs[i..], target, k);
    assert Up(xs, target, k)[i..] == Up(xs[i..], target, k);
    assert Down(xs, target, k)[i..] == Down(xs[i..], target, k);
  }

  /** Over some recent run the values add up to more than they may, or to less, by more than `h`. */
  ghost predicate Strays(xs: seq<real>, target: real, k: real, h: real) {
    exists i :: 0 <= i <= |xs| && AbsR(Sum(xs[i..]) - Allowed(|xs| - i, target, k)) > h
  }

  class CusumDetector {
    const h: real
    const k: real
    var target: Option<real>
    var sPos: real
    var sNeg: real
    var warm: seq<real>
    /** The values since the target was fixed. */
    ghost var tested: seq<real>

    constructor (target: Option<real>, h: real, k: real)
      ensures this.h == h && this.k == k && this.target == target && Valid() && warm == [] && tested == []
    {
      this.h, this.k, this.target := h, k, target;
      sPos, sNeg, warm, tested := 0.0, 0.0, [], [];
    }

    ghost predicate Valid()
      reads this
    {
      && (target.None? ==> |warm| < WARM_UP && tested == [])
      && (target.Some? && warm != [] ==> |warm| == WARM_UP && target.value == Mean(warm))
      && (target.Some? ==> sPos == Excess(Up(tested, target.value, k)) && sNeg == Excess(Down(tested, target.value, k)))
      && (target.None? ==> sPos == 0.0 && sNeg == 0.0)
    }

    /** The first values only fix the target, as their mean; after that both sums run. */
    method Update(x: real) returns (stat: real)
      requires Valid()
      modifies this
      ensures Valid()
      ensures old(target).None? ==> stat == 0.0 && warm == old(warm) + [x] && tested == []
                                    && (target.Some? <==> |warm| == 20)
                                    && (target.Some? ==> target.value == Mean(warm))
      ensures old(target).Some? ==> target == old(target) && warm == old(warm) && tested == old(tested) + [x]
                                    && stat == MaxR(Excess(Up(tested, target.value, k)),
                                                    Excess(Down(tested, target.value, k)))
      ensures Triggered(stat) <==> if old(target).None? then h < 0.0 else Strays(tested, target.value, k, h)
    {
      hide Excess, Up, Down;
      if target.None? {
        warm := warm + [x];
        if |warm| >= WARM_UP {
          target := Some(Sum(warm) / |warm| as real);
          StartsAtZero(target.value, k);
        }
        return 0.0;
      }
      MapsOne(tested, x, target.value, k);
      ExcessOne(Up(tested, target.value, k), x - target.value - k);
      ExcessOne(Down(tested, target.value, k), -(x - target.value - k));
      sPos := MaxR(0.0, sPos + (x - target.value - k));
      sNeg := MaxR(0.0, sNeg - (x - target.value - k));
      tested := tested + [x];
      stat := MaxR(sPos, sNeg);
      CusumAlarmIff(tested, target.value, k, h);
    }

    predicate Triggered(stat: real) { stat > h }
  }

  lemma StartsAtZero(target: real, k: real)
    ensures Excess(Up([], target, k)) == 0.0 && Excess(Down([], target, k)) == 0.0
  {
  }

  /** The alarm of a detector whose target is fixed: some recent run has left the target far enough. */
  lemma CusumAlarmIff(tested: seq<real>, target: real, k: real, h: real)
    ensures MaxR(Excess(Up(tested, target, k)), Excess(Down(tested, target, k))) > h <==> Strays(tested, target, k, h)
  {
    hide Excess, Sum, Allowed, Up, Down;
    var ups, downs := Up(tested, target, k), Down(tested, target, k);
    CrossesIff(ups, h);
    CrossesIff(downs, h);
    forall i | 0 <= i <= |tested|
      ensures AbsR(Sum(tested[i..]) - Allowed(|tested| - i, target, k)) > h
              <==> Sum(ups[i..]) > h || Sum(downs[i..]) > h
    {
      UpFrom(tested, target, k, i);
      FarApart(Sum(ups[i..]), Sum(downs[i..]), h);
    }
  }

  lemma FarApart(up: real, down: real, h: real)
    requires up == -down
    ensures AbsR(up) > h <==> up > h || down > h
  {
  }

  /** A stream that never leaves the target raises the alarm exactly when its length times the slack
      exceeds the threshold: the lower sum counts the slack instead of discounting it. */
  lemma OnTargetAlarmIff(m: nat, target: real, k: real, h: real)
    requires k >= 0.0 && h >= 0.0
    ensures var xs := Flat(m, target); var ups, downs := Excess(Up(xs, target, k)), Excess(Down(xs, target, k));
            ups == 0.0 && downs == m as real * k && (MaxR(ups, downs) > h <==> m as real * k > h)
            && (Strays(xs, target, k, h) <==> m as real * k > h)
  {
    CusumAlarmIff(Flat(m, target), target, k, h);
    OnTarget(m, target, k);
    AtLeastNothing(m, k);
  }

  lemma AtLeastNothing(m: nat, k: real)
    requires k >= 0.0
    ensures m as real * k >= 0.0
  {
  }

  function Flat(m: nat, x: real): (xs: seq<real>)
    ensures |xs| == m && forall i :: 0 <= i < m ==> xs[i] == x
  {
    seq(m, i => x)
  }

  lemma FlatOne(m: nat, x: real)
    ensures Flat(m + 1, x) == Flat(m, x) + [x]
  {
  }

  /** After `m` values on target the sums stand at nothing and at `sum`. */
  predicate Drifted(m: nat, target: real, k: real, sum: real) {
    Excess(Up(Flat(m, target), target, k)) == 0.0 && Excess(Down(Flat(m, target), target, k)) == sum
  }

  lemma {:induction false} OnTarget(m: nat, target: real, k: real)
    requires k >= 0.0
    ensures Drifted(m, target, k, m as real * k)
  {
    if m == 0 {
      assert Flat(m, target) == [];
      StartsAtZero(target, k);
      assert m as real * k == 0.0;
    } else {
      hide Drifted;
      OnTarget(m - 1, target, k);
      AtLeastNothing(m - 1, k);
      OneMore(m, k);
      DriftsOn(m - 1, target, k, (m - 1) as real * k, m as real * k);
    }
  }

  lemma DriftsOn(m: nat, target: real, k: real, sum: real, next: real)
    requires k >= 0.0 && sum >= 0.0 && Drifted(m, target, k, sum) && next == sum + k
    ensures Drifted(m + 1, target, k, next)
  {
    hide Up, Down, Flat;
    FlatOne(m, target);
    MapsOne(Flat(m, target), target, target, k);
    ExcessOne(Up(Flat(m, target), target, k), target - target - k);
    ExcessOne(Down(Flat(m, target), target, k), -(target - target - k));
  }

  lemma OneMore(m: nat, k: real)
    requires m > 0
    ensures m as real * k == (m - 1) as real * k + k
  {
    assert m as real == (m - 1) as real + 1.0;
    Times((m - 1) as real, 1.0, k);
  }

  // ---------------------------------------------------------------- Page-Hinkley

  /** Each value against the mean of the values up to it, less the allowance. */
  function Rises(xs: seq<real>, alpha: real): (ys: seq<real>)
    ensures |ys| == |xs| && forall i :: 0 <= i < |xs| ==> ys[i] == xs[i] - Mean(xs[..i + 1]) - alpha
  {
    seq(|xs|, i requires 0 <= i < |xs| => xs[i] - Mean(xs[..i + 1]) - alpha)
  }

  function Falls(xs: seq<real>, alpha: real): (ys: seq<real>)
    ensures |ys| == |xs| && forall i :: 0 <= i < |xs| ==> ys[i] == Mean(xs[..i + 1]) - xs[i] - alpha
  {
    seq(|xs|, i requires 0 <= i < |xs| => Mean(xs[..i + 1]) - xs[i] - alpha)
  }

  lemma RisesOne(xs: seq<real>, x: real, alpha: real)
    ensures Rises(xs + [x], alpha) == Rises(xs, alpha) + [x - Mean(xs + [x]) - alpha]
    ensures Falls(xs + [x], alpha) == Falls(xs, alpha) + [Mean(xs + [x]) - x - alpha]
  {
    hide Mean;
    var more := xs + [x];
    assert more[..|xs| + 1] == more;
    forall i | 0 <= i < |xs|
      ensures Rises(more, alpha)[i] == Rises(xs, alpha)[i] && Falls(more, alpha)[i] == Falls(xs, alpha)[i]
    {
      assert more[..i + 1] == xs[..i + 1];
    }
  }

  /** Over some recent run the values have risen above their running mean, or fallen below it, by more in all than the
      threshold. */
  ghost predicate LeavesMean(xs: seq<real>, alpha: real, threshold: real) {
    exists i :: 0 <= i <= |xs| && (Sum(Rises(xs, alpha)[i..]) > threshold || Sum(Falls(xs, alpha)[i..]) > threshold)
  }

  class PageHinkleyDetector {
    const alpha: real
    const threshold: real
    var t: nat
    var mt: real
    var pos: real
    var neg: real
    ghost var seen: seq<real>

    constructor (alpha: real, threshold: real)
      ensures this.alpha == alpha && this.threshold == threshold && Valid() && seen == []
    {
      this.alpha, this.threshold := alpha, threshold;
      t, mt, pos, neg, seen := 0, 0.0, 0.0, 0.0, [];
    }

    ghost predicate Valid()
      reads this
    {
      && t == |seen| && t as real * mt == Sum(seen)
      && pos == Excess(Rises(seen, alpha)) && neg == Excess(Falls(seen, alpha))
    }

    method Update(x: real) returns (stat: real)
      requires Valid()
      modifies this
      ensures Valid() && seen == old(seen) + [x]
      ensures stat == MaxR(Excess(Rises(seen, alpha)), Excess(Falls(seen, alpha)))
      ensures Triggered(stat) <==> LeavesMean(seen, alpha, threshold)
    {
      hide Excess, Rises, Falls, Sum, Mean;
      MeanMoves(seen, mt, x);
      RisesOne(seen, x, alpha);
      t := t + 1;
      mt := mt + (x - mt) / t as real;
      MeanIs(seen + [x], mt);
      ExcessOne(Rises(seen, alpha), (x - mt) - alpha);
      ExcessOne(Falls(seen, alpha), (mt - x) - alpha);
      pos := MaxR(0.0, pos + (x - mt) - alpha);
      neg := MaxR(0.0, neg + (mt - x) - alpha);
      seen := seen + [x];
      stat := MaxR(pos, neg);
      PageHinkleyAlarmIff(seen, alpha, threshold);
    }

    predicate Triggered(stat: real) { stat > threshold }
  }

  /** The alarm: over some recent run, values have kept above, or kept below, their running mean. */
  lemma PageHinkleyAlarmIff(seen: seq<real>, alpha: real, threshold: real)
    ensures MaxR(Excess(Rises(seen, alpha)), Excess(Falls(seen, alpha))) > threshold
            <==> LeavesMean(seen, alpha, threshold)
  {
    hide Excess, Rises, Falls, Sum;
    CrossesIff(Rises(seen, alpha), threshold);
    CrossesIff(Falls(seen, alpha), threshold);
  }
}
