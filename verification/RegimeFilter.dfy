/** The two-state regime detector (exchange/quant/regime.py): its filtered beliefs are the normalised
    weights of all hidden paths. */
module RegimeFilter {
  import opened Wrappers

  datatype State = CALM | TURBULENT

  /** The model a detector is built with: emission densities, transition and start probabilities, and the
      floor under which a predicted probability is not let fall before its logarithm is taken. */
  datatype Model = Model(calmDensity: real -> real, turbulentDensity: real -> real, calmToCalm: real,
                         turbulentToTurbulent: real, startCalm: real, floor: real)
  {
    function Density(s: State, x: real): real { if s.CALM? then calmDensity(x) else turbulentDensity(x) }

    function Start(s: State): real { if s.CALM? then startCalm else 1.0 - startCalm }

    function Transition(from: State, to: State): real {
      if from.CALM? then (if to.CALM? then calmToCalm else 1.0 - calmToCalm)
      else (if to.TURBULENT? then turbulentToTurbulent else 1.0 - turbulentToTurbulent)
    }

    /** Densities are positive, probabilities are probabilities. */
    ghost predicate Valid() {
      && (forall x: real :: calmDensity(x) > 0.0) && (forall x: real :: turbulentDensity(x) > 0.0)
      && 0.0 <= startCalm <= 1.0 && 0.0 <= calmToCalm <= 1.0 && 0.0 <= turbulentToTurbulent <= 1.0 && floor > 0.0
    }

    /** No transition is rarer than the floor. */
    predicate AboveFloor() {
      floor <= calmToCalm <= 1.0 - floor && floor <= turbulentToTurbulent <= 1.0 - floor
    }
  }

  datatype Belief = Belief(calm: real, turbulent: real)

  // ---------------------------------------------------------------- the forward step

  function Predict(m: Model, b: Belief, s: State): real {
    b.calm * m.Transition(CALM, s) + b.turbulent * m.Transition(TURBULENT, s)
  }

  function Numer(m: Model, b: Belief, s: State, x: real): real { MaxR(m.floor, Predict(m, b, s)) * m.Density(s, x) }

  function Forward(m: Model, b: Belief, x: real): Belief
    requires Numer(m, b, CALM, x) + Numer(m, b, TURBULENT, x) > 0.0
  {
    var c, t := Numer(m, b, CALM, x), Numer(m, b, TURBULENT, x);
    Belief(c / (c + t), t / (c + t))
  }

  lemma NumerPositive(m: Model, b: Belief, x: real)
    requires m.Valid()
    ensures Numer(m, b, CALM, x) > 0.0 && Numer(m, b, TURBULENT, x) > 0.0
  {
    assert m.calmDensity(x) > 0.0 && m.turbulentDensity(x) > 0.0;
    assert MaxR(m.floor, Predict(m, b, CALM)) > 0.0 && MaxR(m.floor, Predict(m, b, TURBULENT)) > 0.0;
    Positive(MaxR(m.floor, Predict(m, b, CALM)), m.calmDensity(x));
    Positive(MaxR(m.floor, Predict(m, b, TURBULENT)), m.turbulentDensity(x));
  }

  lemma Positive(a: real, b: real)
    requires a > 0.0 && b > 0.0
    ensures a * b > 0.0
  {
  }

  ghost function Filtered(m: Model, obs: seq<real>): (b: Belief)
    requires m.Valid()
    decreases |obs|
  {
    if obs == [] then Belief(m.startCalm, 1.0 - m.startCalm)
    else
      var b := Filtered(m, obs[..|obs| - 1]);
      NumerPositive(m, b, obs[|obs| - 1]);
      Forward(m, b, obs[|obs| - 1])
  }

  /** Beliefs are probabilities. */
  lemma {:induction false} FilteredIsBelief(m: Model, obs: seq<real>)
    requires m.Valid()
    ensures var b := Filtered(m, obs); b.calm + b.turbulent == 1.0 && 0.0 <= b.calm <= 1.0 && 0.0 <= b.turbulent <= 1.0
    ensures obs != [] ==> Filtered(m, obs).calm > 0.0 && Filtered(m, obs).turbulent > 0.0
  {
    if obs != [] {
      var b, x := Filtered(m, obs[..|obs| - 1]), obs[|obs| - 1];
      NumerPositive(m, b, x);
      Shares(Numer(m, b, CALM, x), Numer(m, b, TURBULENT, x));
    }
  }

  lemma Quotient(x: real, z: real)
    requires z != 0.0
    ensures x / z * z == x
  {
  }

  lemma Distribute(a: real, b: real, z: real)
    ensures (a + b) * z == a * z + b * z
  {
  }

  lemma Cancel(a: real, b: real, z: real)
    requires z != 0.0 && a * z == b * z
    ensures a == b
  {
    assert (a - b) * z == 0.0;
  }

  lemma PositiveQuotient(x: real, z: real)
    requires x > 0.0 && z > 0.0
    ensures x / z > 0.0
  {
  }

  lemma Shares(c: real, t: real)
    requires c > 0.0 && t > 0.0
    ensures 0.0 < c / (c + t) < 1.0 && 0.0 < t / (c + t) < 1.0 && c / (c + t) + t / (c + t) == 1.0
  {
    var z := c + t;
    Quotient(c, z);
    Quotient(t, z);
    Distribute(c / z, t / z, z);
    Cancel(c / z + t / z, 1.0, z);
    PositiveQuotient(c, z);
    PositiveQuotient(t, z);
  }

  /** The weight that `c` and `t`, standing in the two states, carry into `s` on observing `x`. */
  function Carry(m: Model, c: real, t: real, s: State, x: real): real {
    (c * m.Transition(CALM, s) + t * m.Transition(TURBULENT, s)) * m.Density(s, x)
  }

  function Hop(m: Model, w: real, from: State, s: State, x: real): real { w * m.Transition(from, s) * m.Density(s, x) }

  lemma CarryAdds(m: Model, w: real, from: State, c: real, t: real, s: State, x: real)
    ensures Carry(m, if from.CALM? then w + c else c, if from.CALM? then t else w + t, s, x)
            == Hop(m, w, from, s, x) + Carry(m, c, t, s, x)
  {
    var p, q, d := m.Transition(CALM, s), m.Transition(TURBULENT, s), m.Density(s, x);
    var all := c * p + t * q;
    if from.CALM? {
      Distribute(w, c, p);
      Distribute(w * p, all, d);
    } else {
      Distribute(w, t, q);
      Distribute(w * q, all, d);
    }
  }

  lemma CarryNothing(m: Model, s: State, x: real)
    ensures Carry(m, 0.0, 0.0, s, x) == 0.0
  {
  }

  lemma CarryScales(m: Model, a: real, b: real, z: real, c: real, t: real, s: State, x: real)
    requires a * z == c && b * z == t
    ensures Carry(m, a, b, s, x) * z == Carry(m, c, t, s, x)
  {
    var p, q, d := m.Transition(CALM, s), m.Transition(TURBULENT, s), m.Density(s, x);
    Shuffle(a, p, z);
    Shuffle(b, q, z);
    Distribute(a * p, b * q, z);
    Shuffle(a * p + b * q, d, z);
  }

  lemma Shuffle(a: real, b: real, c: real)
    ensures a * b * c == a * c * b
  {
  }

  // ---------------------------------------------------------------- all hidden paths

  /** A path names the state before the first observation and after each one. */
  function Weight(m: Model, path: seq<State>, obs: seq<real>): real
    requires |path| == |obs| + 1
    decreases |obs|
  {
    var n := |obs|;
    if n == 0 then m.Start(path[0])
    else Weight(m, path[..n], obs[..n - 1]) * m.Transition(path[n - 1], path[n]) * m.Density(path[n], obs[n - 1])
  }

  function Extend(paths: seq<seq<State>>): seq<seq<State>> {
    if paths == [] then [] else [paths[0] + [CALM], paths[0] + [TURBULENT]] + Extend(paths[1..])
  }

  function AllPaths(n: nat): (paths: seq<seq<State>>)
  {
    if n == 0 then [[CALM], [TURBULENT]] else Extend(AllPaths(n - 1))
  }

  lemma {:induction false} ExtendCounts(paths: seq<seq<State>>, p: seq<State>)
    ensures multiset(Extend(paths))[p] == if p == [] then 0 else multiset(paths)[p[..|p| - 1]]
  {
    if paths != [] {
      var q := paths[0];
      ExtendCounts(paths[1..], p);
      assert paths == [q] + paths[1..];
      assert multiset(Extend(paths)) == multiset{q + [CALM], q + [TURBULENT]} + multiset(Extend(paths[1..]));
      if p != [] {
        LastSplits(p, q);
      }
    }
  }

  lemma LastSplits(p: seq<State>, q: seq<State>)
    requires p != []
    ensures multiset{q + [CALM], q + [TURBULENT]}[p] == if p[..|p| - 1] == q then 1 else 0
  {
    var c, t := q + [CALM], q + [TURBULENT];
    assert c[|q|] != t[|q|] && c[..|q|] == q && t[..|q|] == q;
    if p[..|p| - 1] == q {
      assert p == q + [p[|p| - 1]];
      if p[|p| - 1] == CALM {
        assert p == c;
      } else {
        assert p == t;
      }
    } else {
      assert p != c && p != t;
    }
  }

  lemma FirstPaths(p: seq<State>)
    ensures multiset([[CALM], [TURBULENT]])[p] == if |p| == 1 then 1 else 0
  {
    if p != [] {
      LastSplits(p, []);
      assert [] + [CALM] == [CALM] && [] + [TURBULENT] == [TURBULENT];
    }
  }

  lemma ExtendOnce(paths: seq<seq<State>>, n: nat, p: seq<State>)
    requires p != [] ==> multiset(paths)[p[..|p| - 1]] == if |p| - 1 == n + 1 then 1 else 0
    ensures multiset(Extend(paths))[p] == if |p| == n + 2 then 1 else 0
  {
    ExtendCounts(paths, p);
  }

  /** Every path of the right length is listed, once; no other is. */
  lemma {:induction false} AllPathsOnce(n: nat, p: seq<State>)
    ensures multiset(AllPaths(n))[p] == if |p| == n + 1 then 1 else 0
  {
    if n == 0 {
      FirstPaths(p);
    } else {
      if p != [] {
        AllPathsOnce(n - 1, p[..|p| - 1]);
      }
      ExtendOnce(AllPaths(n - 1), n - 1, p);
    }
  }

  ghost predicate OfLength(paths: seq<seq<State>>, n: nat) { forall p :: p in paths ==> |p| == n }

  lemma AllPathsLength(n: nat)
    ensures OfLength(AllPaths(n), n + 1)
  {
    forall p | p in AllPaths(n)
      ensures |p| == n + 1
    {
      AllPathsOnce(n, p);
      assert p in multiset(AllPaths(n));
    }
  }

  /** The weight of the listed paths that end in `s`. */
  ghost function EndWeight(m: Model, paths: seq<seq<State>>, obs: seq<real>, s: State): real
    requires OfLength(paths, |obs| + 1)
  {
    if paths == [] then 0.0
    else
      assert paths[0] in paths && forall p :: p in paths[1..] ==> p in paths;
      (if paths[0][|obs|] == s then Weight(m, paths[0], obs) else 0.0) + EndWeight(m, paths[1..], obs, s)
  }

  lemma ExtendLength(paths: seq<seq<State>>, n: nat)
    requires OfLength(paths, n)
    ensures OfLength(Extend(paths), n + 1)
  {
    if paths != [] {
      assert paths[0] in paths && forall p :: p in paths[1..] ==> p in paths;
      ExtendLength(paths[1..], n);
    }
  }

  lemma WeightStep(m: Model, p: seq<State>, obs: seq<real>, s: State)
    requires obs != [] && |p| == |obs|
    ensures Weight(m, p + [s], obs) == Hop(m, Weight(m, p, obs[..|obs| - 1]), p[|obs| - 1], s, obs[|obs| - 1])
  {
    assert (p + [s])[..|obs|] == p;
  }

  lemma EndWeightCons(m: Model, p: seq<State>, paths: seq<seq<State>>, obs: seq<real>, s: State)
    requires |p| == |obs| + 1 && OfLength(paths, |obs| + 1)
    ensures OfLength([p] + paths, |obs| + 1)
    ensures EndWeight(m, [p] + paths, obs, s)
            == (if p[|obs|] == s then Weight(m, p, obs) else 0.0) + EndWeight(m, paths, obs, s)
  {
    assert ([p] + paths)[1..] == paths;
  }

  /** One more observation: each path goes on to both states. */
  lemma {:induction false} ExtendWeight(m: Model, paths: seq<seq<State>>, obs: seq<real>, s: State)
    requires obs != [] && OfLength(paths, |obs|)
    ensures OfLength(Extend(paths), |obs| + 1)
    ensures var was := obs[..|obs| - 1];
            EndWeight(m, Extend(paths), obs, s)
            == Carry(m, EndWeight(m, paths, was, CALM), EndWeight(m, paths, was, TURBULENT), s, obs[|obs| - 1])
  {
    ExtendLength(paths, |obs|);
    var was, x := obs[..|obs| - 1], obs[|obs| - 1];
    if paths == [] {
      CarryNothing(m, s, x);
    } else {
      var p, rest := paths[0], paths[1..];
      assert p in paths && forall q :: q in rest ==> q in paths;
      ExtendWeight(m, rest, obs, s);
      ExtendLength(rest, |obs|);
      assert paths == [p] + rest;
      ExtendWeightCons(m, p, rest, obs, s);
    }
  }

  lemma ExtendWeightCons(m: Model, p: seq<State>, rest: seq<seq<State>>, obs: seq<real>, s: State)
    requires obs != [] && |p| == |obs| && OfLength(rest, |obs|) && OfLength([p] + rest, |obs|)
    requires OfLength(Extend([p] + rest), |obs| + 1) && OfLength(Extend(rest), |obs| + 1)
    requires var was := obs[..|obs| - 1];
             EndWeight(m, Extend(rest), obs, s)
             == Carry(m, EndWeight(m, rest, was, CALM), EndWeight(m, rest, was, TURBULENT), s, obs[|obs| - 1])
    ensures var was := obs[..|obs| - 1];
            EndWeight(m, Extend([p] + rest), obs, s)
            == Carry(m, EndWeight(m, [p] + rest, was, CALM), EndWeight(m, [p] + rest, was, TURBULENT), s,
                     obs[|obs| - 1])
  {
    hide Carry, Hop, Weight, Extend, OfLength;
    var was, x := obs[..|obs| - 1], obs[|obs| - 1];
    ExtendCons(m, p, rest, obs, s);
    EndWeightCons(m, p, rest, was, CALM);
    EndWeightCons(m, p, rest, was, TURBULENT);
    WeightStep(m, p, obs, s);
    CarryAdds(m, Weight(m, p, was), p[|was|], EndWeight(m, rest, was, CALM), EndWeight(m, rest, was, TURBULENT), s, x);
  }

  lemma ExtendCons(m: Model, p: seq<State>, rest: seq<seq<State>>, obs: seq<real>, s: State)
    requires |p| == |obs| && OfLength(rest, |obs|) && OfLength(Extend([p] + rest), |obs| + 1)
             && OfLength(Extend(rest), |obs| + 1)
    ensures EndWeight(m, Extend([p] + rest), obs, s) == Weight(m, p + [s], obs) + EndWeight(m, Extend(rest), obs, s)
  {
    hide Weight;
    var c, t := p + [CALM], p + [TURBULENT];
    EndWeightCons(m, t, Extend(rest), obs, s);
    EndWeightCons(m, c, [t] + Extend(rest), obs, s);
    assert ([p] + rest)[1..] == rest;
    assert Extend([p] + rest) == [c] + ([t] + Extend(rest));
    assert c[|obs|] == CALM && t[|obs|] == TURBULENT;
  }

  // ---------------------------------------------------------------- the filter is the path sum

  ghost function PathWeight(m: Model, obs: seq<real>, s: State): real {
    AllPathsLength(|obs|);
    EndWeight(m, AllPaths(|obs|), obs, s)
  }

  lemma PathWeightStep(m: Model, obs: seq<real>, s: State)
    requires obs != []
    ensures var was := obs[..|obs| - 1];
            PathWeight(m, obs, s)
            == Carry(m, PathWeight(m, was, CALM), PathWeight(m, was, TURBULENT), s, obs[|obs| - 1])
  {
    hide Carry, EndWeight;
    AllPathsLength(|obs| - 1);
    ExtendWeight(m, AllPaths(|obs| - 1), obs, s);
  }

  lemma PathWeightNone(m: Model, s: State)
    ensures PathWeight(m, [], s) == m.Start(s)
  {
    AllPathsLength(0);
    EndWeightCons(m, [TURBULENT], [], [], s);
    EndWeightCons(m, [CALM], [[TURBULENT]], [], s);
    assert [[TURBULENT]] + [] == [[TURBULENT]] && [[CALM]] + [[TURBULENT]] == AllPaths(0);
  }

  /** With beliefs that are beliefs and transitions above the floor, the floor never bites. */
  lemma FloorIdle(m: Model, b: Belief, s: State)
    requires m.Valid() && m.AboveFloor() && b.calm + b.turbulent == 1.0 && 0.0 <= b.calm && 0.0 <= b.turbulent
    ensures Predict(m, b, s) >= m.floor
  {
    var p, q := m.Transition(CALM, s), m.Transition(TURBULENT, s);
    assert p >= m.floor && q >= m.floor;
    Blend(b.calm, b.turbulent, p, q, m.floor);
  }

  function Weighed(a: real, p: real): real { a * p }

  lemma Blend(a: real, b: real, p: real, q: real, floor: real)
    requires a >= 0.0 && b >= 0.0 && a + b == 1.0 && p >= floor && q >= floor
    ensures Weighed(a, p) + Weighed(b, q) >= floor
  {
    hide Weighed;
    Monotone(a, p, floor);
    Monotone(b, q, floor);
    OneMinus(a, b, floor);
  }

  lemma OneMinus(a: real, b: real, f: real)
    requires a + b == 1.0
    ensures Weighed(b, f) == f - Weighed(a, f)
  {
    Distribute(a, b, f);
    assert (a + b) * f == f;
  }

  lemma Monotone(a: real, p: real, q: real)
    requires a >= 0.0 && p >= q
    ensures Weighed(a, p) >= Weighed(a, q)
  {
  }

  lemma NumerCarries(m: Model, b: Belief, s: State, x: real)
    requires m.Valid() && m.AboveFloor() && b.calm + b.turbulent == 1.0 && 0.0 <= b.calm && 0.0 <= b.turbulent
    ensures Numer(m, b, s, x) == Carry(m, b.calm, b.turbulent, s, x)
  {
    FloorIdle(m, b, s);
  }

  /** A belief is in proportion to two weights. */
  predicate Proportional(b: Belief, c: real, t: real) {
    c + t > 0.0 && b.calm * (c + t) == c && b.turbulent * (c + t) == t
  }

  lemma SameShares(c: real, t: real, z: real, x: real, y: real)
    requires z > 0.0 && x > 0.0 && y > 0.0 && x * z == c && y * z == t
    ensures Proportional(Belief(x / (x + y), y / (x + y)), c, t)
  {
    var sum, whole := x + y, c + t;
    assert sum * z == whole by {
      Distribute(x, y, z);
    }
    assert whole > 0.0 by {
      Positive(sum, z);
    }
    OneShare(x, sum, z, whole, c);
    OneShare(y, sum, z, whole, t);
  }

  lemma OneShare(x: real, sum: real, z: real, whole: real, c: real)
    requires sum > 0.0 && sum * z == whole && x * z == c
    ensures x / sum * whole == c
  {
    var q := x / sum;
    assert q * sum == x by {
      Quotient(x, sum);
    }
    assert q * sum * z == q * (sum * z) by {
      Regroup(q, sum, z);
    }
  }

  lemma Regroup(a: real, b: real, c: real)
    ensures a * b * c == a * (b * c)
  {
  }

  /** One forward step keeps beliefs in proportion to the weights carried on. */
  lemma StepShares(m: Model, b: Belief, c: real, t: real, x: real)
    requires m.Valid() && m.AboveFloor() && b.calm + b.turbulent == 1.0 && 0.0 <= b.calm && 0.0 <= b.turbulent
    requires Proportional(b, c, t)
    requires Numer(m, b, CALM, x) > 0.0 && Numer(m, b, TURBULENT, x) > 0.0
    ensures Proportional(Forward(m, b, x), Carry(m, c, t, CALM, x), Carry(m, c, t, TURBULENT, x))
  {
    StepScales(m, b, c, t, CALM, x);
    StepScales(m, b, c, t, TURBULENT, x);
    hide Carry, Numer, Proportional;
    var p, q := Numer(m, b, CALM, x), Numer(m, b, TURBULENT, x);
    SameShares(Carry(m, c, t, CALM, x), Carry(m, c, t, TURBULENT, x), c + t, p, q);
  }

  lemma StepScales(m: Model, b: Belief, c: real, t: real, s: State, x: real)
    requires m.Valid() && m.AboveFloor() && b.calm + b.turbulent == 1.0 && 0.0 <= b.calm && 0.0 <= b.turbulent
    requires Proportional(b, c, t)
    ensures c + t > 0.0 && Numer(m, b, s, x) * (c + t) == Carry(m, c, t, s, x)
  {
    hide Carry, Numer;
    NumerCarries(m, b, s, x);
    CarryScales(m, b.calm, b.turbulent, c + t, c, t, s, x);
  }

  /** After any observations the filtered probabilities are the shares of the total weight of all hidden
      paths that end in each state. */
  lemma {:induction false} FilterIsPathShare(m: Model, obs: seq<real>)
    requires m.Valid() && m.AboveFloor()
    ensures var c, t := PathWeight(m, obs, CALM), PathWeight(m, obs, TURBULENT); var b := Filtered(m, obs);
            c + t > 0.0 && b.calm * (c + t) == c && b.turbulent * (c + t) == t
    decreases |obs|
  {
    hide PathWeight, Carry, Numer, Forward;
    if obs == [] {
      PathWeightNone(m, CALM);
      PathWeightNone(m, TURBULENT);
    } else {
      var was, x := obs[..|obs| - 1], obs[|obs| - 1];
      var b := Filtered(m, was);
      FilterIsPathShare(m, was);
      FilteredIsBelief(m, was);
      PathWeightStep(m, obs, CALM);
      PathWeightStep(m, obs, TURBULENT);
      NumerPositive(m, b, x);
      StepShares(m, b, PathWeight(m, was, CALM), PathWeight(m, was, TURBULENT), x);
    }
  }

  // ---------------------------------------------------------------- the detector

  datatype Regime = AMBIGUOUS | SETTLED(state: State)

  datatype RegimeState = RegimeState(obs: real, calm: real, turbulent: real, regime: Regime, drift: real,
                                     confidence: real, ts: int)

  function Clamp(x: real): real { if x < 0.0 then 0.0 else if x > 1.0 then 1.0 else x }

  /** It gives the nearest probability. */
  lemma ClampIsNearest(x: real, y: real)
    requires 0.0 <= y <= 1.0
    ensures 0.0 <= Clamp(x) <= 1.0 && AbsR(Clamp(x) - x) <= AbsR(y - x)
  {
  }

  function Label(b: Belief, ambiguousBelow: real): Regime {
    if MaxR(b.calm, b.turbulent) < ambiguousBelow then AMBIGUOUS
    else if b.calm >= b.turbulent then SETTLED(CALM) else SETTLED(TURBULENT)
  }

  /** The observation compared with: the oldest of the window before `x` came in. */
  function Reference(obs: seq<real>, window: nat, x: real): real {
    if LastOf(obs, window) == [] then x else LastOf(obs, window)[0]
  }

  /** What the detector reports for `x` after `obs`. */
  ghost function Report(m: Model, window: nat, ambiguousBelow: real, obs: seq<real>, x: real, ts: int): RegimeState
    requires m.Valid()
  {
    var b := Filtered(m, obs + [x]);
    RegimeState(x, b.calm, b.turbulent, Label(b, ambiguousBelow), x - Reference(obs, window, x),
                MaxR(b.calm, b.turbulent), ts)
  }

  /** What a report says of the beliefs: which is the likelier, calm if neither is, unless both fall short of the
      threshold. */
  lemma LabelIff(m: Model, window: nat, ambiguousBelow: real, obs: seq<real>, x: real, ts: int)
    requires m.Valid()
    ensures var st := Report(m, window, ambiguousBelow, obs, x, ts);
            && (st.regime == AMBIGUOUS <==> st.calm < ambiguousBelow && st.turbulent < ambiguousBelow)
            && (st.regime == SETTLED(CALM) <==> st.calm >= ambiguousBelow && st.calm >= 0.5)
            && (st.regime == SETTLED(TURBULENT) <==> st.turbulent >= ambiguousBelow && st.turbulent > 0.5)
            && st.calm <= st.confidence && st.turbulent <= st.confidence
            && (st.confidence == st.calm || st.confidence == st.turbulent)
  {
    FilteredIsBelief(m, obs + [x]);
    hide Filtered, Reference;
  }

  /** A threshold of one half or less never makes a reading ambiguous, since one of two beliefs is at
      least one half. */
  lemma NeverAmbiguous(m: Model, obs: seq<real>, threshold: real)
    requires m.Valid() && threshold <= 0.5
    ensures Label(Filtered(m, obs), threshold) != AMBIGUOUS
  {
    FilteredIsBelief(m, obs);
  }

  lemma FilteredMore(m: Model, obs: seq<real>, x: real)
    requires m.Valid()
    ensures Numer(m, Filtered(m, obs), CALM, x) + Numer(m, Filtered(m, obs), TURBULENT, x) > 0.0
    ensures Filtered(m, obs + [x]) == Forward(m, Filtered(m, obs), x)
  {
    NumerPositive(m, Filtered(m, obs), x);
    assert (obs + [x])[..|obs|] == obs;
  }

  class RegimeDetector {
    const model: Model
    const driftWindow: nat
    const ambiguousBelow: real
    var belief: Belief
    var recentRaw: seq<real>
    var last: Option<RegimeState>
    ghost var seen: seq<real>

    constructor (calmDensity: real -> real, turbulentDensity: real -> real, calmToCalm: real,
                 turbulentToTurbulent: real, startCalm: real, floor: real, driftWindow: int, ambiguousBelow: real)
      requires (forall x: real :: calmDensity(x) > 0.0) && (forall x: real :: turbulentDensity(x) > 0.0) && floor > 0.0
      ensures model == Model(calmDensity, turbulentDensity, Clamp(calmToCalm), Clamp(turbulentToTurbulent),
                             Clamp(startCalm), floor)
      ensures this.driftWindow == Max(1, driftWindow) && this.ambiguousBelow == Clamp(ambiguousBelow)
      ensures Valid() && seen == [] && last == None
    {
      model := Model(calmDensity, turbulentDensity, Clamp(calmToCalm), Clamp(turbulentToTurbulent), Clamp(startCalm),
                     floor);
      this.driftWindow, this.ambiguousBelow := Max(1, driftWindow), Clamp(ambiguousBelow);
      belief := Belief(Clamp(startCalm), 1.0 - Clamp(startCalm));
      recentRaw, last, seen := [], None, [];
    }

    ghost predicate Valid()
      reads this
    {
      model.Valid() && driftWindow >= 1 && belief == Filtered(model, seen) && recentRaw == LastOf(seen, driftWindow)
    }

    /** The forward step on the running belief. */
    method Fold(x: real)
      requires model.Valid()
      modifies this`belief
      ensures Numer(model, old(belief), CALM, x) + Numer(model, old(belief), TURBULENT, x) > 0.0
      ensures belief == Forward(model, old(belief), x)
    {
      NumerPositive(model, belief, x);
      var predCalm := belief.calm * model.calmToCalm + belief.turbulent * (1.0 - model.turbulentToTurbulent);
      var predTurbulent := belief.turbulent * model.turbulentToTurbulent + belief.calm * (1.0 - model.calmToCalm);
      assert predCalm == Predict(model, belief, CALM) && predTurbulent == Predict(model, belief, TURBULENT);
      hide Predict;
      var calm := MaxR(model.floor, predCalm) * model.calmDensity(x);
      var turbulent := MaxR(model.floor, predTurbulent) * model.turbulentDensity(x);
      assert calm == Numer(model, belief, CALM, x) && turbulent == Numer(model, belief, TURBULENT, x);
      hide Numer;
      belief := Belief(calm / (calm + turbulent), turbulent / (calm + turbulent));
    }

    /** Fold one observation in and report. */
    method Handle(x: real, ts: int) returns (st: RegimeState)
      requires Valid()
      modifies this
      ensures Valid() && seen == old(seen) + [x] && last == Some(st)
      ensures st == Report(model, driftWindow, ambiguousBelow, old(seen), x, ts)
    {
      hide Forward, Numer, LastOf, Filtered;
      FilteredMore(model, seen, x);
      LastOfMore(seen, x, driftWindow);
      Fold(x);
      var confidence := MaxR(belief.calm, belief.turbulent);
      var regime := if confidence < ambiguousBelow then AMBIGUOUS
                    else if belief.calm >= belief.turbulent then SETTLED(CALM) else SETTLED(TURBULENT);
      var reference := if recentRaw != [] then recentRaw[0] else x;
      recentRaw := recentRaw + [x];
      if |recentRaw| > driftWindow {
        recentRaw := recentRaw[1..];
      }
      st := RegimeState(x, belief.calm, belief.turbulent, regime, x - reference, confidence, ts);
      last := Some(st);
      seen := seen + [x];
    }

    /** Fold a list of observations in, stamped with their positions. */
    method ReplayInto(observations: seq<real>) returns (out: seq<RegimeState>)
      requires Valid()
      modifies this
      ensures Valid() && seen == old(seen) + observations
      ensures |out| == |observations|
      ensures forall i :: 0 <= i < |out| ==>
                out[i] == Report(model, driftWindow, ambiguousBelow, old(seen) + observations[..i], observations[i], i)
    {
      hide Report, Filtered, LastOf;
      ghost var was := seen;
      out := [];
      var i := 0;
      assert was + observations[..0] == was;
      while i < |observations|
        invariant 0 <= i <= |observations| && |out| == i
        invariant Valid() && seen == was + observations[..i]
        invariant forall j :: 0 <= j < i ==>
                    out[j] == Report(model, driftWindow, ambiguousBelow, was + observations[..j], observations[j], j)
      {
        var st := Handle(observations[i], i);
        out := out + [st];
        assert was + observations[..i] + [observations[i]] == was + observations[..i + 1];
        i := i + 1;
      }
      assert observations[..i] == observations;
    }
  }
}
