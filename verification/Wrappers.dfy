/** Small shared vocabulary. */
module Wrappers {
  datatype Option<+T> = None | Some(value: T)

  function Min(a: int, b: int): int { if a <= b then a else b }
  function Max(a: int, b: int): int { if a <= b then b else a }

  function MaxR(a: real, b: real): real { if a >= b then a else b }
  function AbsR(x: real): real { if x >= 0.0 then x else -x }

  /** The last `k` elements. */
  function LastOf<T>(xs: seq<T>, k: nat): seq<T> { if |xs| <= k then xs else xs[|xs| - k..] }

  lemma LastOfMore<T>(xs: seq<T>, x: T, k: nat)
    ensures |LastOf(xs, k)| <= k
    ensures var more := LastOf(xs, k) + [x]; LastOf(xs + [x], k) == if |more| > k then more[|more| - k..] else more
  {
  }

  ghost function AnyOf<T>(s: set<T>): (x: T)
    requires s != {}
    ensures x in s
  {
    var x :| x in s;
    x
  }

  /** Two maps that agree key by key are one map. */
  lemma {:induction false} SameMap<V>(a: map<int, V>, b: map<int, V>)
    requires a.Keys == b.Keys && forall k :: k in a ==> a[k] == b[k]
    ensures a == b
    decreases |a|
  {
    if a.Keys == {} {
      assert a == map[] && b == map[];
    } else {
      var k := AnyOf(a.Keys);
      SameMap(a - {k}, b - {k});
      assert a == (a - {k})[k := a[k]] && b == (b - {k})[k := b[k]];
    }
  }
}
