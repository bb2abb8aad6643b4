/** Finite sums over sets. */
module Sums {
  import opened Wrappers

  ghost function SumInt<T(!new)>(s: set<T>, f: T -> int): int
    decreases |s|
  {
    if s == {} then 0 else var x := AnyOf(s); f(x) + SumInt(s - {x}, f)
  }

  lemma {:induction false} SumIntPick<T(!new)>(s: set<T>, f: T -> int, x: T)
    requires x in s
    ensures SumInt(s, f) == f(x) + SumInt(s - {x}, f)
    decreases |s|
  {
    var y := AnyOf(s);
    if y != x {
      SumIntPick(s - {y}, f, x);
      SumIntPick(s - {x}, f, y);
      assert s - {y} - {x} == s - {x} - {y};
    }
  }

  lemma {:induction false} SumIntSame<T(!new)>(s: set<T>, f: T -> int, g: T -> int)
    requires forall x :: x in s ==> f(x) == g(x)
    ensures SumInt(s, f) == SumInt(s, g)
    decreases |s|
  {
    if s != {} {
      SumIntSame(s - {AnyOf(s)}, f, g);
    }
  }

  ghost function SumReal<T(!new)>(s: set<T>, f: T -> real): real
    decreases |s|
  {
    if s == {} then 0.0 else var x := AnyOf(s); f(x) + SumReal(s - {x}, f)
  }

  lemma {:induction false} SumRealPick<T(!new)>(s: set<T>, f: T -> real, x: T)
    requires x in s
    ensures SumReal(s, f) == f(x) + SumReal(s - {x}, f)
    decreases |s|
  {
    var y := AnyOf(s);
    if y != x {
      SumRealPick(s - {y}, f, x);
      SumRealPick(s - {x}, f, y);
      assert s - {y} - {x} == s - {x} - {y};
    }
  }

  lemma {:induction false} SumRealSame<T(!new)>(s: set<T>, f: T -> real, g: T -> real)
    requires forall x :: x in s ==> f(x) == g(x)
    ensures SumReal(s, f) == SumReal(s, g)
    decreases |s|
  {
    if s != {} {
      SumRealSame(s - {AnyOf(s)}, f, g);
    }
  }

  lemma {:induction false} SumRealZero<T(!new)>(s: set<T>, f: T -> real)
    requires forall x :: x in s ==> f(x) == 0.0
    ensures SumReal(s, f) == 0.0
    decreases |s|
  {
    if s != {} {
      SumRealZero(s - {AnyOf(s)}, f);
    }
  }
}
