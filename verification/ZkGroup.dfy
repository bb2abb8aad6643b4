/** The group the attestation computes in, as an abstract abelian group of finite order, and scalar
    multiplication by double-and-add (exchange/quant/zk.py). */
module ZkGroup {

  /** `zero` is the identity, which the code writes None. */
  datatype Group<!P> = Group(zero: P, add: (P, P) -> P, order: nat)

  /** `k`-fold addition. */
  function Times<P>(g: Group<P>, k: nat, p: P): P {
    if k == 0 then g.zero else g.add(Times(g, k - 1, p), p)
  }

  ghost predicate Lawful<P(!new)>(g: Group<P>) {
    && g.order > 0
    && (forall a, b, c :: g.add(g.add(a, b), c) == g.add(a, g.add(b, c)))
    && (forall a, b :: g.add(a, b) == g.add(b, a))
    && (forall a :: g.add(a, g.zero) == a)
    && (forall a :: Times(g, g.order, a) == g.zero)
  }

  lemma Assoc<P(!new)>(g: Group<P>, a: P, b: P, c: P)
    requires Lawful(g)
    ensures g.add(g.add(a, b), c) == g.add(a, g.add(b, c))
  {
  }

  lemma Comm<P(!new)>(g: Group<P>, a: P, b: P)
    requires Lawful(g)
    ensures g.add(a, b) == g.add(b, a)
  {
  }

  lemma Zero<P(!new)>(g: Group<P>, a: P)
    requires Lawful(g)
    ensures g.add(a, g.zero) == a && g.add(g.zero, a) == a
  {
    Comm(g, a, g.zero);
  }

  lemma Swap<P(!new)>(g: Group<P>, a: P, b: P, c: P, d: P)
    requires Lawful(g)
    ensures g.add(g.add(a, b), g.add(c, d)) == g.add(g.add(a, c), g.add(b, d))
  {
    hide Lawful;
    Assoc(g, a, b, g.add(c, d));
    Assoc(g, b, c, d);
    Comm(g, b, c);
    Assoc(g, c, b, d);
    Assoc(g, a, c, g.add(b, d));
  }

  lemma {:induction false} TimesAdd<P(!new)>(g: Group<P>, a: nat, b: nat, p: P)
    requires Lawful(g)
    ensures Times(g, a + b, p) == g.add(Times(g, a, p), Times(g, b, p))
  {
    hide Lawful;
    if b == 0 {
      Zero(g, Times(g, a, p));
    } else {
      TimesAdd(g, a, b - 1, p);
      Assoc(g, Times(g, a, p), Times(g, b - 1, p), p);
    }
  }

  lemma {:induction false} TimesSum<P(!new)>(g: Group<P>, k: nat, p: P, q: P)
    requires Lawful(g)
    ensures Times(g, k, g.add(p, q)) == g.add(Times(g, k, p), Times(g, k, q))
  {
    hide Lawful;
    if k == 0 {
      Zero(g, g.zero);
    } else {
      TimesSum(g, k - 1, p, q);
      Swap(g, Times(g, k - 1, p), Times(g, k - 1, q), p, q);
    }
  }

  lemma {:induction false} TimesZero<P(!new)>(g: Group<P>, k: nat)
    requires Lawful(g)
    ensures Times(g, k, g.zero) == g.zero
  {
    hide Lawful;
    if k > 0 {
      TimesZero(g, k - 1);
      Zero(g, g.zero);
    }
  }

  lemma {:induction false} TimesTimes<P(!new)>(g: Group<P>, a: nat, b: nat, p: P)
    requires Lawful(g)
    ensures Times(g, a * b, p) == Times(g, a, Times(g, b, p))
  {
    hide Lawful;
    if a > 0 {
      TimesTimes(g, a - 1, b, p);
      assert a * b == (a - 1) * b + b;
      TimesAdd(g, (a - 1) * b, b, p);
    }
  }

  lemma TimesOrder<P(!new)>(g: Group<P>, p: P)
    requires Lawful(g)
    ensures Times(g, g.order, p) == g.zero
  {
  }

  lemma WholeOrders<P(!new)>(g: Group<P>, q: nat, m: nat, p: P)
    requires Lawful(g) && m == q * g.order
    ensures Times(g, m, p) == g.zero
  {
    hide Lawful;
    TimesTimes(g, q, g.order, p);
    TimesOrder(g, p);
    TimesZero(g, q);
  }

  lemma DropWhole<P(!new)>(g: Group<P>, m: nat, r: nat, p: P)
    requires Lawful(g) && Times(g, m, p) == g.zero
    ensures Times(g, m + r, p) == Times(g, r, p)
  {
    hide Lawful;
    TimesAdd(g, m, r, p);
    Zero(g, Times(g, r, p));
  }

  lemma Quotient(k: nat, n: nat) returns (q: nat, m: nat)
    requires n > 0
    ensures m == q * n && k == m + k % n
  {
    q, m := k / n, k / n * n;
  }

  /** Scalars may be taken modulo the order. */
  lemma TimesMod<P(!new)>(g: Group<P>, k: nat, p: P)
    requires Lawful(g)
    ensures g.order > 0 && Times(g, k % g.order, p) == Times(g, k, p)
  {
    assert g.order > 0;
    hide Lawful;
    var q, m := Quotient(k, g.order);
    WholeOrders(g, q, m, p);
    DropWhole(g, m, k % g.order, p);
  }

  lemma {:induction false} TimesTwo<P(!new)>(g: Group<P>, k: nat, p: P)
    requires Lawful(g)
    ensures Times(g, 2 * k, p) == Times(g, k, g.add(p, p))
  {
    hide Lawful;
    TimesAdd(g, k, k, p);
    TimesSum(g, k, p, p);
    assert 2 * k == k + k;
  }

  /** Scalar multiplication by any integer, taken modulo the order. */
  function Mul<P>(g: Group<P>, k: int, p: P): P
    requires g.order > 0
  {
    Times(g, k % g.order, p)
  }

  /** Double-and-add is k-fold addition. */
  method EcMul<P(!new)>(g: Group<P>, k: int, p: P) returns (r: P)
    requires Lawful(g)
    ensures r == Mul(g, k, p)
  {
    hide Lawful, Times;
    assert g.order > 0 by {
      TimesMod(g, 0, p);
    }
    var left: nat := k % g.order;
    ghost var whole := left;
    TimesNone(g, p);
    if left == 0 {
      return g.zero;
    }
    var addend := p;
    r := g.zero;
    Zero(g, Times(g, whole, p));
    while left > 0
      invariant g.add(r, Times(g, left, addend)) == Times(g, whole, p)
    {
      Halve(g, left, addend, r);
      if left % 2 == 1 {
        r := g.add(r, addend);
      }
      addend := g.add(addend, addend);
      left := left / 2;
    }
    TimesNone(g, addend);
    Zero(g, r);
  }

  lemma TimesNone<P>(g: Group<P>, p: P)
    ensures Times(g, 0, p) == g.zero
  {
  }

  /** One round of double-and-add keeps the total. */
  lemma Halve<P(!new)>(g: Group<P>, left: nat, addend: P, r: P)
    requires Lawful(g) && left > 0
    ensures g.add(if left % 2 == 1 then g.add(r, addend) else r, Times(g, left / 2, g.add(addend, addend)))
            == g.add(r, Times(g, left, addend))
  {
    hide Lawful;
    var half := left / 2;
    TimesTwo(g, half, addend);
    if left % 2 == 1 {
      assert left == 2 * half + 1;
      var twice := Times(g, 2 * half, addend);
      Assoc(g, r, addend, twice);
      Comm(g, addend, twice);
    } else {
      assert left == 2 * half;
    }
  }

  // ---------------------------------------------------------------- scalars

  lemma MulAdd<P(!new)>(g: Group<P>, a: int, b: int, p: P)
    requires Lawful(g)
    ensures g.order > 0 && Mul(g, a + b, p) == g.add(Mul(g, a, p), Mul(g, b, p))
  {
    var n := g.order;
    assert n > 0;
    hide Lawful;
    var x, y := a % n, b % n;
    TimesAdd(g, x, y, p);
    TimesMod(g, x + y, p);
    ModSum(a, b, n);
  }

  lemma MulTimes<P(!new)>(g: Group<P>, a: int, b: int, p: P)
    requires Lawful(g)
    ensures g.order > 0 && Mul(g, a * b, p) == Mul(g, a, Mul(g, b, p))
  {
    var n := g.order;
    assert n > 0;
    hide Lawful;
    var x: nat, y: nat := a % n, b % n;
    TimesTimes(g, x, y, p);
    var z: nat := Product(x, y);
    TimesMod(g, z, p);
    ModProduct(a, b, n);
  }

  function Product(x: nat, y: nat): (z: nat)
    ensures z == x * y
  {
    x * y
  }

  lemma MulSum<P(!new)>(g: Group<P>, k: int, p: P, q: P)
    requires Lawful(g)
    ensures g.order > 0 && Mul(g, k, g.add(p, q)) == g.add(Mul(g, k, p), Mul(g, k, q))
  {
    TimesSum(g, k % g.order, p, q);
  }

  /** A scalar reduced modulo the order multiplies alike. */
  lemma MulMod<P(!new)>(g: Group<P>, k: int, p: P)
    requires Lawful(g)
    ensures g.order > 0 && Mul(g, k % g.order, p) == Mul(g, k, p)
  {
  }

  lemma MulNothing<P(!new)>(g: Group<P>, p: P)
    requires Lawful(g)
    ensures g.order > 0 && Mul(g, 0, p) == g.zero
  {
  }

  lemma ModUnique(x: int, q: int, r: int, n: int)
    requires n > 0 && x == q * n + r && 0 <= r < n
    ensures x % n == r && x / n == q
  {
    var d := x / n - q;
    assert x == (x / n) * n + x % n;
    assert d * n == r - x % n;
    Multiples(d, n);
  }

  lemma Multiples(d: int, n: int)
    requires n > 0
    ensures d >= 1 ==> d * n >= n
    ensures d <= -1 ==> d * n <= -n
  {
  }

  lemma ModShift(x: int, q: int, n: int)
    requires n > 0
    ensures (x + q * n) % n == x % n
  {
    assert x == (x / n) * n + x % n;
    assert x + q * n == (x / n + q) * n + x % n;
    ModUnique(x + q * n, x / n + q, x % n, n);
  }

  lemma ModSum(a: int, b: int, n: int)
    requires n > 0
    ensures (a % n + b % n) % n == (a + b) % n
  {
    assert a == (a / n) * n + a % n && b == (b / n) * n + b % n;
    assert a + b == (a % n + b % n) + (a / n + b / n) * n;
    ModShift(a % n + b % n, a / n + b / n, n);
  }

  lemma ModProduct(a: int, b: int, n: int)
    requires n > 0
    ensures (a % n * (b % n)) % n == (a * b) % n
  {
    var x, y, p, q := a % n, b % n, a / n, b / n;
    assert a == p * n + x && b == q * n + y;
    assert (p * n + x) * (q * n + y) == x * y + (p * q * n + p * y + x * q) * n;
    ModShift(x * y, p * q * n + p * y + x * q, n);
  }
}
