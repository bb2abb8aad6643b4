/** What an accepted bit proof does establish (exchange/quant/zk.py): two accepted transcripts with the same first
    messages and different shared challenges give an opening of the commitment, if the order is prime. */
module ZkExtraction {
  import opened Wrappers
  import opened ZkGroup
  import opened ZkAttestation

  // ---------------------------------------------------------------- inverses

  /** The greatest common divisor, how the two numbers combine to it, and how often it goes into each. */
  datatype Combined = Combined(gcd: int, x: int, y: int, inA: int, inB: int)

  predicate Combines(r: Combined, a: nat, b: nat) {
    r.gcd == a * r.x + b * r.y && a == r.inA * r.gcd && b == r.inB * r.gcd && r.gcd > 0
  }

  function Euclid(a: nat, b: nat): (r: Combined)
    requires a > 0 || b > 0
    ensures Combines(r, a, b)
    decreases b
  {
    if b == 0 then Combined(a, 1, 0, 1, 0)
    else
      var r := Euclid(b, a % b);
      var q := a / b;
      Divided(a, b);
      EuclidStep(a, b, q, a % b, r);
      Combined(r.gcd, r.y, r.x - q * r.y, q * r.inA + r.inB, r.inA)
  }

  lemma EuclidStep(a: nat, b: nat, q: int, m: nat, r: Combined)
    requires a == q * b + m && Combines(r, b, m)
    ensures Combines(Combined(r.gcd, r.y, r.x - q * r.y, q * r.inA + r.inB, r.inA), a, b)
  {
    assert a * r.y == (q * b) * r.y + m * r.y;
    assert b * (r.x - q * r.y) == b * r.x - (q * b) * r.y;
    assert (q * r.inA + r.inB) * r.gcd == q * (r.inA * r.gcd) + r.inB * r.gcd;
  }

  ghost predicate Prime(n: int) { n > 1 && forall d :: 1 < d < n ==> n % d != 0 }

  lemma CoprimeTo(n: int, a: int, r: Combined)
    requires Prime(n) && 0 < a < n && Combines(r, a, n)
    ensures r.gcd == 1
  {
    AtLeastOne(r.inA, r.gcd);
    AtLeastOne(r.inB, r.gcd);
    Whole(n, r.inB, r.gcd);
  }

  lemma AtLeastOne(k: int, g: int)
    requires g > 0 && k * g > 0
    ensures k >= 1 && k * g >= g
  {
    Multiples(k, g);
    assert k == 0 ==> k * g == 0;
  }

  lemma Whole(n: int, k: int, g: int)
    requires g > 0 && n == k * g
    ensures n % g == 0
  {
    ModUnique(n, k, 0, g);
  }

  /** The inverse of a scalar. */
  function Inverse(k: int, n: int): int
    requires n > 0
  {
    Euclid(k % n, n).x
  }

  lemma Inverts(k: int, n: int)
    requires Prime(n) && k % n != 0
    ensures (Inverse(k, n) * k) % n == 1
  {
    var a, r := k % n, Euclid(k % n, n);
    CoprimeTo(n, a, r);
    hide Prime, Euclid;
    assert r.x * a == -r.y * n + 1 by {
      Turned(a, r.x, n, r.y);
    }
    ModUnique(r.x * a, -r.y, 1, n);
    ScaledMod(r.x, k, n);
  }

  lemma Turned(a: int, x: int, n: int, y: int)
    requires a * x + n * y == 1
    ensures x * a == -y * n + 1
  {
    assert a * x == x * a && n * y == y * n;
    Negated(y, n);
  }

  lemma ScaledMod(x: int, k: int, n: int)
    requires n > 0
    ensures (x * (k % n)) % n == (x * k) % n
  {
    var q := k / n;
    Divided(k, n);
    assert x * k == x * (k % n) + (x * q) * n by {
      Spread(x, q, n, k % n);
    }
    ModShift(x * (k % n), x * q, n);
  }

  lemma Spread(x: int, q: int, n: int, m: int)
    ensures x * (q * n + m) == x * m + (x * q) * n
  {
  }

  // ---------------------------------------------------------------- one branch

  lemma Cancel<P(!new)>(g: Group<P>, a: P, b: P, c: P)
    requires Lawful(g) && g.add(a, c) == g.add(b, c)
    ensures a == b
  {
    assert g.order > 0;
    hide Lawful;
    var minus := Mul(g, -1, c);
    MulAdd(g, 1, -1, c);
    MulOne(g, c);
    MulNothing(g, c);
    Assoc(g, a, c, minus);
    Assoc(g, b, c, minus);
    Zero(g, a);
    Zero(g, b);
  }

  lemma MulOne<P(!new)>(g: Group<P>, p: P)
    requires Lawful(g)
    ensures g.order > 0 && Mul(g, 1, p) == p
  {
    Zero(g, p);
    assert Times(g, 1, p) == g.add(Times(g, 0, p), p);
    if g.order == 1 {
      assert Times(g, 1, p) == g.zero;
    }
  }

  lemma Answered<P(!new)>(s: Setup<P>, c: P, p: Schnorr<P>, e: int)
    requires Sound(s) && s.g.order > 0 && SchnorrOk(s, c, p, e)
    ensures Commit(s, p.s1, p.s2) == s.g.add(Mul(s.g, e, c), p.t)
  {
    Comm(s.g, p.t, Mul(s.g, e, c));
    hide Lawful, Mul;
  }

  /** The difference of two answers to one first message opens the difference of their challenges. */
  lemma AnswersDiffer<P(!new)>(s: Setup<P>, c: P, p: Schnorr<P>, e: int, q: Schnorr<P>, f: int)
    requires Sound(s) && s.g.order > 0 && SchnorrOk(s, c, p, e) && SchnorrOk(s, c, q, f) && p.t == q.t
    ensures Commit(s, p.s1 - q.s1, p.s2 - q.s2) == Mul(s.g, e - f, c)
  {
    hide Lawful, Mul, Commit, SchnorrOk;
    var g := s.g;
    Answered(s, c, p, e);
    Answered(s, c, q, f);
    CommitAdds(s, p.s1 - q.s1, p.s2 - q.s2, q.s1, q.s2);
    assert p.s1 - q.s1 + q.s1 == p.s1 && p.s2 - q.s2 + q.s2 == p.s2;
    MulAdd(g, e - f, f, c);
    assert e - f + f == e;
    Assoc(g, Mul(g, e - f, c), Mul(g, f, c), p.t);
    Cancel(g, Commit(s, p.s1 - q.s1, p.s2 - q.s2), Mul(g, e - f, c), g.add(Mul(g, f, c), p.t));
  }

  /** So two different challenges open the commitment itself. */
  lemma BranchOpens<P(!new)>(s: Setup<P>, c: P, p: Schnorr<P>, e: int, q: Schnorr<P>, f: int)
    requires Sound(s) && s.g.order > 0 && Prime(s.g.order) && SchnorrOk(s, c, p, e) && SchnorrOk(s, c, q, f)
    requires p.t == q.t && (e - f) % s.g.order != 0
    ensures var d := Inverse(e - f, s.g.order); c == Commit(s, d * (p.s1 - q.s1), d * (p.s2 - q.s2))
  {
    hide Lawful, Mul, Commit, SchnorrOk, Inverse;
    AnswersDiffer(s, c, p, e, q, f);
    Inverts(e - f, s.g.order);
    Undone(s, c, Inverse(e - f, s.g.order), e - f, p.s1 - q.s1, p.s2 - q.s2);
  }

  lemma Undone<P(!new)>(s: Setup<P>, c: P, d: int, k: int, v: int, r: int)
    requires Sound(s) && s.g.order > 0 && (d * k) % s.g.order == 1 && Commit(s, v, r) == Mul(s.g, k, c)
    ensures c == Commit(s, d * v, d * r)
  {
    hide Lawful, Mul, Commit;
    var dk := d * k;
    MulMod(s.g, dk, c);
    MulOne(s.g, c);
    MulTimes(s.g, d, k, c);
    CommitTimes(s, d, v, r);
  }

  lemma CommitTimes<P(!new)>(s: Setup<P>, d: int, v: int, r: int)
    requires Sound(s) && s.g.order > 0
    ensures Mul(s.g, d, Commit(s, v, r)) == Commit(s, d * v, d * r)
  {
    hide Lawful, Mul;
    CommitIs(s, v, r);
    CommitIs(s, d * v, d * r);
    MulSum(s.g, d, Mul(s.g, v, s.base), Mul(s.g, r, s.blind));
    MulTimes(s.g, d, v, s.base);
    MulTimes(s.g, d, r, s.blind);
  }

  // ---------------------------------------------------------------- the OR proof

  /** What the two transcripts of one commitment open it to: the branch whose challenges differ does. */
  function Extract<P>(n: int, a: BitProof<P>, b: BitProof<P>): (int, int)
    requires n > 0
  {
    if (a.proof0.e - b.proof0.e) % n != 0 then
      var d := Inverse(a.proof0.e % n - b.proof0.e % n, n);
      (d * (a.proof0.s1 - b.proof0.s1), d * (a.proof0.s2 - b.proof0.s2))
    else
      var d := Inverse(a.proof1.e % n - b.proof1.e % n, n);
      (d * (a.proof1.s1 - b.proof1.s1), d * (a.proof1.s2 - b.proof1.s2))
  }

  /** Special soundness of the OR proof. The same commitment and first messages, answered under two different
      shared challenges, as two random oracles may draw them: both answers accepted, they give an opening. */
  lemma TwoAnswersOpen<P(!new)>(s: Setup<P>, other: (P, multiset<P>) -> int, a: BitProof<P>, b: BitProof<P>)
    requires Sound(s) && s.g.order > 0 && Prime(s.g.order) && BitOk(s, a) && BitOk(s.(oracle := other), b)
    requires a.c == b.c && a.proof0.t == b.proof0.t && a.proof1.t == b.proof1.t
    requires Challenge(s, a.c, a.proof0.t, a.proof1.t) != Challenge(s.(oracle := other), b.c, b.proof0.t, b.proof1.t)
    ensures var (v, r) := Extract(s.g.order, a, b); a.c == Commit(s, v, r)
  {
    hide Sound, Commit, SchnorrOk, Prime, Inverse, Challenge, Mul;
    var n := s.g.order;
    SameGroup(s, other, b);
    SomeDiffer(a.proof0.e, a.proof1.e, b.proof0.e, b.proof1.e, n);
    DifferMod(a.proof0.e, b.proof0.e, n);
    DifferMod(a.proof1.e, b.proof1.e, n);
    if (a.proof0.e - b.proof0.e) % n != 0 {
      BranchOpens(s, a.c, a.proof0, a.proof0.e % n, b.proof0, b.proof0.e % n);
    } else {
      BranchOpens(s, a.c, a.proof1, a.proof1.e % n, b.proof1, b.proof1.e % n);
    }
  }

  lemma SameGroup<P(!new)>(s: Setup<P>, other: (P, multiset<P>) -> int, b: BitProof<P>)
    requires s.g.order > 0 && BitOk(s.(oracle := other), b)
    ensures SchnorrOk(s, b.c, b.proof0, b.proof0.e % s.g.order) && SchnorrOk(s, b.c, b.proof1, b.proof1.e % s.g.order)
  {
    hide Mul;
  }

  lemma DifferMod(e: int, f: int, n: int)
    requires n > 0
    ensures (e % n - f % n) % n == (e - f) % n
  {
    var p, q := e / n, f / n;
    Divided(e, n);
    Divided(f, n);
    assert e - f == (e % n - f % n) + (p - q) * n;
    ModShift(e % n - f % n, p - q, n);
  }

  lemma SomeDiffer(a0: int, a1: int, b0: int, b1: int, n: int)
    requires n > 0 && (a0 % n + a1 % n) % n != (b0 % n + b1 % n) % n
    ensures (a0 - b0) % n != 0 || (a1 - b1) % n != 0
  {
    if (a0 - b0) % n == 0 && (a1 - b1) % n == 0 {
      Equals(a0, b0, n);
      Equals(a1, b1, n);
    }
  }

  lemma Equals(a: int, b: int, n: int)
    requires n > 0 && (a - b) % n == 0
    ensures a % n == b % n
  {
    Divided(a - b, n);
    assert a == b + (a - b) / n * n;
    ModShift(b, (a - b) / n, n);
  }
}
