/** The Pedersen/Schnorr range attestation of a learned prior (exchange/quant/zk.py): every attestation
    built is accepted, unless some point of it is the identity. */
module ZkAttestation {
  import opened Wrappers
  import opened ZkGroup

  const RANGE_BITS := 48
  const RANGE_END := 0x1_0000_0000_0000
  const V_SCALE := 0x100_0000_0000

  /** The group, its two generators, and the random oracle behind the challenge, which sorts the two first
      messages and so does not see their order. */
  datatype Setup<!P(==)> = Setup(g: Group<P>, base: P, blind: P, oracle: (P, multiset<P>) -> int)

  ghost predicate Sound<P(!new)>(s: Setup<P>) { Lawful(s.g) }

  function Commit<P(==)>(s: Setup<P>, v: int, r: int): P
    requires s.g.order > 0
  {
    s.g.add(Mul(s.g, v % s.g.order, s.base), Mul(s.g, r % s.g.order, s.blind))
  }

  function Challenge<P(==)>(s: Setup<P>, c: P, t0: P, t1: P): int
    requires s.g.order > 0
  {
    s.oracle(c, multiset{t0, t1}) % s.g.order
  }

  /** First message, two responses, and the branch's challenge. */
  datatype Schnorr<P> = Schnorr(t: P, s1: int, s2: int, e: int)

  datatype BitProof<P> = BitProof(c: P, proof0: Schnorr<P>, proof1: Schnorr<P>, realBranch: int)

  predicate SchnorrOk<P(==)>(s: Setup<P>, c: P, p: Schnorr<P>, e: int)
    requires s.g.order > 0
  {
    c != s.g.zero && p.t != s.g.zero
    && s.g.add(Mul(s.g, p.s1 % s.g.order, s.base), Mul(s.g, p.s2 % s.g.order, s.blind)) == s.g.add(p.t, Mul(s.g, e, c))
  }

  function Pow2(i: nat): (r: nat)
    ensures r > 0
  {
    if i == 0 then 1 else 2 * Pow2(i - 1)
  }

  /** The scalars drawn for one bit. */
  datatype Nonces = Nonces(e1: nat, k1s: nat, k2s: nat, k1: nat, k2: nat)

  function RealMessage<P(==)>(s: Setup<P>, x: Nonces): P
    requires s.g.order > 0
  {
    s.g.add(Mul(s.g, x.k1, s.base), Mul(s.g, x.k2, s.blind))
  }

  function SimulatedMessage<P(==)>(s: Setup<P>, c: P, x: Nonces): P
    requires s.g.order > 0
  {
    s.g.add(s.g.add(Mul(s.g, x.k1s, s.base), Mul(s.g, x.k2s, s.blind)), Mul(s.g, (-(x.e1 as int)) % s.g.order, c))
  }

  /** The branch whose opening is known, answering challenge `e0`. */
  function RealProof<P(==)>(s: Setup<P>, value: int, r: int, e0: int, x: Nonces): Schnorr<P>
    requires s.g.order > 0
  {
    Schnorr(RealMessage(s, x), (x.k1 + e0 * value) % s.g.order, (x.k2 + e0 * r) % s.g.order, e0)
  }

  /** The other branch, made up backwards from a challenge of the prover's choice. */
  function SimulatedProof<P(==)>(s: Setup<P>, c: P, x: Nonces): Schnorr<P>
    requires s.g.order > 0
  {
    Schnorr(SimulatedMessage(s, c, x), x.k1s, x.k2s, x.e1)
  }

  /** The two branches for a commitment that opens to `value`, the real one in first place. */
  function ProveOpening<P(==)>(s: Setup<P>, value: int, r: int, c: P, x: Nonces): BitProof<P>
    requires s.g.order > 0
  {
    var e := Challenge(s, c, RealMessage(s, x), SimulatedMessage(s, c, x));
    BitProof(c, RealProof(s, value, r, (e - x.e1) % s.g.order, x), SimulatedProof(s, c, x), 0)
  }

  function ProveBit<P(==)>(s: Setup<P>, i: nat, b: int, r: int, c: P, x: Nonces): BitProof<P>
    requires s.g.order > 0 && (b == 0 || b == 1)
  {
    var opening := ProveOpening(s, b * Pow2(i), r, c, x);
    if b == 0 then opening else BitProof(c, opening.proof1, opening.proof0, 1)
  }

  predicate BitOk<P(==)>(s: Setup<P>, bit: BitProof<P>)
    requires s.g.order > 0
  {
    var e0, e1 := bit.proof0.e % s.g.order, bit.proof1.e % s.g.order;
    && (e0 + e1) % s.g.order == Challenge(s, bit.c, bit.proof0.t, bit.proof1.t)
    && SchnorrOk(s, bit.c, bit.proof0, e0) && SchnorrOk(s, bit.c, bit.proof1, e1)
  }

  // ---------------------------------------------------------------- one bit

  /** Answering with the witness satisfies the equation. */
  lemma RealHolds<P(!new)>(s: Setup<P>, value: int, r: int, c: P, e0: int, x: Nonces)
    requires Sound(s) && s.g.order > 0 && c == s.g.add(Mul(s.g, value, s.base), Mul(s.g, r, s.blind))
    ensures SchnorrOk(s, c, RealProof(s, value, r, e0, x), e0) <==> c != s.g.zero && RealMessage(s, x) != s.g.zero
  {
    hide Lawful, Mul;
    var g := s.g;
    ReducedTwice(g, x.k1 + e0 * value, s.base);
    ReducedTwice(g, x.k2 + e0 * r, s.blind);
    Response(g, x.k1, e0, value, s.base);
    Response(g, x.k2, e0, r, s.blind);
    Swap(g, Mul(g, x.k1, s.base), Mul(g, e0, Mul(g, value, s.base)), Mul(g, x.k2, s.blind),
         Mul(g, e0, Mul(g, r, s.blind)));
    MulSum(g, e0, Mul(g, value, s.base), Mul(g, r, s.blind));
  }

  lemma ReducedTwice<P(!new)>(g: Group<P>, k: int, p: P)
    requires Lawful(g) && g.order > 0
    ensures Mul(g, k % g.order % g.order, p) == Mul(g, k, p)
  {
    assert k % g.order % g.order == k % g.order;
    MulMod(g, k, p);
  }

  /** (k + e w) P is k P and e times w P. */
  lemma Response<P(!new)>(g: Group<P>, k: int, e: int, w: int, p: P)
    requires Lawful(g) && g.order > 0
    ensures Mul(g, k + e * w, p) == g.add(Mul(g, k, p), Mul(g, e, Mul(g, w, p)))
  {
    hide Lawful, Mul;
    MulTimes(g, e, w, p);
    MulAdd(g, k, e * w, p);
  }

  /** The first message made up for a challenge satisfies the equation under it. */
  lemma SimulatedHolds<P(!new)>(s: Setup<P>, c: P, x: Nonces)
    requires Sound(s) && s.g.order > 0
    ensures SchnorrOk(s, c, SimulatedProof(s, c, x), x.e1) <==> c != s.g.zero && SimulatedMessage(s, c, x) != s.g.zero
  {
    hide Lawful, Mul;
    var g, e: int := s.g, x.e1;
    var answered := g.add(Mul(g, x.k1s, s.base), Mul(g, x.k2s, s.blind));
    MulMod(g, x.k1s, s.base);
    MulMod(g, x.k2s, s.blind);
    MulMod(g, -e, c);
    Assoc(g, answered, Mul(g, -e, c), Mul(g, e, c));
    MulAdd(g, -e, e, c);
    assert -e + e == 0;
    MulNothing(g, c);
    Zero(g, answered);
  }

  lemma ChallengesMeet(e: int, e1: int, n: int)
    requires n > 0 && 0 <= e < n && 0 <= e1 < n
    ensures (e - e1) % n % n == (e - e1) % n && e1 % n == e1
    ensures ((e - e1) % n + e1) % n == e && (e1 + (e - e1) % n) % n == e
  {
    var q, d := (e - e1) / n, (e - e1) % n;
    Divided(e - e1, n);
    ModUnique(e1, 0, e1, n);
    ModUnique(d, 0, d, n);
    Negated(q, n);
    ModUnique(d + e1, -q, e, n);
  }

  lemma Divided(x: int, n: int)
    requires n > 0
    ensures x == x / n * n + x % n && 0 <= x % n < n
  {
  }

  lemma Negated(q: int, n: int)
    ensures -q * n == -(q * n)
  {
  }

  /** Neither the commitment nor a first message is the identity. */
  predicate Clear<P(==)>(s: Setup<P>, bit: BitProof<P>) {
    bit.c != s.g.zero && bit.proof0.t != s.g.zero && bit.proof1.t != s.g.zero
  }

  /** The verifier asks for an opening, not for one to 0 or to a power of two: whatever integer the commitment
      opens to, the proof from that opening is accepted exactly when no point is the identity. */
  lemma OpeningAcceptedIff<P(!new)>(s: Setup<P>, value: int, r: int, c: P, x: Nonces)
    requires Sound(s) && s.g.order > 0 && x.e1 < s.g.order
    requires c == s.g.add(Mul(s.g, value, s.base), Mul(s.g, r, s.blind))
    ensures BitOk(s, ProveOpening(s, value, r, c, x)) <==> Clear(s, ProveOpening(s, value, r, c, x))
  {
    hide Lawful, Mul, SchnorrOk, RealMessage, SimulatedMessage;
    var n, e := s.g.order, Challenge(s, c, RealMessage(s, x), SimulatedMessage(s, c, x));
    ChallengesMeet(e, x.e1, n);
    RealHolds(s, value, r, c, (e - x.e1) % n, x);
    SimulatedHolds(s, c, x);
  }

  /** The verifier does not see which branch is the real one. */
  lemma BranchesSwap<P>(s: Setup<P>, c: P, p: Schnorr<P>, q: Schnorr<P>)
    requires s.g.order > 0
    ensures BitOk(s, BitProof(c, p, q, 0)) <==> BitOk(s, BitProof(c, q, p, 1))
    ensures Clear(s, BitProof(c, p, q, 0)) <==> Clear(s, BitProof(c, q, p, 1))
  {
    hide SchnorrOk;
    assert multiset{p.t, q.t} == multiset{q.t, p.t};
  }

  /** So is the proof of a bit. */
  lemma BitAcceptedIff<P(!new)>(s: Setup<P>, i: nat, b: int, r: int, c: P, x: Nonces)
    requires Sound(s) && s.g.order > 0 && (b == 0 || b == 1) && x.e1 < s.g.order
    requires c == s.g.add(Mul(s.g, b * Pow2(i), s.base), Mul(s.g, r, s.blind))
    ensures BitOk(s, ProveBit(s, i, b, r, c, x)) <==> Clear(s, ProveBit(s, i, b, r, c, x))
    ensures ProveBit(s, i, b, r, c, x).c == c && ProveBit(s, i, b, r, c, x).realBranch == b
  {
    hide Sound, Mul, BitOk, Clear, Pow2, RealProof, SimulatedProof, Challenge;
    var opening := ProveOpening(s, b * Pow2(i), r, c, x);
    OpeningAcceptedIff(s, b * Pow2(i), r, c, x);
    BranchesSwap(s, c, opening.proof0, opening.proof1);
  }

  // ---------------------------------------------------------------- the attestation

  datatype Message<P> = Message(state: string, commitment: P, lo: int, hi: int)

  /** An ideal signature names its key and what it signs. */
  datatype Signature<P> = Signature(key: nat, message: Message<P>)

  /** `pubkey` is absent when the certificate does not hold an Ed25519 key. */
  datatype Attestation<P> = Attestation(commitment: P, lo: int, hi: int, bits: seq<BitProof<P>>, sig: Signature<P>,
                                        pubkey: Option<nat>, state: string)

  function SumPoints<P>(g: Group<P>, bits: seq<BitProof<P>>): P
    decreases |bits|
  {
    if bits == [] then g.zero else g.add(SumPoints(g, bits[..|bits| - 1]), bits[|bits| - 1].c)
  }

  predicate SignatureOk<P(==)>(a: Attestation<P>) {
    a.pubkey.Some? && a.sig == Signature(a.pubkey.value, Message(a.state, a.commitment, a.lo, a.hi))
  }

  ghost predicate Accepts<P>(s: Setup<P>, a: Attestation<P>)
    requires s.g.order > 0
  {
    && SignatureOk(a)
    && a.commitment != s.g.zero && |a.bits| == RANGE_BITS
    && (forall i :: 0 <= i < |a.bits| ==> BitOk(s, a.bits[i]))
    && SumPoints(s.g, a.bits) == a.commitment
    && 0 <= a.lo <= a.hi < RANGE_END
  }

  method VerifyAll<P(==)>(s: Setup<P>, a: Attestation<P>) returns (ok: bool)
    requires s.g.order > 0
    ensures ok == Accepts(s, a)
    ensures ok ==> a.pubkey.Some? && a.sig == Signature(a.pubkey.value, Message(a.state, a.commitment, a.lo, a.hi))
                   && |a.bits| == 48 && 0 <= a.lo <= a.hi < 281474976710656
  {
    hide BitOk;
    if !SignatureOk(a) {
      return false;
    }
    if a.commitment == s.g.zero || |a.bits| != RANGE_BITS {
      return false;
    }
    var acc := s.g.zero;
    var i := 0;
    while i < |a.bits|
      invariant 0 <= i <= |a.bits|
      invariant forall j :: 0 <= j < i ==> BitOk(s, a.bits[j])
      invariant acc == SumPoints(s.g, a.bits[..i])
    {
      if !BitOk(s, a.bits[i]) {
        return false;
      }
      assert a.bits[..i + 1][..i] == a.bits[..i];
      acc := s.g.add(acc, a.bits[i].c);
      i := i + 1;
    }
    assert a.bits[..i] == a.bits;
    if acc != a.commitment {
      return false;
    }
    ok := 0 <= a.lo <= a.hi < RANGE_END;
  }

  // ---------------------------------------------------------------- what acceptance says

  /** A proof answers its challenge `e`, for the commitment `c`. */
  predicate Answers<P(==)>(s: Setup<P>, c: P, p: Schnorr<P>, e: int)
    requires s.g.order > 0
  {
    var lhs := s.g.add(Mul(s.g, p.s1, s.base), Mul(s.g, p.s2, s.blind));
    p.t != s.g.zero && lhs == s.g.add(p.t, Mul(s.g, e, c))
  }

  /** What every accepted bit comes to: challenges that add up to the oracle's, both answered, for a point other than
      the identity. */
  lemma BitOkIff<P>(s: Setup<P>, bit: BitProof<P>)
    requires s.g.order > 0
    ensures BitOk(s, bit) <==>
              && (bit.proof0.e + bit.proof1.e) % s.g.order
                 == s.oracle(bit.c, multiset{bit.proof0.t, bit.proof1.t}) % s.g.order
              && bit.c != s.g.zero && Answers(s, bit.c, bit.proof0, bit.proof0.e)
              && Answers(s, bit.c, bit.proof1, bit.proof1.e)
  {
    hide Times, SchnorrOk, Answers, Mul;
    AnswersIff(s, bit.c, bit.proof0);
    AnswersIff(s, bit.c, bit.proof1);
    ModSum(bit.proof0.e, bit.proof1.e, s.g.order);
  }

  lemma AnswersIff<P>(s: Setup<P>, c: P, p: Schnorr<P>)
    requires s.g.order > 0
    ensures SchnorrOk(s, c, p, p.e % s.g.order) <==> c != s.g.zero && Answers(s, c, p, p.e)
  {
    hide Times;
    ModTwice(p.s1, s.g.order);
    ModTwice(p.s2, s.g.order);
    ModTwice(p.e, s.g.order);
  }

  lemma ModTwice(x: int, n: int)
    requires n > 0
    ensures x % n % n == x % n
  {
  }

  /** The certificate's key signed exactly this state, commitment and range; the commitment is no identity and the sum
      of 48 bit commitments, each proved; the range lies below 2^48. All that is asked, and no less. */
  lemma AcceptsIff<P>(s: Setup<P>, a: Attestation<P>)
    requires s.g.order > 0
    ensures Accepts(s, a) <==>
              && a.pubkey == Some(a.sig.key)
              && a.sig.message.state == a.state && a.sig.message.commitment == a.commitment
              && a.sig.message.lo == a.lo && a.sig.message.hi == a.hi
              && a.commitment != s.g.zero && a.commitment == SumPoints(s.g, a.bits) && |a.bits| == 48
              && (forall i :: 0 <= i < 48 ==> BitOk(s, a.bits[i]))
              && 0 <= a.lo <= a.hi < 281474976710656
  {
    hide BitOk, SumPoints;
  }

  /** One signature serves one state, commitment and range: an attestation changed in any of them, or set under another
      key, is rejected under the signature it had. */
  lemma SignatureBinds<P>(s: Setup<P>, a: Attestation<P>, b: Attestation<P>)
    requires s.g.order > 0 && Accepts(s, a) && b.sig == a.sig
    requires (b.pubkey, b.state, b.commitment, b.lo, b.hi) != (a.pubkey, a.state, a.commitment, a.lo, a.hi)
    ensures !Accepts(s, b)
  {
    AcceptsIff(s, a);
    AcceptsIff(s, b);
    hide Accepts;
  }

  // ---------------------------------------------------------------- building one

  /** Python's `round` to an integer: halves to even. */
  function Round(x: real): int {
    var k := x.Floor;
    var rest := x - k as real;
    if rest < 0.5 || (rest == 0.5 && k % 2 == 0) then k else k + 1
  }

  function Bit(v: nat, i: nat): (b: int)
    ensures b == 0 || b == 1
  {
    v / Pow2(i) % 2
  }

  function Total(xs: seq<int>): int
    decreases |xs|
  {
    if xs == [] then 0 else Total(xs[..|xs| - 1]) + xs[|xs| - 1]
  }

  /** The blindings used: those drawn, but with the last made to bring their sum to `r`. */
  function Blindings(n: nat, r: nat, drawn: seq<nat>): (blinds: seq<nat>)
    requires n > 0 && |drawn| == RANGE_BITS
    ensures |blinds| == RANGE_BITS
  {
    drawn[..RANGE_BITS - 1] + [(r - Total(drawn[..RANGE_BITS - 1])) % n]
  }

  function BitCommitment<P(==)>(s: Setup<P>, v: nat, i: nat, r: nat): P
    requires s.g.order > 0
  {
    Commit(s, Bit(v, i) * Pow2(i), r)
  }

  function BitProofs<P(==)>(s: Setup<P>, v: nat, blinds: seq<nat>, xs: seq<Nonces>, k: nat): (bits: seq<BitProof<P>>)
    requires s.g.order > 0 && k <= |blinds| && k <= |xs|
    ensures |bits| == k
    ensures forall i :: 0 <= i < k ==>
              bits[i] == ProveBit(s, i, Bit(v, i), blinds[i], BitCommitment(s, v, i, blinds[i]), xs[i])
  {
    seq(k, i requires 0 <= i < k => ProveBit(s, i, Bit(v, i), blinds[i], BitCommitment(s, v, i, blinds[i]), xs[i]))
  }

  function Built<P(==)>(s: Setup<P>, v: nat, state: string, key: nat, pubkey: Option<nat>, r: nat, drawn: seq<nat>,
                        xs: seq<Nonces>): Attestation<P>
    requires s.g.order > 0 && |drawn| == |xs| == RANGE_BITS
  {
    var c := Commit(s, v, r);
    Attestation(c, 0, V_SCALE, BitProofs(s, v, Blindings(s.g.order, r, drawn), xs, RANGE_BITS),
                Signature(key, Message(state, c, 0, V_SCALE)), pubkey, state)
  }

  /** It is the nearest integer, and the even one of two. */
  lemma RoundsToNearest(x: real)
    ensures AbsR(Round(x) as real - x) <= 0.5
    ensures AbsR(Round(x) as real - x) == 0.5 ==> Round(x) % 2 == 0
  {
  }

  /** What is attested for a prior is the prior in units of 2^-40, to within half a unit. */
  lemma AttestsPrior(prior: real)
    ensures AbsR(Round(prior * V_SCALE as real) as real - prior * 1099511627776.0) <= 0.5
  {
    RoundsToNearest(prior * V_SCALE as real);
    hide Round;
  }

  lemma RoundWithin(prior: real)
    requires 0.0 <= prior <= 1.0
    ensures 0 <= Round(prior * V_SCALE as real) <= V_SCALE
  {
    var x := prior * V_SCALE as real;
    assert 0.0 <= x <= V_SCALE as real;
  }

  /** Attest a prior, or raise if it is not a probability. `r`, `drawn` and `xs` are what the deterministic
      generator yields. */
  method Build<P(!new, ==)>(s: Setup<P>, prior: real, state: string, key: nat, pubkey: Option<nat>, r: nat,
                            drawn: seq<nat>, xs: seq<Nonces>) returns (a: Option<Attestation<P>>)
    requires Sound(s) && s.g.order > 0 && |drawn| == |xs| == RANGE_BITS
    ensures a.Some? <==> 0.0 <= prior <= 1.0
    ensures a.Some? ==> var v := Round(prior * V_SCALE as real);
                        0 <= v <= V_SCALE && a.value == Built(s, v, state, key, pubkey, r, drawn, xs)
  {
    hide Lawful, ProveBit, Bit, Mul;
    if !(0.0 <= prior <= 1.0) {
      return None;
    }
    RoundWithin(prior);
    var v := Round(prior * V_SCALE as real);
    var n := s.g.order;
    var vG := EcMul(s.g, v % n, s.base);
    var rH := EcMul(s.g, r % n, s.blind);
    var c := s.g.add(vG, rH);
    var blinds := Blindings(n, r, drawn);
    var bits: seq<BitProof<P>> := [];
    var i := 0;
    while i < RANGE_BITS
      invariant 0 <= i <= RANGE_BITS
      invariant bits == BitProofs(s, v, blinds, xs, i)
    {
      var b := Bit(v, i);
      var bG := EcMul(s.g, (b * Pow2(i)) % n, s.base);
      var bH := EcMul(s.g, blinds[i] % n, s.blind);
      bits := bits + [ProveBit(s, i, b, blinds[i], s.g.add(bG, bH), xs[i])];
      i := i + 1;
    }
    a := Some(Attestation(c, 0, V_SCALE, bits, Signature(key, Message(state, c, 0, V_SCALE)), pubkey, state));
  }

  // ---------------------------------------------------------------- completeness

  /** The low bits of a number, weighted, make up its remainder. */
  lemma LowBits(v: nat, k: nat)
    ensures v % Pow2(k + 1) == v % Pow2(k) + Bit(v, k) * Pow2(k)
  {
    var p: int := Pow2(k);
    var q, r := v / p, v % p;
    var h, b := q / 2, q % 2;
    Divided(v, p);
    Carries(h, b, p, q);
    assert Pow2(k + 1) == 2 * p;
    if b == 0 {
      ModUnique(v, h, r, 2 * p);
    } else {
      ModUnique(v, h, p + r, 2 * p);
    }
  }

  lemma Carries(h: int, b: int, p: int, q: int)
    requires q == 2 * h + b
    ensures q * p == h * (2 * p) + b * p
  {
  }

  lemma TotalOne(xs: seq<int>, x: int)
    ensures Total(xs + [x]) == Total(xs) + x
  {
    assert (xs + [x])[..|xs|] == xs;
  }

  lemma SumOne<P>(g: Group<P>, bits: seq<BitProof<P>>, b: BitProof<P>)
    ensures SumPoints(g, bits + [b]) == g.add(SumPoints(g, bits), b.c)
  {
    assert (bits + [b])[..|bits|] == bits;
  }

  lemma CommitIs<P(!new)>(s: Setup<P>, v: int, r: int)
    requires Sound(s) && s.g.order > 0
    ensures Commit(s, v, r) == s.g.add(Mul(s.g, v, s.base), Mul(s.g, r, s.blind))
  {
    MulMod(s.g, v, s.base);
    MulMod(s.g, r, s.blind);
  }

  /** Commitments add up: values with values, blindings with blindings. */
  lemma CommitAdds<P(!new)>(s: Setup<P>, v: int, r: int, w: int, q: int)
    requires Sound(s) && s.g.order > 0
    ensures s.g.add(Commit(s, v, r), Commit(s, w, q)) == Commit(s, v + w, r + q)
  {
    hide Lawful, Mul;
    var g := s.g;
    CommitIs(s, v, r);
    CommitIs(s, w, q);
    CommitIs(s, v + w, r + q);
    Swap(g, Mul(g, v, s.base), Mul(g, r, s.blind), Mul(g, w, s.base), Mul(g, q, s.blind));
    MulAdd(g, v, w, s.base);
    MulAdd(g, r, q, s.blind);
  }

  lemma CommitNothing<P(!new)>(s: Setup<P>)
    requires Sound(s) && s.g.order > 0
    ensures Commit(s, 0, 0) == s.g.zero
  {
    hide Lawful, Mul;
    CommitIs(s, 0, 0);
    MulNothing(s.g, s.base);
    MulNothing(s.g, s.blind);
    Zero(s.g, s.g.zero);
  }

  /** So commitments add up to one to the sum of their values under the sum of their blindings. */
  lemma {:induction false} PointsAddUp<P(!new)>(s: Setup<P>, bits: seq<BitProof<P>>, values: seq<int>, blinds: seq<int>)
    requires Sound(s) && s.g.order > 0 && |bits| == |values| == |blinds|
    requires forall i :: 0 <= i < |bits| ==> bits[i].c == Commit(s, values[i], blinds[i])
    ensures SumPoints(s.g, bits) == Commit(s, Total(values), Total(blinds))
    decreases |bits|
  {
    hide Sound, Commit;
    if bits == [] {
      CommitNothing(s);
    } else {
      var n := |bits| - 1;
      PointsAddUp(s, bits[..n], values[..n], blinds[..n]);
      CommitAdds(s, Total(values[..n]), Total(blinds[..n]), values[n], blinds[n]);
    }
  }

  function WeightedBits(v: nat, k: nat): (values: seq<int>)
    ensures |values| == k && forall i :: 0 <= i < k ==> values[i] == Bit(v, i) * Pow2(i)
  {
    seq(k, i requires 0 <= i < k => Bit(v, i) * Pow2(i))
  }

  lemma {:induction false} WeightedBitsTotal(v: nat, k: nat)
    ensures Total(WeightedBits(v, k)) == v % Pow2(k)
  {
    hide Bit;
    if k == 0 {
      assert WeightedBits(v, 0) == [];
    } else {
      WeightedBitsTotal(v, k - 1);
      assert WeightedBits(v, k) == WeightedBits(v, k - 1) + [Bit(v, k - 1) * Pow2(k - 1)];
      TotalOne(WeightedBits(v, k - 1), Bit(v, k - 1) * Pow2(k - 1));
      LowBits(v, k - 1);
    }
  }

  lemma RangeIs()
    ensures Pow2(RANGE_BITS) == RANGE_END
  {
    assert Pow2(8) == 256;
    assert Pow2(16) == 65536;
    assert Pow2(24) == 16777216;
    assert Pow2(32) == 4294967296;
    assert Pow2(40) == V_SCALE;
  }

  /** The fixed-up last blinding brings the sum of the blindings to `r`, modulo the order. */
  lemma BlindingsSum(n: nat, r: nat, drawn: seq<nat>)
    requires n > 0 && |drawn| == RANGE_BITS
    ensures Total(Blindings(n, r, drawn)) % n == r % n
  {
    var init := drawn[..RANGE_BITS - 1];
    var t: int := Total(init);
    TotalOne(init, (r - t) % n);
    hide Total;
    var q := (r - t) / n;
    Divided(r - t, n);
    Negated(q, n);
    assert t + (r - t) % n == r + -q * n;
    ModShift(r, -q, n);
  }

  /** The bit commitments add up to the commitment itself. */
  lemma CommitmentsMeet<P(!new)>(s: Setup<P>, v: nat, r: nat, drawn: seq<nat>, xs: seq<Nonces>)
    requires Sound(s) && s.g.order > 0 && v <= V_SCALE && |drawn| == |xs| == RANGE_BITS
    ensures SumPoints(s.g, BitProofs(s, v, Blindings(s.g.order, r, drawn), xs, RANGE_BITS)) == Commit(s, v, r)
  {
    hide Lawful, Mul, Pow2, Blindings, Total, SumPoints, Bit, Challenge, RealProof, SimulatedProof;
    var blinds := Blindings(s.g.order, r, drawn);
    PointsAddUp(s, BitProofs(s, v, blinds, xs, RANGE_BITS), WeightedBits(v, RANGE_BITS), blinds);
    WeightedBitsTotal(v, RANGE_BITS);
    RangeIs();
    assert v % RANGE_END == v;
    BlindingsSum(s.g.order, r, drawn);
  }

  /** No point of the attestation is the identity. */
  predicate NoIdentity<P(==)>(s: Setup<P>, a: Attestation<P>) {
    a.commitment != s.g.zero && forall i :: 0 <= i < |a.bits| ==> Clear(s, a.bits[i])
  }

  /** Completeness: an attestation built for any prior, with any scalars drawn, is accepted exactly when
      the certificate's key is the one that signed and no point is the identity. */
  lemma BuiltAcceptedIff<P(!new)>(s: Setup<P>, v: nat, state: string, key: nat, pubkey: Option<nat>, r: nat,
                                  drawn: seq<nat>, xs: seq<Nonces>)
    requires Sound(s) && s.g.order > 0 && v <= V_SCALE && |drawn| == |xs| == RANGE_BITS
    requires forall i :: 0 <= i < RANGE_BITS ==> xs[i].e1 < s.g.order
    ensures var a := Built(s, v, state, key, pubkey, r, drawn, xs);
            Accepts(s, a) <==> pubkey == Some(key) && NoIdentity(s, a)
  {
    hide Sound, BitOk, Accepts, NoIdentity, Clear, Commit, Blindings, BitProofs, SumPoints;
    CommitmentsMeet(s, v, r, drawn, xs);
    BuiltBitsIff(s, v, Blindings(s.g.order, r, drawn), xs);
    AcceptsOnly(s, Built(s, v, state, key, pubkey, r, drawn, xs));
  }

  /** Whatever adds up, is in range, and is accepted bit by bit unless some point is the identity. */
  lemma AcceptsOnly<P>(s: Setup<P>, a: Attestation<P>)
    requires s.g.order > 0 && |a.bits| == RANGE_BITS && SumPoints(s.g, a.bits) == a.commitment && a.lo == 0
             && a.hi == V_SCALE
    requires forall i :: 0 <= i < |a.bits| ==> (BitOk(s, a.bits[i]) <==> Clear(s, a.bits[i]))
    ensures Accepts(s, a) <==> SignatureOk(a) && NoIdentity(s, a)
  {
    hide BitOk, Clear, SignatureOk, SumPoints;
  }

  lemma BuiltBitsIff<P(!new)>(s: Setup<P>, v: nat, blinds: seq<nat>, xs: seq<Nonces>)
    requires Sound(s) && s.g.order > 0 && |blinds| == |xs| == RANGE_BITS
    requires forall i :: 0 <= i < RANGE_BITS ==> xs[i].e1 < s.g.order
    ensures var bits := BitProofs(s, v, blinds, xs, RANGE_BITS);
            forall i :: 0 <= i < |bits| ==> (BitOk(s, bits[i]) <==> Clear(s, bits[i]))
  {
    hide Sound, BitOk, Clear, ProveBit, BitCommitment, Bit;
    var bits := BitProofs(s, v, blinds, xs, RANGE_BITS);
    forall i | 0 <= i < |bits|
      ensures BitOk(s, bits[i]) <==> Clear(s, bits[i])
    {
      BuiltBitIff(s, v, i, blinds[i], xs[i]);
    }
  }

  lemma BuiltBitIff<P(!new)>(s: Setup<P>, v: nat, i: nat, r: nat, x: Nonces)
    requires Sound(s) && s.g.order > 0 && x.e1 < s.g.order
    ensures var bit := ProveBit(s, i, Bit(v, i), r, BitCommitment(s, v, i, r), x); BitOk(s, bit) <==> Clear(s, bit)
  {
    hide Sound, Mul, BitOk, Clear, Commit, Bit, ProveBit, Pow2;
    CommitIs(s, Bit(v, i) * Pow2(i), r);
    BitAcceptedIff(s, i, Bit(v, i), r, BitCommitment(s, v, i, r), x);
  }

  // ---------------------------------------------------------------- what acceptance does not say

  function OpeningProofs<P(==)>(s: Setup<P>, values: seq<int>, blinds: seq<int>, xs: seq<Nonces>)
    : (bits: seq<BitProof<P>>)
    requires s.g.order > 0 && |values| == |blinds| == |xs|
    ensures |bits| == |xs|
    ensures forall i :: 0 <= i < |xs| ==>
              bits[i] == ProveOpening(s, values[i], blinds[i], Commit(s, values[i], blinds[i]), xs[i])
  {
    seq(|xs|, i requires 0 <= i < |xs| => ProveOpening(s, values[i], blinds[i], Commit(s, values[i], blinds[i]), xs[i]))
  }

  /** An attestation of the sum of any 48 integers, each committed to and opened on its own. */
  function Opened<P(==)>(s: Setup<P>, values: seq<int>, blinds: seq<int>, xs: seq<Nonces>, state: string, key: nat,
                         pubkey: Option<nat>): Attestation<P>
    requires s.g.order > 0 && |values| == |blinds| == |xs|
  {
    var c := Commit(s, Total(values), Total(blinds));
    Attestation(c, 0, V_SCALE, OpeningProofs(s, values, blinds, xs), Signature(key, Message(state, c, 0, V_SCALE)),
                pubkey, state)
  }

  /** It is accepted on the very same condition, so acceptance says nothing of the range of the value. */
  lemma OpenedAcceptedIff<P(!new)>(s: Setup<P>, values: seq<int>, blinds: seq<int>, xs: seq<Nonces>, state: string,
                                   key: nat, pubkey: Option<nat>)
    requires Sound(s) && s.g.order > 0 && |values| == |blinds| == |xs| == RANGE_BITS
    requires forall i :: 0 <= i < RANGE_BITS ==> xs[i].e1 < s.g.order
    ensures var a := Opened(s, values, blinds, xs, state, key, pubkey);
            Accepts(s, a) <==> pubkey == Some(key) && NoIdentity(s, a)
  {
    hide Sound, BitOk, Accepts, NoIdentity, Clear, Commit, SumPoints, Total, Challenge, RealProof, SimulatedProof;
    var bits := OpeningProofs(s, values, blinds, xs);
    PointsAddUp(s, bits, values, blinds);
    forall i | 0 <= i < |bits|
      ensures BitOk(s, bits[i]) <==> Clear(s, bits[i])
    {
      CommitIs(s, values[i], blinds[i]);
      OpeningAcceptedIff(s, values[i], blinds[i], Commit(s, values[i], blinds[i]), xs[i]);
    }
    AcceptsOnly(s, Opened(s, values, blinds, xs, state, key, pubkey));
  }

  /** A commitment to any integer at all, negative or beyond the range, has such an attestation. */
  lemma AnyValueAttested<P(!new)>(s: Setup<P>, value: int, r: nat, drawn: seq<nat>, xs: seq<Nonces>, state: string,
                                  key: nat)
    requires Sound(s) && s.g.order > 0 && |drawn| == |xs| == RANGE_BITS
    requires forall i :: 0 <= i < RANGE_BITS ==> xs[i].e1 < s.g.order
    ensures var a := Opened(s, JustFirst(value), Blindings(s.g.order, r, drawn), xs, state, key, Some(key));
            a.commitment == Commit(s, value, r) && (Accepts(s, a) <==> NoIdentity(s, a))
  {
    var values, blinds := JustFirst(value), Blindings(s.g.order, r, drawn);
    hide Sound, Accepts, NoIdentity, Mul, Blindings, OpeningProofs;
    JustFirstTotal(value, RANGE_BITS);
    assert values[..RANGE_BITS] == values;
    BlindingsSum(s.g.order, r, drawn);
    OpenedAcceptedIff(s, values, blinds, xs, state, key, Some(key));
  }

  function JustFirst(value: int): (values: seq<int>)
    ensures |values| == RANGE_BITS && values[0] == value && forall i :: 0 < i < RANGE_BITS ==> values[i] == 0
  {
    seq(RANGE_BITS, i => if i == 0 then value else 0)
  }

  lemma {:induction false} JustFirstTotal(value: int, k: nat)
    requires 0 < k <= RANGE_BITS
    ensures Total(JustFirst(value)[..k]) == value
  {
    var xs := JustFirst(value);
    assert xs[..k][..k - 1] == xs[..k - 1];
    if k == 1 {
      assert xs[..0] == [];
    } else {
      JustFirstTotal(value, k - 1);
    }
  }
}
