/** What a run of the authority protocol leaves, told from its steps alone: who is known, who is revoked, and what
    the certificate on file says (fleet/layers/registry.py, gateway.py, policy.py, __init__.py). */
module AuthorityRuns {
  import opened Wrappers
  import opened Authority
  import opened AuthorityLaws

  // ---------------------------------------------------------------- one agent by itself

  /** Where an agent stands: what its certificate says, and whether it is revoked. */
  datatype Standing = Standing(role: string, capabilities: seq<string>, issuedAt: int, expiresAt: int, number: int,
                               revoked: bool)

  function ClockOf(ops: seq<Op>): int
    decreases |ops|
  {
    if ops == [] then 0
    else if ops[|ops| - 1].SetsClock? then ops[|ops| - 1].now
    else ClockOf(ops[..|ops| - 1])
  }

  function StandingOf(ops: seq<Op>, a: string): Option<Standing>
    decreases |ops|
  {
    if ops == [] then None
    else StandingAfter(StandingOf(ops[..|ops| - 1], a), ops[|ops| - 1], a, ClockOf(ops[..|ops| - 1]))
  }

  /** One step, as far as agent `a` is concerned: publishing starts its numbers over but leaves it revoked if it was;
      rotating lifts a revocation; rotating the root does not. */
  function StandingAfter(was: Option<Standing>, op: Op, a: string, now: int): Option<Standing> {
    match op
    case Publishes(agent, role, capabilities, ttl) =>
      if agent != a || role !in ["researcher", "analyst", "operator", "human", "tool"] then was
      else Some(Standing(role, capabilities, now, now + ttl, 0, was.Some? && was.value.revoked))
    case Revokes(agent) => if agent != a || was.None? then was else Some(was.value.(revoked := true))
    case Rotates(agent, ttl) => if agent != a || was.None? then was else Some(Renewed(was.value, now, ttl, false))
    case RotatesRoot(ttl) => if was.None? then was else Some(Renewed(was.value, now, ttl, was.value.revoked))
    case _ => was
  }

  function Renewed(was: Standing, now: int, ttl: int, revoked: bool): Standing {
    Standing(was.role, was.capabilities, now, now + ttl, was.number + 1, revoked)
  }

  /** The registry says of an agent what its standing does. */
  predicate Agrees(w: World, a: string, s: Option<Standing>) {
    && (a in w.certs <==> s.Some?) && (a in w.revoked <==> s.Some? && s.value.revoked)
    && (s.Some? ==>
          var b := w.certs[a].body;
          && b.agent == a && b.role == s.value.role && b.capabilities == s.value.capabilities
          && b.issuedAt == s.value.issuedAt && b.expiresAt == s.value.expiresAt && b.certSeq == s.value.number)
  }

  lemma StepAgrees(w: World, op: Op, a: string, s: Option<Standing>)
    requires Good(w) && Agrees(w, a, s)
    ensures Agrees(Step(w, op), a, StandingAfter(s, op, a, w.now))
  {
    hide Good, Agrees, StandingAfter, Publish, Revoke, Rotate, RotateRoot, Ask;
    match op
    case Publishes(agent, role, capabilities, ttl) => PublishAgrees(w, op, a, s);
    case Revokes(agent) => RevokeAgrees(w, op, a, s);
    case Rotates(agent, ttl) => RotateAgrees(w, op, a, s);
    case RotatesRoot(ttl) => RootAgrees(w, op, a, s);
    case SetsClock(now) => SameAgrees(w, w.(now := now), op, a, s);
    case Asks(cert, capability, key) =>
      AskTouches(w, cert, capability, key);
      SameAgrees(w, Ask(w, cert, capability, key).1, op, a, s);
  }

  lemma PublishAgrees(w: World, op: Op, a: string, s: Option<Standing>)
    requires Agrees(w, a, s) && op.Publishes?
    ensures Agrees(Publish(w, op.agent, op.role, op.capabilities, op.ttl), a, StandingAfter(s, op, a, w.now))
  {
  }

  lemma RevokeAgrees(w: World, op: Op, a: string, s: Option<Standing>)
    requires Agrees(w, a, s) && op.Revokes?
    ensures Agrees(Revoke(w, op.agent), a, StandingAfter(s, op, a, w.now))
  {
  }

  lemma RotateAgrees(w: World, op: Op, a: string, s: Option<Standing>)
    requires Good(w) && Agrees(w, a, s) && op.Rotates?
    ensures Agrees(Rotate(w, op.agent, op.ttl), a, StandingAfter(s, op, a, w.now))
  {
    assert op.agent in w.certs ==> w.certs[op.agent].body.agent == op.agent;
    hide Good;
  }

  lemma RootAgrees(w: World, op: Op, a: string, s: Option<Standing>)
    requires Good(w) && Agrees(w, a, s) && op.RotatesRoot?
    ensures Agrees(RotateRoot(w, op.ttl), a, StandingAfter(s, op, a, w.now))
  {
    hide Good, RotateRoot, MidRotation;
    RootMoves(w, op.ttl);
  }

  lemma SameAgrees(w: World, v: World, op: Op, a: string, s: Option<Standing>)
    requires Agrees(w, a, s) && (op.SetsClock? || op.Asks?)
    requires v.certs == w.certs && v.revoked == w.revoked
    ensures Agrees(v, a, StandingAfter(s, op, a, w.now))
  {
  }

  lemma StepClock(w: World, op: Op)
    requires Good(w)
    ensures Step(w, op).now == if op.SetsClock? then op.now else w.now
  {
    hide Good, RotateRoot, Ask;
    match op
    case RotatesRoot(ttl) =>
      RootMoves(w, ttl);
    case Asks(cert, capability, key) =>
      AskTouches(w, cert, capability, key);
    case _ =>
  }

  /** After any run the registry holds for each agent exactly what its own steps, the root rotations and the clock
      make of it. */
  lemma {:induction false} FileIsStanding(ops: seq<Op>, a: string)
    ensures Run(GENESIS, ops).now == ClockOf(ops)
    ensures Agrees(Run(GENESIS, ops), a, StandingOf(ops, a))
    decreases |ops|
  {
    hide Step, Agrees, StandingAfter, Good;
    if ops == [] {
      StartsUnknown(a);
    } else {
      var n := |ops| - 1;
      FileIsStanding(ops[..n], a);
      RunIsGood(ops[..n]);
      StepClock(Run(GENESIS, ops[..n]), ops[n]);
      StepAgrees(Run(GENESIS, ops[..n]), ops[n], a, StandingOf(ops[..n], a));
    }
  }

  lemma StartsUnknown(a: string)
    ensures Agrees(GENESIS, a, None)
  {
  }

  /** An agent is live exactly if its standing is unrevoked and the clock has not reached its expiry. */
  lemma LiveIff(ops: seq<Op>, a: string)
    ensures var s := StandingOf(ops, a);
            Discover(Run(GENESIS, ops), a).Some? <==> s.Some? && !s.value.revoked && ClockOf(ops) < s.value.expiresAt
  {
    FileIsStanding(ops, a);
    RunIsGood(ops);
    hide Run, StandingOf, ClockOf, SigsOk, CacheOk;
    DiscoverIff(Run(GENESIS, ops), a);
  }

  // ---------------------------------------------------------------- known and revoked

  /** `a` is published, under a role there is, before step `n`. */
  ghost predicate Introduced(ops: seq<Op>, n: nat, a: string)
    requires n <= |ops|
  {
    exists h :: 0 <= h < n && ops[h].Publishes? && ops[h].agent == a
                && ops[h].role in ["researcher", "analyst", "operator", "human", "tool"]
  }

  /** Step `i` revokes `a`, who is known by then, and no later step rotates it. */
  ghost predicate RevokedAt(ops: seq<Op>, i: nat, a: string)
    requires i < |ops|
  {
    && ops[i] == Revokes(a) && Introduced(ops, i, a)
    && forall j :: i < j < |ops| ==> !(ops[j].Rotates? && ops[j].agent == a)
  }

  ghost predicate RevokedBy(ops: seq<Op>, a: string) { exists i :: 0 <= i < |ops| && RevokedAt(ops, i, a) }

  lemma IntroducedMore(ops: seq<Op>, m: nat, n: nat, a: string)
    requires n <= m <= |ops|
    ensures Introduced(ops[..m], n, a) <==> Introduced(ops, n, a)
  {
    if Introduced(ops, n, a) {
      var h :| 0 <= h < n && ops[h].Publishes? && ops[h].agent == a
               && ops[h].role in ["researcher", "analyst", "operator", "human", "tool"];
      assert ops[..m][h] == ops[h];
    }
  }

  lemma {:induction false} KnownIff(ops: seq<Op>, a: string)
    ensures StandingOf(ops, a).Some? <==> Introduced(ops, |ops|, a)
    decreases |ops|
  {
    if ops != [] {
      var n := |ops| - 1;
      KnownIff(ops[..n], a);
      IntroducedMore(ops, n, n, a);
      IntroducedOne(ops, n, a);
    }
  }

  lemma IntroducedOne(ops: seq<Op>, n: nat, a: string)
    requires |ops| == n + 1
    ensures Introduced(ops, n + 1, a)
            <==> Introduced(ops, n, a) || (ops[n].Publishes? && ops[n].agent == a
                   && ops[n].role in ["researcher", "analyst", "operator", "human", "tool"])
  {
  }

  lemma RevokedOne(ops: seq<Op>, n: nat, a: string)
    requires |ops| == n + 1
    ensures RevokedBy(ops, a)
            <==> || (ops[n] == Revokes(a) && Introduced(ops, n, a))
                 || (RevokedBy(ops[..n], a) && !(ops[n].Rotates? && ops[n].agent == a))
  {
    if RevokedBy(ops, a) {
      var i :| 0 <= i < |ops| && RevokedAt(ops, i, a);
      if i < n {
        IntroducedMore(ops, n, i, a);
        assert RevokedAt(ops[..n], i, a);
      }
    }
    if RevokedBy(ops[..n], a) && !(ops[n].Rotates? && ops[n].agent == a) {
      var i :| 0 <= i < n && RevokedAt(ops[..n], i, a);
      IntroducedMore(ops, n, i, a);
      forall j | i < j < |ops|
        ensures !(ops[j].Rotates? && ops[j].agent == a)
      {
        if j < n {
          assert ops[..n][j] == ops[j];
        }
      }
      assert RevokedAt(ops, i, a);
    }
    if ops[n] == Revokes(a) && Introduced(ops, n, a) {
      assert RevokedAt(ops, n, a);
    }
  }

  lemma {:induction false} StandingRevoked(ops: seq<Op>, a: string)
    ensures (StandingOf(ops, a).Some? && StandingOf(ops, a).value.revoked) <==> RevokedBy(ops, a)
    decreases |ops|
  {
    if ops != [] {
      hide RevokedBy, Introduced;
      var n := |ops| - 1;
      StandingRevoked(ops[..n], a);
      KnownIff(ops[..n], a);
      IntroducedMore(ops, n, n, a);
      assert ops[..n][..n] == ops[..n];
      RevokedOne(ops, n, a);
    } else {
      assert !RevokedBy(ops, a);
    }
  }

  /** An agent is revoked exactly if some step revoked it while it was known and none has rotated it since. */
  lemma RevokedIff(ops: seq<Op>, a: string)
    ensures a in Run(GENESIS, ops).revoked <==> RevokedBy(ops, a)
    ensures a in Run(GENESIS, ops).rootRevoked <==> RevokedBy(ops, a)
  {
    FileIsStanding(ops, a);
    StandingRevoked(ops, a);
    RunIsGood(ops);
    hide Run, StandingOf, RevokedBy, SigsOk, CacheOk;
  }

  /** A revoked agent is granted nothing: under no certificate, for no capability, fresh or from the cache. */
  lemma RevokedIsRefused(ops: seq<Op>, c: Cert, capability: string, key: Option<string>)
    requires RevokedBy(ops, c.body.agent)
    ensures !Ask(Run(GENESIS, ops), c, capability, key).0.granted
  {
    RevokedIff(ops, c.body.agent);
    hide Run, RevokedBy, Ask;
    if Ask(Run(GENESIS, ops), c, capability, key).0.granted {
      GrantedIsAuthentic(Run(GENESIS, ops), c, capability, key);
    }
  }

  /** Nor is one whose certificate has expired, or who was never published. */
  lemma ExpiredIsRefused(ops: seq<Op>, c: Cert, capability: string, key: Option<string>)
    requires var s := StandingOf(ops, c.body.agent); s.None? || ClockOf(ops) >= s.value.expiresAt
    ensures !Ask(Run(GENESIS, ops), c, capability, key).0.granted
  {
    LiveIff(ops, c.body.agent);
    hide Run, StandingOf, ClockOf, Ask, Discover;
    if Ask(Run(GENESIS, ops), c, capability, key).0.granted {
      GrantedIsAuthentic(Run(GENESIS, ops), c, capability, key);
    }
  }

  // ---------------------------------------------------------------- the policy

  /** Who may do what: each capability belongs to one role, and only an operator's writes to customers need a human. */
  const POLICY: map<string, string> :=
    map["emit_evidence" := "researcher", "qualify" := "analyst", "verify_gate" := "analyst",
        "prepare_artifact" := "operator", "crm_write" := "operator", "outreach_send" := "operator",
        "incident_remediate" := "operator", "trade_execute" := "operator", "approve_deny" := "human",
        "tool_result" := "tool"]

  lemma PolicyIs(role: string, capability: string)
    ensures Decide(role, capability) != DENY <==> capability in POLICY && POLICY[capability] == role
    ensures Decide(role, capability) == REQUIRE_APPROVAL
            <==> role == "operator" && (capability == "crm_write" || capability == "outreach_send")
  {
    assert capability in RoleCaps(role) ==> capability in POLICY.Keys;
  }

  // ---------------------------------------------------------------- the audit log

  /** What a step enters in the audit log. A replayed request, a change of the clock and a step that raises enter
      nothing. */
  lemma StepLogged(w: World, op: Op)
    requires Good(w)
    ensures var before, after := w.log, Step(w, op).log;
            match op
            case Publishes(agent, role, capabilities, _) =>
              after == before + if role in ROLES then [Published(agent, role, capabilities)] else []
            case Revokes(agent) => after == before + if agent in w.certs then [Revoked(agent)] else []
            case Rotates(agent, _) =>
              after == before + if agent in w.certs then [Rotated(agent, w.certs[agent].body.certSeq + 1)] else []
            case RotatesRoot(_) => after == before + [RootRotated(w.epoch, w.epoch + 1)]
            case SetsClock(_) => after == before
            case Asks(cert, capability, key) => AsksLogged(before, after, w, cert, capability, key)
  {
    hide SigsOk, CacheOk, RotateRoot, Ask, AsksLogged;
    match op
    case RotatesRoot(ttl) =>
      RootMoves(w, ttl);
    case Asks(cert, capability, key) =>
      AskLogged(w, cert, capability, key);
    case _ =>
  }

  predicate AsksLogged(before: seq<Entry>, after: seq<Entry>, w: World, c: Cert, capability: string,
                       key: Option<string>)
  {
    if Replays(w, c, key) then after == before
    else if Ask(w, c, capability, key).0.granted then
      after == before + [Granted(c.body.agent, capability, "cap:" + c.body.role + ":" + capability,
                                 capability == "crm_write" || capability == "outreach_send")]
    else
      after == before + [Denied(c.body.agent, capability, if Authentic(w, c) then NotPermitted(c.body.role, capability)
                                                          else NotAuthenticated)]
  }

  lemma AskLogged(w: World, c: Cert, capability: string, key: Option<string>)
    ensures AsksLogged(w.log, Ask(w, c, capability, key).1.log, w, c, capability, key)
  {
    PolicyIs(c.body.role, capability);
    if key.Some? {
      CacheAside(w, w.cache - {key.value}, c);
    }
    hide Authentic, Decide, Replays;
  }

  /** Whether a certificate is good does not hang on what is cached. */
  lemma CacheAside(w: World, cache: map<string, Cached>, c: Cert)
    ensures Authentic(w.(cache := cache), c) <==> Authentic(w, c)
  {
  }
}
