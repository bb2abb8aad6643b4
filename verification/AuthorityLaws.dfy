/** What the authority protocol keeps over every run. */
module AuthorityLaws {
  import opened Wrappers
  import opened Authority

  // ---------------------------------------------------------------- the registry's invariant

  /** Signatures name their own key pair, and were made by a root there has been, for an agent on file
      and a known role. */
  ghost predicate SigsOk(w: World) {
    forall i :: 0 <= i < |w.sigs| ==>
      && w.sigs[i].body.pubkey == i && w.sigs[i].epoch <= w.epoch
      && w.sigs[i].body.agent in w.certs && w.sigs[i].body.role in ROLES
  }

  /** Every certificate on file is its agent's own, and signed by the current root. */
  ghost predicate CertsOk(w: World) {
    && (forall a :: a in w.certs ==>
        w.certs[a].body.agent == a && IsSigned(w.sigs, w.epoch, w.certs[a]) && w.certs[a].body.role in ROLES)
    && (forall a :: a in w.agents <==> a in w.certs)
    && w.rootRevoked == w.revoked && (forall a :: a in w.revoked ==> a in w.certs)
    && (forall i, j :: 0 <= i < j < |w.agents| ==> w.agents[i] != w.agents[j])
  }

  /** The certificate on file is the newest one ever signed for the agent, and the only one with its number. */
  ghost predicate Newest(w: World, a: string) {
    a in w.certs ==>
      forall i :: 0 <= i < |w.sigs| && w.sigs[i].body.agent == a ==>
        w.sigs[i].body.certSeq < w.certs[a].body.certSeq || w.sigs[i].body == w.certs[a].body
  }

  /** A remembered grant was given to a certificate of the current root whose role has the capability; a
      remembered refusal is in the audit log. */
  ghost predicate Remembered(w: World, m: Cached) {
    && m.agent == m.response.agent && m.certSeq == m.response.certSeq
    && (m.response.granted ==> (exists i: nat :: GivenTo(w, m, i)) && GrantInLog(w.log, m.response))
    && (!m.response.granted ==> InLog(w.log, m.response))
  }

  predicate GivenTo(w: World, m: Cached, i: nat) {
    && i < |w.sigs| && w.sigs[i].epoch == w.epoch && w.sigs[i].body.agent == m.agent
    && w.sigs[i].body.certSeq == m.certSeq && Permits(w.sigs[i].body.role, m.response)
  }

  /** The response grants what the role may do, and asks for approval exactly if the policy does. */
  predicate Permits(role: string, r: Response) {
    && Decide(role, r.capability) != DENY && r.decision == Decide(role, r.capability)
    && (r.needsApproval <==> Decide(role, r.capability) == REQUIRE_APPROVAL)
    && r.policyId == PolicyId(role, r.capability) && r.why.None? && r.denial.None?
  }

  predicate GrantInLog(log: seq<Entry>, r: Response) {
    Granted(r.agent, r.capability, r.policyId, r.needsApproval) in log
  }

  predicate InLog(log: seq<Entry>, r: Response) {
    r.denial.Some? && r.why.Some? && r.denial.value < |log|
    && log[r.denial.value] == Denied(r.agent, r.capability, r.why.value)
  }

  ghost predicate CacheOk(w: World) { forall k :: k in w.cache ==> Remembered(w, w.cache[k]) }

  ghost predicate Good(w: World) { SigsOk(w) && CertsOk(w) && CacheOk(w) }

  // ---------------------------------------------------------------- issuing

  /** Nothing but certificates, signatures and what depends on them has changed. */
  predicate Grown(w: World, v: World) { w.sigs <= v.sigs && w.log <= v.log }

  lemma CacheGrows(w: World, v: World)
    requires CacheOk(w) && Grown(w, v) && v.cache == w.cache && v.epoch == w.epoch
    ensures CacheOk(v)
  {
    forall k | k in v.cache
      ensures Remembered(v, v.cache[k])
    {
      RememberedGrows(w, v, w.cache[k]);
    }
  }

  lemma RememberedGrows(w: World, v: World, m: Cached)
    requires Remembered(w, m) && Grown(w, v) && v.epoch == w.epoch
    ensures Remembered(v, m)
  {
    if m.response.granted {
      var i: nat :| GivenTo(w, m, i);
      assert GivenTo(v, m, i);
      var k :| 0 <= k < |w.log| && w.log[k] == Granted(m.agent, m.response.capability, m.response.policyId,
                                                       m.response.needsApproval);
      assert v.log[k] == w.log[k];
    }
  }

  /** Installing a certificate under the current root: others keep what they had. */
  lemma InstallKeeps(w: World, c: Cert)
    requires SigsOk(w) && c.body.pubkey == c.sig == |w.sigs| && c.body.role in ROLES
    requires forall a :: a in w.certs && a != c.body.agent ==> w.certs[a].sig < |w.sigs|
    ensures SigsOk(Install(w, c))
    ensures IsSigned(Install(w, c).sigs, w.epoch, c)
    ensures forall a :: a in w.certs && a != c.body.agent && IsSigned(w.sigs, w.epoch, w.certs[a])
              ==> IsSigned(Install(w, c).sigs, w.epoch, Install(w, c).certs[a])
  {
  }

  lemma InstallNewest(w: World, c: Cert, a: string)
    requires SigsOk(w) && Newest(w, a) && c.body.pubkey == c.sig == |w.sigs|
    requires c.body.agent == a ==> a in w.certs ==> w.certs[a].body.certSeq < c.body.certSeq
    requires c.body.agent == a && a !in w.certs ==> forall i :: 0 <= i < |w.sigs| ==> w.sigs[i].body.agent != a
    ensures Newest(Install(w, c), a)
  {
    var v := Install(w, c);
    assert forall i :: 0 <= i < |w.sigs| ==> v.sigs[i] == w.sigs[i];
  }

  // ---------------------------------------------------------------- each step

  /** A world that differs by one new certificate, and perhaps a revocation lifted. */
  lemma InstalledOk(w: World, c: Cert, v: World)
    requires SigsOk(w) && CertsOk(w) && c.body.pubkey == c.sig == |w.sigs| && c.body.role in ROLES
    requires v.sigs == Install(w, c).sigs && v.certs == Install(w, c).certs && v.epoch == w.epoch
    requires v.rootRevoked == v.revoked <= w.revoked
    requires v.agents == if c.body.agent in w.certs then w.agents else w.agents + [c.body.agent]
    ensures SigsOk(v) && CertsOk(v)
  {
    InstalledSigs(w, c, v);
    InstalledCerts(w, c, v);
  }

  lemma InstalledSigs(w: World, c: Cert, v: World)
    requires SigsOk(w) && c.body.pubkey == c.sig == |w.sigs| && c.body.role in ROLES
    requires v.sigs == Install(w, c).sigs && v.certs == Install(w, c).certs && v.epoch == w.epoch
    ensures SigsOk(v)
  {
  }

  lemma InstalledCerts(w: World, c: Cert, v: World)
    requires CertsOk(w) && c.body.pubkey == c.sig == |w.sigs| && c.body.role in ROLES
    requires v.sigs == Install(w, c).sigs && v.certs == Install(w, c).certs && v.epoch == w.epoch
    requires v.rootRevoked == v.revoked <= w.revoked
    requires v.agents == if c.body.agent in w.certs then w.agents else w.agents + [c.body.agent]
    ensures CertsOk(v)
  {
    InstalledSigned(w, c, v);
    InstalledAgents(w, c, v);
  }

  lemma InstalledSigned(w: World, c: Cert, v: World)
    requires CertsOk(w) && c.body.pubkey == c.sig == |w.sigs| && c.body.role in ROLES
    requires v.sigs == Install(w, c).sigs && v.certs == Install(w, c).certs && v.epoch == w.epoch
    ensures forall a :: a in v.certs ==>
              v.certs[a].body.agent == a && IsSigned(v.sigs, v.epoch, v.certs[a]) && v.certs[a].body.role in ROLES
  {
  }

  lemma InstalledAgents(w: World, c: Cert, v: World)
    requires CertsOk(w) && v.certs == Install(w, c).certs
    requires v.agents == if c.body.agent in w.certs then w.agents else w.agents + [c.body.agent]
    ensures forall a :: a in v.agents <==> a in v.certs
    ensures forall i, j :: 0 <= i < j < |v.agents| ==> v.agents[i] != v.agents[j]
  {
    hide IsSigned;
  }

  lemma PublishKeeps(w: World, agent: string, role: string, capabilities: seq<string>, ttl: int)
    requires Good(w)
    ensures Good(Publish(w, agent, role, capabilities, ttl))
    ensures forall a :: Newest(w, a) && (a == agent ==> a !in w.certs) ==>
              Newest(Publish(w, agent, role, capabilities, ttl), a)
  {
    assert w.rootRevoked == w.revoked && forall a :: a in w.agents <==> a in w.certs;
    hide Newest, CertsOk, CacheOk;
    if role in ROLES {
      var c := NextCert(w, agent, role, capabilities, w.now, w.now + ttl, 0);
      var v := Publish(w, agent, role, capabilities, ttl);
      InstalledOk(w, c, v);
      forall a | Newest(w, a) && (a == agent ==> a !in w.certs)
        ensures Newest(Install(w, c), a)
      {
        InstallNewest(w, c, a);
      }
      NewestBy(Install(w, c), v);
      CacheGrows(w, v);
    }
  }

  lemma RevokeKeeps(w: World, agent: string)
    requires Good(w)
    ensures Good(Revoke(w, agent)) && forall a :: Newest(w, a) ==> Newest(Revoke(w, agent), a)
  {
    CacheGrows(w, Revoke(w, agent));
  }

  lemma RotateKeeps(w: World, agent: string, ttl: int)
    requires Good(w)
    ensures Good(Rotate(w, agent, ttl)) && forall a :: Newest(w, a) ==> Newest(Rotate(w, agent, ttl), a)
  {
    if agent in w.certs {
      var c, v := Reissued(w, agent, w.now + ttl), Rotate(w, agent, ttl);
      assert c.body.agent == agent && c.body.role in ROLES && w.rootRevoked == w.revoked;
      hide Newest, CertsOk, CacheOk, SigsOk;
      InstalledOk(w, c, v);
      forall a | Newest(w, a)
        ensures Newest(Install(w, c), a)
      {
        InstallNewest(w, c, a);
      }
      NewestBy(Install(w, c), v);
      CacheGrows(w, v);
    }
  }

  /** Half-way through a root rotation: those done are signed by the new root, all are on file. */
  ghost predicate MidRotation(w: World, todo: seq<string>) {
    && SigsOk(w)
    && (forall a :: a in w.certs ==>
        w.certs[a].body.agent == a && w.certs[a].sig < |w.sigs| && w.certs[a].body.role in ROLES)
    && (forall a :: a in w.certs && a !in todo ==> IsSigned(w.sigs, w.epoch, w.certs[a]))
    && (forall a :: a in todo ==> a in w.certs)
    && (forall i, j :: 0 <= i < j < |todo| ==> todo[i] != todo[j])
  }

  /** What re-signing leaves alone. */
  ghost predicate OnlyResigned(w: World, v: World) {
    v == w.(sigs := v.sigs, certs := v.certs) && w.sigs <= v.sigs && v.certs.Keys == w.certs.Keys
  }

  lemma ReissueOne(w: World, todo: seq<string>, expiresAt: int)
    requires MidRotation(w, todo) && todo != []
    ensures todo[0] in w.certs && w.certs[todo[0]].body.role in ROLES
    ensures var next := Install(w, Reissued(w, todo[0], expiresAt));
            MidRotation(next, todo[1..]) && OnlyResigned(w, next)
  {
    assert todo[0] in todo;
    InstallKeeps(w, Reissued(w, todo[0], expiresAt));
    assert forall a :: a in todo <==> a == todo[0] || a in todo[1..];
  }

  lemma {:induction false} ReissueKeeps(w: World, todo: seq<string>, expiresAt: int)
    requires MidRotation(w, todo)
    ensures var v := ReissueAll(w, todo, expiresAt);
            MidRotation(v, []) && OnlyResigned(w, v)
    decreases |todo|
  {
    if todo != [] {
      hide MidRotation, Reissued, Install;
      ReissueOne(w, todo, expiresAt);
      ReissueKeeps(Install(w, Reissued(w, todo[0], expiresAt)), todo[1..], expiresAt);
    }
  }

  /** Each agent is re-signed once: a newer signature, number up by one, role and capabilities kept, new
      lifetime. */
  predicate RaisedFrom(c: Cert, was: Cert, now: int, expiresAt: int) {
    was.sig < c.sig && c.body.certSeq == was.body.certSeq + 1 && c.body.role == was.body.role
    && c.body.agent == was.body.agent && c.body.capabilities == was.body.capabilities
    && c.body.expiresAt == expiresAt && c.body.issuedAt == now
  }

  lemma {:induction false} ReissueRaises(w: World, todo: seq<string>, expiresAt: int, a: string)
    requires MidRotation(w, todo) && a in w.certs
    ensures ReissueAll(w, todo, expiresAt).certs.Keys == w.certs.Keys
    ensures if a in todo then RaisedFrom(ReissueAll(w, todo, expiresAt).certs[a], w.certs[a], w.now, expiresAt)
            else ReissueAll(w, todo, expiresAt).certs[a] == w.certs[a]
    decreases |todo|
  {
    if todo != [] {
      var a0 := todo[0];
      assert a0 in todo;
      var next := Install(w, Reissued(w, a0, expiresAt));
      InstallKeeps(w, Reissued(w, a0, expiresAt));
      assert forall x :: x in todo <==> x == a0 || x in todo[1..];
      ReissueRaises(next, todo[1..], expiresAt, a);
    }
  }

  lemma {:induction false} ReissueNewest(w: World, todo: seq<string>, expiresAt: int, a: string)
    requires MidRotation(w, todo) && Newest(w, a)
    ensures Newest(ReissueAll(w, todo, expiresAt), a)
    decreases |todo|
  {
    if todo != [] {
      var a0 := todo[0];
      assert a0 in todo;
      var c := Reissued(w, a0, expiresAt);
      InstallKeeps(w, c);
      InstallNewest(w, c, a);
      assert forall x :: x in todo <==> x == a0 || x in todo[1..];
      ReissueNewest(Install(w, c), todo[1..], expiresAt, a);
    }
  }

  lemma StartRotation(w: World)
    requires Good(w)
    ensures MidRotation(w.(epoch := w.epoch + 1), w.agents)
    ensures forall a :: Newest(w, a) ==> Newest(w.(epoch := w.epoch + 1), a)
  {
  }

  /** What a root rotation comes to. */
  ghost predicate RootMoved(w: World, v: World, ttl: int) {
    && v == w.(epoch := w.epoch + 1, sigs := v.sigs, certs := v.certs, cache := map[],
               log := w.log + [RootRotated(w.epoch, w.epoch + 1)])
    && w.sigs <= v.sigs && v.certs.Keys == w.certs.Keys && MidRotation(v, [])
    && (forall a :: a in w.certs ==> RaisedFrom(v.certs[a], w.certs[a], w.now, w.now + ttl))
  }

  lemma RootMoves(w: World, ttl: int)
    requires Good(w)
    ensures RootMoved(w, RotateRoot(w, ttl), ttl)
    ensures forall a :: Newest(w, a) ==> Newest(RotateRoot(w, ttl), a)
  {
    hide Newest, ReissueAll;
    var from := w.(epoch := w.epoch + 1);
    var next := ReissueAll(from, w.agents, w.now + ttl);
    StartRotation(w);
    ReissueKeeps(from, w.agents, w.now + ttl);
    forall a | Newest(w, a)
      ensures Newest(next, a)
    {
      ReissueNewest(from, w.agents, w.now + ttl, a);
    }
    forall a | a in w.certs
      ensures RaisedFrom(next.certs[a], w.certs[a], w.now, w.now + ttl)
    {
      ReissueRaises(from, w.agents, w.now + ttl, a);
    }
    NewestBy(next, RotateRoot(w, ttl));
    MidBy(next, RotateRoot(w, ttl));
  }

  lemma MidBy(w: World, v: World)
    requires MidRotation(w, []) && v.sigs == w.sigs && v.certs == w.certs && v.epoch == w.epoch
    ensures MidRotation(v, [])
  {
  }

  lemma RotateRootKeeps(w: World, ttl: int)
    requires Good(w)
    ensures Good(RotateRoot(w, ttl)) && forall a :: Newest(w, a) ==> Newest(RotateRoot(w, ttl), a)
  {
    hide Newest, RotateRoot;
    RootMoves(w, ttl);
  }

  /** Root rotation re-signs every agent on file, so it also revives certificates that had expired:
      afterwards an agent is live exactly if it is known, unrevoked and the new lifetime is positive. */
  lemma RootRotationRevives(w: World, ttl: int, a: string)
    requires Good(w)
    ensures Discover(RotateRoot(w, ttl), a).Some? <==> a in w.certs && a !in w.revoked && ttl > 0
    ensures a in w.certs ==>
              a in RotateRoot(w, ttl).certs && RaisedFrom(RotateRoot(w, ttl).certs[a], w.certs[a], w.now, w.now + ttl)
  {
    hide Newest, RotateRoot;
    RootMoves(w, ttl);
  }

  // ---------------------------------------------------------------- requests

  lemma KeepKeeps(w: World, r: Response)
    requires Good(w) && Remembered(w, Cached(r, r.agent, r.certSeq))
    ensures Good(Keep(w, r))
  {
    if r.key.Some? {
      var v := Keep(w, r);
      forall k | k in v.cache
        ensures Remembered(v, v.cache[k])
      {
        RememberedGrows(w, v, v.cache[k]);
      }
    }
  }

  lemma LoggedKeeps(w: World, e: Entry)
    requires Good(w)
    ensures Good(w.(log := w.log + [e]))
  {
    CacheGrows(w, w.(log := w.log + [e]));
  }

  lemma ForgetKeeps(w: World, k: string)
    requires Good(w)
    ensures Good(w.(cache := w.cache - {k}))
  {
    var v := w.(cache := w.cache - {k});
    forall j | j in v.cache
      ensures Remembered(v, v.cache[j])
    {
      RememberedGrows(w, v, w.cache[j]);
    }
  }

  lemma DenyKeeps(w: World, agent: string, capability: string, why: Why, key: Option<string>)
    requires Good(w)
    ensures Good(Deny(w, agent, capability, why, key).1)
    ensures InLog(Deny(w, agent, capability, why, key).1.log, Deny(w, agent, capability, why, key).0)
  {
    LoggedKeeps(w, Denied(agent, capability, why));
    KeepKeeps(w.(log := w.log + [Denied(agent, capability, why)]), Deny(w, agent, capability, why, key).0);
  }

  lemma AskKeeps(w: World, c: Cert, capability: string, key: Option<string>)
    requires Good(w)
    ensures Good(Ask(w, c, capability, key).1)
    ensures forall a :: Newest(w, a) ==> Newest(Ask(w, c, capability, key).1, a)
    ensures !Ask(w, c, capability, key).0.granted ==>
              InLog(Ask(w, c, capability, key).1.log, Ask(w, c, capability, key).0)
  {
    hide Authentic, Decide, Good, Newest, PolicyId;
    if Replays(w, c, key) {
      CachedKept(w, key.value);
    } else {
      if key.Some? {
        ForgetKeeps(w, key.value);
      }
      var w := if key.Some? then w.(cache := w.cache - {key.value}) else w;
      var d := Decide(c.body.role, capability);
      DenyKeeps(w, c.body.agent, capability, NotAuthenticated, key);
      DenyKeeps(w, c.body.agent, capability, NotPermitted(c.body.role, capability), key);
      if Authentic(w, c) && d != DENY {
        var e := Granted(c.body.agent, capability, PolicyId(c.body.role, capability), d == REQUIRE_APPROVAL);
        GrantKeeps(w, c, capability, key, e);
      }
    }
    AskTouches(w, c, capability, key);
    NewestBy(w, Ask(w, c, capability, key).1);
  }

  lemma CachedKept(w: World, k: string)
    requires Good(w) && k in w.cache
    ensures !w.cache[k].response.granted ==> InLog(w.log, w.cache[k].response)
  {
    assert Remembered(w, w.cache[k]);
  }

  lemma GrantKeeps(w: World, c: Cert, capability: string, key: Option<string>, e: Entry)
    requires Good(w) && Authentic(w, c) && Decide(c.body.role, capability) != DENY
    requires e == Granted(c.body.agent, capability, PolicyId(c.body.role, capability),
                          Decide(c.body.role, capability) == REQUIRE_APPROVAL)
    ensures var d := Decide(c.body.role, capability);
            Good(Keep(w.(log := w.log + [e]),
                      Response(true, PolicyId(c.body.role, capability), d, capability, c.body.agent,
                                                      c.body.certSeq, d == REQUIRE_APPROVAL, None, key, None)))
  {
    var d := Decide(c.body.role, capability);
    var r := Response(true, PolicyId(c.body.role, capability), d, capability, c.body.agent, c.body.certSeq,
                      d == REQUIRE_APPROVAL, None, key, None);
    LoggedKeeps(w, e);
    assert (w.log + [e])[|w.log|] == e;
    assert GivenTo(w.(log := w.log + [e]), Cached(r, r.agent, r.certSeq), c.sig);
    hide Good, Decide, Authentic, PolicyId;
    KeepKeeps(w.(log := w.log + [e]), r);
  }

  /** A request touches the cache and the log only; the log grows by one entry unless it is a replay. */
  lemma AskTouches(w: World, c: Cert, capability: string, key: Option<string>)
    ensures var v := Ask(w, c, capability, key).1;
            && v == w.(cache := v.cache, log := v.log)
            && w.log <= v.log && |v.log| == |w.log| + (if Replays(w, c, key) then 0 else 1)
  {
    hide Authentic, Decide, PolicyId;
  }

  lemma NewestBy(w: World, v: World)
    requires v.sigs == w.sigs && v.certs == w.certs
    ensures forall a :: Newest(w, a) ==> Newest(v, a)
  {
  }

  // ---------------------------------------------------------------- runs

  lemma StepKeeps(w: World, op: Op)
    requires Good(w)
    ensures Good(Step(w, op))
    ensures forall a :: Newest(w, a) && (op.Publishes? && op.agent == a ==> a !in w.certs) ==> Newest(Step(w, op), a)
  {
    hide Good, Newest, Publish, Revoke, Rotate, RotateRoot, Ask;
    match op
    case Publishes(agent, role, capabilities, ttl) => PublishKeeps(w, agent, role, capabilities, ttl);
    case Revokes(agent) => RevokeKeeps(w, agent);
    case Rotates(agent, ttl) => RotateKeeps(w, agent, ttl);
    case RotatesRoot(ttl) => RotateRootKeeps(w, ttl);
    case SetsClock(now) => ClockKeeps(w, now);
    case Asks(cert, capability, key) => AskKeeps(w, cert, capability, key);
  }

  lemma ClockKeeps(w: World, now: int)
    requires Good(w)
    ensures Good(w.(now := now)) && forall a :: Newest(w, a) ==> Newest(w.(now := now), a)
  {
    CacheGrows(w, w.(now := now));
  }

  lemma {:induction false} RunKeeps(ops: seq<Op>)
    ensures Good(Run(GENESIS, ops))
    ensures forall a :: NeverRepublished(GENESIS, ops, a) ==> Newest(Run(GENESIS, ops), a)
    decreases |ops|
  {
    if ops != [] {
      var n := |ops| - 1;
      RunKeeps(ops[..n]);
      StepKeeps(Run(GENESIS, ops[..n]), ops[n]);
      forall a | NeverRepublished(GENESIS, ops, a)
        ensures NeverRepublished(GENESIS, ops[..n], a)
      {
        assert forall i :: 0 <= i < n ==> ops[..n][..i] == ops[..i];
      }
    }
  }

  // ---------------------------------------------------------------- which certificates are honoured

  /** No signature of the current root for `a` carries that number. */
  predicate Unused(w: World, a: string, number: int) {
    forall i :: 0 <= i < |w.sigs| && w.sigs[i].epoch == w.epoch && w.sigs[i].body.agent == a ==>
      w.sigs[i].body.certSeq != number
  }

  /** No signature of the current root for `a` carries the number on file, but the one on file. */
  predicate Unrivalled(w: World, a: string) {
    a in w.certs ==>
      forall i :: 0 <= i < |w.sigs| && w.sigs[i].epoch == w.epoch && w.sigs[i].body.agent == a ==>
        w.sigs[i].body.certSeq == w.certs[a].body.certSeq ==> w.sigs[i].body == w.certs[a].body
  }

  /** What has to hold for the certificate on file to be the only one honoured. */
  predicate Sole(w: World, a: string) { Discover(w, a).None? || Unrivalled(w, a) }

  lemma DiscoverIff(w: World, a: string)
    requires CertsOk(w)
    ensures Discover(w, a).Some? <==> a in w.certs && a !in w.revoked && w.now < w.certs[a].body.expiresAt
    ensures Discover(w, a).Some? ==> Discover(w, a).value == w.certs[a]
  {
  }

  /** Honoured is whatever the current root signed for a live agent under the number on file. */
  lemma AuthenticIff(w: World, c: Cert)
    requires CertsOk(w)
    ensures var a := c.body.agent;
            Authentic(w, c)
            <==> Discover(w, a).Some? && IsSigned(w.sigs, w.epoch, c) && c.body.certSeq == w.certs[a].body.certSeq
  {
  }

  /** The certificate on file is the only one of its agent that is honoured exactly if it is `Sole`. */
  lemma OnlyOnFileIff(w: World, a: string)
    requires Good(w) && a in w.certs
    ensures (forall c: Cert :: Authentic(w, c) && c.body.agent == a ==> w.certs[a] == c) <==> Sole(w, a)
  {
    if Sole(w, a) {
      forall c: Cert | Authentic(w, c) && c.body.agent == a
        ensures w.certs[a] == c
      {
        SoleIsOnFile(w, c);
      }
    } else {
      var c := Rival(w, a);
    }
  }

  lemma SoleIsOnFile(w: World, c: Cert)
    requires Good(w) && Sole(w, c.body.agent) && Authentic(w, c)
    ensures c.body.agent in w.certs && w.certs[c.body.agent] == c
  {
    var a := c.body.agent;
    assert w.sigs[c.sig] == Signed(w.epoch, c.body);
    assert c.body.pubkey == c.sig && w.certs[a].body.pubkey == w.certs[a].sig;
  }

  lemma Rival(w: World, a: string) returns (c: Cert)
    requires Good(w) && !Sole(w, a)
    ensures c.body.agent == a && Authentic(w, c) && a in w.certs && w.certs[a] != c && c.body.role in ROLES
  {
    AuthenticIff(w, w.certs[a]);
    var i :| 0 <= i < |w.sigs| && w.sigs[i].epoch == w.epoch && w.sigs[i].body.agent == a
             && w.sigs[i].body.certSeq == w.certs[a].body.certSeq && w.sigs[i].body != w.certs[a].body;
    c := Cert(w.sigs[i].body, i);
    AuthenticIff(w, c);
  }

  lemma NewestIsSole(w: World, a: string)
    requires Newest(w, a)
    ensures Unrivalled(w, a) && Sole(w, a)
  {
  }

  /** Every known role has a capability. */
  lemma RolesCanAct(role: string)
    requires role in ROLES
    ensures RoleCaps(role) != [] && Decide(role, RoleCaps(role)[0]) != DENY
  {
  }

  /** An honoured certificate can get something granted, and no other can. */
  lemma HonouredIff(w: World, c: Cert)
    requires Good(w)
    ensures Authentic(w, c) <==> exists capability, key :: Ask(w, c, capability, key).0.granted
  {
    hide Decide, PolicyId, Good, Deny, Keep;
    if Authentic(w, c) {
      SignedRole(w, c);
      RolesCanAct(c.body.role);
      assert Ask(w, c, RoleCaps(c.body.role)[0], None).0.granted;
    }
    forall capability, key | Ask(w, c, capability, key).0.granted
      ensures Authentic(w, c)
    {
      GrantedIsAuthentic(w, c, capability, key);
    }
  }

  lemma SignedRole(w: World, c: Cert)
    requires Good(w) && Authentic(w, c)
    ensures c.body.role in ROLES
  {
    assert w.sigs[c.sig].body == c.body;
  }

  lemma GrantedIsAuthentic(w: World, c: Cert, capability: string, key: Option<string>)
    requires Ask(w, c, capability, key).0.granted
    ensures Authentic(w, c)
  {
    hide Decide, PolicyId, Keep;
    ForgettingKeeps(w, c, key);
  }

  lemma ForgettingKeeps(w: World, c: Cert, key: Option<string>)
    ensures key.Some? ==> Authentic(w.(cache := w.cache - {key.value}), c) == Authentic(w, c)
  {
  }

  /** A grant, fresh or replayed, goes only to the certificate on file, unrevoked, unexpired and under the
      current root, for a capability the policy gives its role. */
  ghost predicate Deserved(w: World, c: Cert, r: Response) {
    var a := c.body.agent;
    && a in w.certs && w.certs[a] == c && a !in w.revoked && w.now < c.body.expiresAt && IsSigned(w.sigs, w.epoch, c)
    && r.agent == a && r.certSeq == c.body.certSeq && Permits(c.body.role, r)
  }

  lemma ReplayDeserved(w: World, c: Cert, m: Cached)
    requires Remembered(w, m) && m.response.granted && Unrivalled(w, c.body.agent)
    requires c.body.agent in w.certs && w.certs[c.body.agent] == c && m.agent == c.body.agent
             && m.certSeq == c.body.certSeq
    ensures m.response.agent == c.body.agent && m.response.certSeq == c.body.certSeq
    ensures Permits(c.body.role, m.response)
  {
    hide Decide, Permits;
    var i: nat :| GivenTo(w, m, i);
    assert w.sigs[i].body == c.body;
  }

  lemma GrantDeserved(w: World, c: Cert, capability: string, key: Option<string>)
    requires Good(w) && Sole(w, c.body.agent) && Ask(w, c, capability, key).0.granted
    ensures Deserved(w, c, Ask(w, c, capability, key).0)
  {
    GrantedIsAuthentic(w, c, capability, key);
    SoleIsOnFile(w, c);
    DiscoverIff(w, c.body.agent);
    AuthenticIff(w, c);
    if Replays(w, c, key) {
      ReplayDeserved(w, c, w.cache[key.value]);
    }
    hide Decide, PolicyId, Good, Keep, Authentic, Unrivalled;
  }

  /** In every run: the grants an agent can get, under any certificate, capability and key, are all deserved
      exactly if no signature of the current root rivals the one on file, or the agent is not live at all. */
  lemma GrantsDeservedIff(ops: seq<Op>, a: string)
    ensures var w := Run(GENESIS, ops);
            (forall c: Cert, capability, key :: c.body.agent == a && Ask(w, c, capability, key).0.granted
                                                ==> Deserved(w, c, Ask(w, c, capability, key).0))
            <==> Sole(w, a)
  {
    var w := Run(GENESIS, ops);
    RunKeeps(ops);
    hide Good, Ask, Run;
    if Sole(w, a) {
      forall c: Cert, capability, key | c.body.agent == a && Ask(w, c, capability, key).0.granted
        ensures Deserved(w, c, Ask(w, c, capability, key).0)
      {
        GrantDeserved(w, c, capability, key);
      }
    } else {
      hide Sole;
      var c := Rival(w, a);
      HonouredIff(w, c);
      var capability, key :| Ask(w, c, capability, key).0.granted;
      assert !Deserved(w, c, Ask(w, c, capability, key).0);
    }
  }

  /** No agent that was never published twice has a rival. */
  lemma PublishedOnceIsSole(ops: seq<Op>, a: string)
    requires NeverRepublished(GENESIS, ops, a)
    ensures Sole(Run(GENESIS, ops), a)
  {
    RunKeeps(ops);
    NewestIsSole(Run(GENESIS, ops), a);
  }

  lemma EveryGrantDeserved(ops: seq<Op>, c: Cert, capability: string, key: Option<string>)
    requires Sole(Run(GENESIS, ops), c.body.agent)
    requires Ask(Run(GENESIS, ops), c, capability, key).0.granted
    ensures Deserved(Run(GENESIS, ops), c, Ask(Run(GENESIS, ops), c, capability, key).0)
  {
    RunKeeps(ops);
    GrantDeserved(Run(GENESIS, ops), c, capability, key);
  }

  /** What a request that is no replay is granted: exactly what its role allows, to whatever the current root
      signed under the number on file of a live agent; that is the certificate on file, if it is sole. */
  lemma FreshGrantIff(ops: seq<Op>, c: Cert, capability: string, key: Option<string>)
    requires !Replays(Run(GENESIS, ops), c, key)
    ensures var w := Run(GENESIS, ops); var a := c.body.agent; var r := Ask(w, c, capability, key).0;
            && (r.granted <==> a in w.certs && a !in w.revoked && w.now < w.certs[a].body.expiresAt
                               && IsSigned(w.sigs, w.epoch, c) && c.body.certSeq == w.certs[a].body.certSeq
                               && Decide(c.body.role, capability) != DENY)
            && (Sole(w, a) ==> (r.granted <==> a in w.certs && w.certs[a] == c && a !in w.revoked
                                               && w.now < c.body.expiresAt && Decide(c.body.role, capability) != DENY))
            && r.capability == capability && r.agent == a
            && r.needsApproval == (r.granted && Decide(c.body.role, capability) == REQUIRE_APPROVAL)
            && (!r.granted ==> r.why == Some(if Authentic(w, c) then NotPermitted(c.body.role, capability)
                                             else NotAuthenticated))
  {
    var w := Run(GENESIS, ops);
    RunKeeps(ops);
    DiscoverIff(w, c.body.agent);
    AuthenticIff(w, c);
    if Sole(w, c.body.agent) && Authentic(w, c) {
      SoleIsOnFile(w, c);
    }
    OnFileSigned(w, c.body.agent);
    ForgettingKeeps(w, c, key);
    hide Decide, PolicyId, Good, Run, Keep, Authentic, Sole;
  }

  lemma OnFileSigned(w: World, a: string)
    requires CertsOk(w)
    ensures a in w.certs ==> IsSigned(w.sigs, w.epoch, w.certs[a])
  {
  }

  /** What keeps a certificate unrivalled: a new number the current root has not used for the agent yet, or
      a new root. */
  predicate StaysUnrivalled(w: World, op: Op, a: string) {
    match op
    case Publishes(agent, role, _, _) => if agent == a && role in ROLES then Unused(w, a, 0) else Unrivalled(w, a)
    case Rotates(agent, _) =>
      if agent == a && a in w.certs then Unused(w, a, w.certs[a].body.certSeq + 1) else Unrivalled(w, a)
    case RotatesRoot(_) => true
    case _ => Unrivalled(w, a)
  }

  lemma UnrivalledIff(w: World, op: Op, a: string)
    requires Good(w)
    ensures Unrivalled(Step(w, op), a) <==> StaysUnrivalled(w, op, a)
  {
    hide Good, Unrivalled, Unused, Publish, Rotate, RotateRoot, Revoke, Ask;
    match op
    case Publishes(agent, role, capabilities, ttl) => PublishUnrivalledIff(w, agent, role, capabilities, ttl, a);
    case Rotates(agent, ttl) => RotateUnrivalledIff(w, agent, ttl, a);
    case RotatesRoot(ttl) => RootUnrivalled(w, ttl, a);
    case Revokes(agent) => RevokeSigs(w, agent, a);
    case SetsClock(now) => SameSigs(w, w.(now := now), a);
    case Asks(cert, capability, key) =>
      AskTouches(w, cert, capability, key);
      SameSigs(w, Ask(w, cert, capability, key).1, a);
  }

  lemma PublishUnrivalledIff(w: World, agent: string, role: string, capabilities: seq<string>, ttl: int, a: string)
    requires Good(w)
    ensures Unrivalled(Publish(w, agent, role, capabilities, ttl), a)
            <==> if agent == a && role in ROLES then Unused(w, a, 0) else Unrivalled(w, a)
  {
    hide Unrivalled, Unused, CertsOk, CacheOk, SigsOk;
    if role in ROLES {
      var c := NextCert(w, agent, role, capabilities, w.now, w.now + ttl, 0);
      InstallUnrivalledIff(w, c, a);
      SameSigs(Install(w, c), Publish(w, agent, role, capabilities, ttl), a);
    }
  }

  lemma RotateUnrivalledIff(w: World, agent: string, ttl: int, a: string)
    requires Good(w)
    ensures Unrivalled(Rotate(w, agent, ttl), a)
            <==> if agent == a && a in w.certs then Unused(w, a, w.certs[a].body.certSeq + 1) else Unrivalled(w, a)
  {
    if agent in w.certs {
      var c := Reissued(w, agent, w.now + ttl);
      RotatedTo(w, agent, ttl);
      hide Unrivalled, Unused, CertsOk, CacheOk, SigsOk;
      InstallUnrivalledIff(w, c, a);
      SameSigs(Install(w, c), Rotate(w, agent, ttl), a);
    }
  }

  lemma RevokeSigs(w: World, agent: string, a: string)
    ensures Unrivalled(Revoke(w, agent), a) <==> Unrivalled(w, a)
  {
  }

  lemma SameSigs(w: World, v: World, a: string)
    requires v.sigs == w.sigs && v.certs == w.certs && v.epoch == w.epoch
    ensures Unrivalled(v, a) <==> Unrivalled(w, a)
  {
  }

  lemma InstallUnrivalledIff(w: World, c: Cert, a: string)
    requires SigsOk(w) && c.body.pubkey == c.sig == |w.sigs|
    ensures Unrivalled(Install(w, c), a)
            <==> if c.body.agent == a then Unused(w, a, c.body.certSeq) else Unrivalled(w, a)
  {
    var v := Install(w, c);
    assert v.sigs[|w.sigs|] == Signed(w.epoch, c.body);
    forall i | 0 <= i < |w.sigs|
      ensures v.sigs[i] == w.sigs[i] && w.sigs[i].body != c.body
    {
      assert w.sigs[i].body.pubkey == i;
    }
  }

  /** While the root re-signs: it has signed nothing yet for those to come, one certificate for the others. */
  ghost predicate OneEach(w: World, todo: seq<string>, a: string) {
    && (a in todo ==> forall i :: 0 <= i < |w.sigs| && w.sigs[i].epoch == w.epoch ==> w.sigs[i].body.agent != a)
    && (a !in todo ==> Unrivalled(w, a))
  }

  lemma {:induction false} ReissueOneEach(w: World, todo: seq<string>, expiresAt: int, a: string)
    requires MidRotation(w, todo) && OneEach(w, todo, a)
    ensures OneEach(ReissueAll(w, todo, expiresAt), [], a)
    decreases |todo|
  {
    if todo != [] {
      hide MidRotation, Reissued, Install, OneEach;
      ReissueOne(w, todo, expiresAt);
      OneMore(w, todo, expiresAt, a);
      ReissueOneEach(Install(w, Reissued(w, todo[0], expiresAt)), todo[1..], expiresAt, a);
    }
  }

  lemma OneMore(w: World, todo: seq<string>, expiresAt: int, a: string)
    requires MidRotation(w, todo) && OneEach(w, todo, a) && todo != [] && todo[0] in w.certs
    ensures OneEach(Install(w, Reissued(w, todo[0], expiresAt)), todo[1..], a)
  {
    var c := Reissued(w, todo[0], expiresAt);
    assert c.body.agent == todo[0];
    InstallUnrivalledIff(w, c, a);
    assert a in todo <==> a == todo[0] || a in todo[1..];
  }

  /** A new root has signed one certificate for each agent, so there are no rivals. */
  lemma RootUnrivalled(w: World, ttl: int, a: string)
    requires Good(w)
    ensures Unrivalled(RotateRoot(w, ttl), a)
  {
    hide ReissueAll, MidRotation, Good, Unrivalled;
    var from := w.(epoch := w.epoch + 1);
    var next := ReissueAll(from, w.agents, w.now + ttl);
    StartRotation(w);
    StartsWithNone(w, a);
    ReissueOneEach(from, w.agents, w.now + ttl, a);
    ReissueKeeps(from, w.agents, w.now + ttl);
    SameSigs(next, RotateRoot(w, ttl), a);
  }

  lemma StartsWithNone(w: World, a: string)
    requires Good(w)
    ensures OneEach(w.(epoch := w.epoch + 1), w.agents, a)
  {
  }

  /** Every refusal, fresh or replayed, is on record. */
  lemma EveryRefusalLogged(ops: seq<Op>, c: Cert, capability: string, key: Option<string>)
    requires !Ask(Run(GENESIS, ops), c, capability, key).0.granted
    ensures var r := Ask(Run(GENESIS, ops), c, capability, key); InLog(r.1.log, r.0)
  {
    RunKeeps(ops);
    AskKeeps(Run(GENESIS, ops), c, capability, key);
  }

  /** Every grant, fresh or replayed, is on record with its policy and whether it needs approval. */
  lemma EveryGrantLogged(ops: seq<Op>, c: Cert, capability: string, key: Option<string>)
    requires Ask(Run(GENESIS, ops), c, capability, key).0.granted
    ensures var r := Ask(Run(GENESIS, ops), c, capability, key); GrantInLog(r.1.log, r.0)
  {
    RunKeeps(ops);
    AskLogsGrant(Run(GENESIS, ops), c, capability, key);
  }

  lemma AskLogsGrant(w: World, c: Cert, capability: string, key: Option<string>)
    requires Good(w) && Ask(w, c, capability, key).0.granted
    ensures GrantInLog(Ask(w, c, capability, key).1.log, Ask(w, c, capability, key).0)
  {
    if Replays(w, c, key) {
      assert Remembered(w, w.cache[key.value]);
    }
    hide Good, Decide, PolicyId, Authentic;
  }

  /** What no step undoes: signatures and log entries stay, and a certificate gives way to a newer one only. */
  ghost predicate Later(w: World, v: World, a: string) {
    && Grown(w, v) && w.epoch <= v.epoch
    && (a in w.certs ==> a in v.certs && (v.certs[a] == w.certs[a] || w.certs[a].sig < v.certs[a].sig))
  }

  lemma StepLater(w: World, op: Op, a: string)
    requires Good(w)
    ensures Later(w, Step(w, op), a)
  {
    hide Good, RotateRoot, Ask, Publish, Rotate;
    match op
    case Publishes(agent, role, capabilities, ttl) => PublishLater(w, agent, role, capabilities, ttl, a);
    case Revokes(agent) =>
    case Rotates(agent, ttl) => RotateLater(w, agent, ttl, a);
    case RotatesRoot(ttl) => RootMoves(w, ttl);
    case SetsClock(now) =>
    case Asks(cert, capability, key) => AskTouches(w, cert, capability, key);
  }

  lemma PublishLater(w: World, agent: string, role: string, capabilities: seq<string>, ttl: int, a: string)
    requires Good(w)
    ensures Later(w, Publish(w, agent, role, capabilities, ttl), a)
  {
  }

  lemma RotateLater(w: World, agent: string, ttl: int, a: string)
    requires Good(w)
    ensures Later(w, Rotate(w, agent, ttl), a)
  {
    hide SigsOk, CacheOk;
  }

  lemma {:induction false} RunLater(ops: seq<Op>, n: nat, a: string)
    requires n <= |ops|
    ensures Later(Run(GENESIS, ops[..n]), Run(GENESIS, ops), a)
    decreases |ops|
  {
    if n == |ops| {
      assert ops[..n] == ops;
    } else {
      var m := |ops| - 1;
      assert ops[..m][..n] == ops[..n];
      RunKeeps(ops[..m]);
      RunLater(ops[..m], n, a);
      hide Good, Step;
      StepLater(Run(GENESIS, ops[..m]), ops[m], a);
      LaterChain(Run(GENESIS, ops[..n]), Run(GENESIS, ops[..m]), Run(GENESIS, ops), a);
    }
  }

  lemma LaterChain(u: World, w: World, v: World, a: string)
    requires Later(u, w, a) && Later(w, v, a)
    ensures Later(u, v, a)
  {
  }

  /** A superseded certificate is on file after `n` steps and not at the end. */
  ghost predicate Superseded(ops: seq<Op>, n: nat, c: Cert)
    requires n <= |ops|
  {
    var a := c.body.agent;
    && a in Run(GENESIS, ops[..n]).certs && Run(GENESIS, ops[..n]).certs[a] == c
    && (a in Run(GENESIS, ops).certs ==> Run(GENESIS, ops).certs[a] != c)
  }

  /** It can still get something granted exactly if the agent is live, the certificate now on file carries the
      same number, and the root has not been rotated since. */
  lemma SupersededGrantedIff(ops: seq<Op>, n: nat, c: Cert)
    requires n <= |ops| && Superseded(ops, n, c)
    ensures var w := Run(GENESIS, ops); var live := Discover(w, c.body.agent);
            (exists capability, key :: Ask(w, c, capability, key).0.granted)
            <==> live.Some? && live.value.body.certSeq == c.body.certSeq
                 && forall i :: n <= i < |ops| ==> !ops[i].RotatesRoot?
  {
    var u, w := Run(GENESIS, ops[..n]), Run(GENESIS, ops);
    RunKeeps(ops);
    RunKeeps(ops[..n]);
    RunLater(ops, n, c.body.agent);
    EpochCounts(ops, n);
    HonouredIff(w, c);
    AuthenticIff(w, c);
    OnFileSigned(u, c.body.agent);
    assert w.sigs[c.sig] == u.sigs[c.sig];
    hide Good, Run, Ask, Authentic;
  }

  function EpochAfter(ops: seq<Op>): nat { Run(GENESIS, ops).epoch }

  /** The epoch moves with root rotations only. */
  lemma {:induction false} EpochCounts(ops: seq<Op>, n: nat)
    requires n <= |ops|
    ensures EpochAfter(ops[..n]) <= EpochAfter(ops)
    ensures EpochAfter(ops[..n]) == EpochAfter(ops) <==> forall i :: n <= i < |ops| ==> !ops[i].RotatesRoot?
    decreases |ops|
  {
    hide EpochAfter;
    if n == |ops| {
      assert ops[..n] == ops;
    } else {
      var m := |ops| - 1;
      assert ops[..m][..n] == ops[..n];
      EpochCounts(ops[..m], n);
      EpochMore(ops, m);
    }
  }

  lemma EpochMore(ops: seq<Op>, m: nat)
    requires |ops| == m + 1
    ensures EpochAfter(ops) == EpochAfter(ops[..m]) + if ops[m].RotatesRoot? then 1 else 0
  {
    hide Good, Step;
    RunIsGood(ops[..m]);
    StepEpoch(Run(GENESIS, ops[..m]), ops[m]);
  }

  lemma RunIsGood(ops: seq<Op>)
    ensures Good(Run(GENESIS, ops))
  {
    RunKeeps(ops);
    hide Good, Run, NeverRepublished, Newest;
  }

  lemma StepEpoch(w: World, op: Op)
    requires Good(w)
    ensures Step(w, op).epoch == w.epoch + if op.RotatesRoot? then 1 else 0
  {
    hide Good, RotateRoot, Ask;
    match op
    case RotatesRoot(ttl) => RootMoves(w, ttl);
    case Asks(cert, capability, key) => AskTouches(w, cert, capability, key);
    case _ =>
  }

  /** Once superseded, never granted again, whatever key it is asked under, while the one on file is sole. */
  lemma SupersededNeverGranted(ops: seq<Op>, n: nat, c: Cert, capability: string, key: Option<string>)
    requires n <= |ops| && Superseded(ops, n, c)
    requires Sole(Run(GENESIS, ops), c.body.agent)
    ensures !Ask(Run(GENESIS, ops), c, capability, key).0.granted
  {
    if Ask(Run(GENESIS, ops), c, capability, key).0.granted {
      EveryGrantDeserved(ops, c, capability, key);
    }
  }

  /** And it stays superseded, in every run: certificates do not come back on file. */
  lemma SupersededForGood(ops: seq<Op>, n: nat, m: nat, a: string)
    requires n <= m <= |ops|
    requires a in Run(GENESIS, ops[..n]).certs && a in Run(GENESIS, ops[..m]).certs
    requires Run(GENESIS, ops[..n]).certs[a] != Run(GENESIS, ops[..m]).certs[a]
    ensures a in Run(GENESIS, ops).certs && Run(GENESIS, ops).certs[a] != Run(GENESIS, ops[..n]).certs[a]
  {
    assert ops[..m][..n] == ops[..n];
    RunLater(ops[..m], n, a);
    RunLater(ops, m, a);
  }

  /** A verifier that knows every root key there has been accepts exactly what some root signed word for word. */
  lemma AnyEpochIff(ops: seq<Op>, c: Cert)
    ensures var w := Run(GENESIS, ops);
            VerifiesAnyEpoch(w, c) <==> c.sig < |w.sigs| && exists e: nat :: w.sigs[c.sig] == Signed(e, c.body)
  {
    RunKeeps(ops);
    hide Run, CacheOk;
    var w := Run(GENESIS, ops);
    if c.sig < |w.sigs| {
      assert w.sigs[c.sig] == Signed(w.sigs[c.sig].epoch, w.sigs[c.sig].body);
    }
  }

  /** Verifier continuity: a certificate the root ever signed verifies under some known epoch forever. */
  lemma {:induction false} SignedVerifiesForever(ops: seq<Op>, n: nat, c: Cert)
    requires n <= |ops| && VerifiesAnyEpoch(Run(GENESIS, ops[..n]), c)
    ensures VerifiesAnyEpoch(Run(GENESIS, ops), c)
    decreases |ops|
  {
    hide Good, Step;
    if n == |ops| {
      assert ops[..n] == ops;
    } else {
      var m := |ops| - 1;
      assert ops[..m][..n] == ops[..n];
      SignedVerifiesForever(ops[..m], n, c);
      RunKeeps(ops[..m]);
      StepSigs(Run(GENESIS, ops[..m]), ops[m]);
    }
  }

  lemma StepSigs(w: World, op: Op)
    requires Good(w)
    ensures w.sigs <= Step(w, op).sigs && w.epoch <= Step(w, op).epoch
  {
    hide Good, RotateRoot, Ask, Reissued, NextCert;
    match op
    case Publishes(agent, role, capabilities, ttl) =>
    case Revokes(agent) =>
    case Rotates(agent, ttl) =>
    case RotatesRoot(ttl) => RootMoves(w, ttl);
    case SetsClock(now) =>
    case Asks(cert, capability, key) => AskTouches(w, cert, capability, key);
  }

  // ---------------------------------------------------------------- where the code falls short

  /** What publishing an agent leaves honoured besides the new certificate: exactly every certificate of
      number 0 the current root signed for it, if the agent is not revoked and the new lifetime is positive. */
  lemma RepublishHonoursOldIff(w: World, agent: string, role: string, capabilities: seq<string>, ttl: int, c: Cert)
    requires Good(w) && role in ROLES && c.body.agent == agent
    requires c != NextCert(w, agent, role, capabilities, w.now, w.now + ttl, 0)
    ensures Authentic(Publish(w, agent, role, capabilities, ttl), c)
            <==> IsSigned(w.sigs, w.epoch, c) && c.body.certSeq == 0 && agent !in w.revoked && ttl > 0
  {
    PublishKeeps(w, agent, role, capabilities, ttl);
    assert w.rootRevoked == w.revoked;
    hide SigsOk, CacheOk, CertsOk, Authentic, IsSigned, Newest;
    HonouredBesides(w, NextCert(w, agent, role, capabilities, w.now, w.now + ttl, 0),
                    Publish(w, agent, role, capabilities, ttl), c);
  }

  /** And what rotating it does: every one the current root signed for it under the next number. */
  lemma RotateHonoursOldIff(w: World, agent: string, ttl: int, c: Cert)
    requires Good(w) && agent in w.certs && c.body.agent == agent && c != Reissued(w, agent, w.now + ttl)
    ensures Authentic(Rotate(w, agent, ttl), c)
            <==> IsSigned(w.sigs, w.epoch, c) && c.body.certSeq == w.certs[agent].body.certSeq + 1 && ttl > 0
  {
    var next, v := Reissued(w, agent, w.now + ttl), Rotate(w, agent, ttl);
    RotateKeeps(w, agent, ttl);
    RotatedTo(w, agent, ttl);
    hide SigsOk, CacheOk, CertsOk, Reissued, Rotate, Authentic, IsSigned, Install;
    HonouredBesides(w, next, v, c);
  }

  lemma RotatedTo(w: World, agent: string, ttl: int)
    requires agent in w.certs && w.certs[agent].body.agent == agent
    ensures var next, v := Reissued(w, agent, w.now + ttl), Rotate(w, agent, ttl);
            && next.sig == |w.sigs| && next.body.agent == agent && next.body.expiresAt == w.now + ttl
            && next.body.certSeq == w.certs[agent].body.certSeq + 1 && agent !in v.revoked && v.now == w.now
            && v.sigs == Install(w, next).sigs && v.certs == Install(w, next).certs && v.epoch == w.epoch
  {
  }

  lemma HonouredBesides(w: World, next: Cert, v: World, c: Cert)
    requires CertsOk(v) && next.sig == |w.sigs| && c.body.agent == next.body.agent && c != next
    requires v.sigs == Install(w, next).sigs && v.certs == Install(w, next).certs && v.epoch == w.epoch
    ensures Authentic(v, c) <==> IsSigned(w.sigs, w.epoch, c) && c.body.certSeq == next.body.certSeq
                                 && next.body.agent !in v.revoked && v.now < next.body.expiresAt
  {
    AuthenticIff(v, c);
    DiscoverIff(v, c.body.agent);
    assert v.sigs[|w.sigs|].body == next.body;
    if c.sig < |w.sigs| {
      assert v.sigs[c.sig] == w.sigs[c.sig];
    }
  }

  /** Re-published as a tool, an operator still trades on the certificate it was stripped of. */
  lemma DemotedStillGranted()
    ensures var ops := [Publishes("a", "operator", [], 10), Publishes("a", "tool", [], 10)];
            var first := Cert(Body("a", 0, "operator", [], 0, 10, 0), 0);
            && Run(GENESIS, ops).certs["a"].body.role == "tool"
            && Ask(Run(GENESIS, ops), first, "trade_execute", None).0.granted
  {
    var p, q := Publishes("a", "operator", [], 10), Publishes("a", "tool", [], 10);
    var x0, x1 := Body("a", 0, "operator", [], 0, 10, 0), Body("a", 1, "tool", [], 0, 10, 0);
    assert [p, q][..1] == [p];
    RunMore([p], 0);
    RunMore([p, q], 1);
    hide Run;
    var v := Run(GENESIS, [p, q]);
    assert v == Publish(Publish(GENESIS, "a", "operator", [], 10), "a", "tool", [], 10);
    assert v.sigs == [Signed(0, x0), Signed(0, x1)] && v.certs == map["a" := Cert(x1, 1)];
    TradesOn(v, Cert(x0, 0));
  }

  lemma TradesOn(w: World, c: Cert)
    requires Authentic(w, c) && c.body.role == "operator"
    ensures Ask(w, c, "trade_execute", None).0.granted
  {
    assert "trade_execute" in RoleCaps("operator");
  }

  lemma RunMore(ops: seq<Op>, n: nat)
    requires |ops| == n + 1
    ensures Run(GENESIS, ops) == Step(Run(GENESIS, ops[..n]), ops[n])
    ensures n == 0 ==> Run(GENESIS, ops[..n]) == GENESIS
  {
  }

  /** Rotated before it is re-published, the operator still trades on the certificate the rotation superseded;
      rotated once more, on the one the second publishing did. */
  lemma SupersededRevived()
    ensures var p, q, r := Publishes("a", "operator", [], 10), Publishes("a", "tool", [], 10), Rotates("a", 10);
            var first := Cert(Body("a", 0, "operator", [], 0, 10, 0), 0);
            var second := Cert(Body("a", 1, "operator", [], 0, 10, 1), 1);
            && Superseded([p, r, q], 1, first) && Ask(Run(GENESIS, [p, r, q]), first, "trade_execute", None).0.granted
            && Superseded([p, r, q, r], 2, second)
            && Ask(Run(GENESIS, [p, r, q, r]), second, "trade_execute", None).0.granted
  {
    var p, q, r := Publishes("a", "operator", [], 10), Publishes("a", "tool", [], 10), Rotates("a", 10);
    assert [p, r][..1] == [p] && [p, r, q][..2] == [p, r] && [p, r, q, r][..3] == [p, r, q];
    assert [p, r, q][..1] == [p] && [p, r, q, r][..2] == [p, r];
    RunMore([p], 0);
    RunMore([p, r], 1);
    RunMore([p, r, q], 2);
    RunMore([p, r, q, r], 3);
    hide Run, Ask, Authentic;
    var w := Chain();
    TradesOn(w[2], Cert(w[0].sigs[0].body, 0));
    TradesOn(w[3], Cert(w[1].sigs[1].body, 1));
  }

  /** The worlds that run goes through. */
  lemma Chain() returns (w: seq<World>)
    ensures |w| == 4
    ensures w[0] == Publish(GENESIS, "a", "operator", [], 10) && w[1] == Rotate(w[0], "a", 10)
    ensures w[2] == Publish(w[1], "a", "tool", [], 10) && w[3] == Rotate(w[2], "a", 10)
    ensures w[0].sigs == [Signed(0, Body("a", 0, "operator", [], 0, 10, 0))]
    ensures w[1].sigs == w[0].sigs + [Signed(0, Body("a", 1, "operator", [], 0, 10, 1))]
    ensures w[0].certs == map["a" := Cert(w[0].sigs[0].body, 0)] && w[1].certs == map["a" := Cert(w[1].sigs[1].body, 1)]
    ensures |w[2].sigs| == 3 && w[2].certs == map["a" := Cert(w[2].sigs[2].body, 2)]
    ensures |w[3].sigs| == 4 && w[3].certs == map["a" := Cert(w[3].sigs[3].body, 3)]
    ensures Authentic(w[2], Cert(w[0].sigs[0].body, 0)) && Authentic(w[3], Cert(w[1].sigs[1].body, 1))
  {
    var w1 := Publish(GENESIS, "a", "operator", [], 10);
    var w2 := Rotate(w1, "a", 10);
    var w3 := Publish(w2, "a", "tool", [], 10);
    w := [w1, w2, w3, Rotate(w3, "a", 10)];
  }

  /** A replay returns the first answer word for word and changes nothing. So it answers for the capability
      of the first request, not for the one now asked: it covers the request exactly if they are the same. */
  lemma ReplayAnswersFirst(w: World, c: Cert, first: string, second: string, key: string)
    requires !Replays(w, c, Some(key)) && Authentic(w, c) && Decide(c.body.role, first) != DENY
    ensures var (r, v) := Ask(w, c, first, Some(key));
            && Ask(v, c, second, Some(key)) == (r, v)
            && r.granted && (r.capability == second <==> first == second)
  {
    hide Decide, PolicyId;
    var v := Ask(w, c, first, Some(key)).1;
    AskTouches(w, c, first, Some(key));
    assert Authentic(w.(cache := w.cache - {key}), c);
    assert Authentic(v, c);
  }

  /** A refusal is remembered under certificate number 0, whatever the certificate's number was: asked again
      under the same key it is replayed exactly if that number is 0 and the certificate itself is good. */
  lemma RefusalReplaysIff(w: World, c: Cert, capability: string, key: string)
    requires !Replays(w, c, Some(key)) && !Ask(w, c, capability, Some(key)).0.granted
    ensures Replays(Ask(w, c, capability, Some(key)).1, c, Some(key)) <==> c.body.certSeq == 0 && Authentic(w, c)
  {
    hide Decide, PolicyId;
    AskTouches(w, c, capability, Some(key));
    assert Authentic(w.(cache := w.cache - {key}), c) <==> Authentic(w, c);
  }
}
