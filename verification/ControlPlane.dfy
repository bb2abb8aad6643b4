/** The control plane's objects (fleet/crypto/foundation.py, fleet/layers/registry.py, gateway.py,
    __init__.py): each method does to the shared state what the protocol says. */
module ControlPlanes {
  import opened Wrappers
  import opened Authority
  import opened AuthorityLaws

  class AuditTrail {
    var log: seq<Entry>

    constructor ()
      ensures log == []
    {
      log := [];
    }

    method Append(e: Entry) returns (at: nat)
      modifies this
      ensures log == old(log) + [e] && at == old(|log|)
    {
      at, log := |log|, log + [e];
    }
  }

  // ---------------------------------------------------------------- the root

  /** Re-signing a list of certificates from key pair `n` on; unknown roles are skipped. */
  function Resign(n: nat, live: seq<Cert>, issuedAt: int, expiresAt: int): seq<Cert>
    decreases |live|
  {
    if live == [] then []
    else
      var b := live[0].body;
      if b.role !in ROLES then Resign(n, live[1..], issuedAt, expiresAt)
      else [Cert(Body(b.agent, n, b.role, b.capabilities, issuedAt, expiresAt, b.certSeq + 1), n)]
           + Resign(n + 1, live[1..], issuedAt, expiresAt)
  }

  function SignAll(epoch: nat, cs: seq<Cert>): (r: seq<Signed>)
    ensures |r| == |cs| && forall i :: 0 <= i < |cs| ==> r[i] == Signed(epoch, cs[i].body)
  {
    seq(|cs|, i requires 0 <= i < |cs| => Signed(epoch, cs[i].body))
  }

  function FileAll(certs: map<string, Cert>, cs: seq<Cert>): map<string, Cert>
    decreases |cs|
  {
    if cs == [] then certs else FileAll(certs[cs[0].body.agent := cs[0]], cs[1..])
  }

  function OnFile(certs: map<string, Cert>, agents: seq<string>): (r: seq<Cert>)
    requires forall a :: a in agents ==> a in certs
    ensures |r| == |agents| && forall i :: 0 <= i < |agents| ==> r[i] == certs[agents[i]]
  {
    if agents == [] then [] else [certs[agents[0]]] + OnFile(certs, agents[1..])
  }

  /** Re-signing first and filing afterwards comes to the same as agent by agent. */
  lemma {:induction false} ReissueInBulk(w: World, todo: seq<string>, expiresAt: int)
    requires forall a :: a in todo ==> a in w.certs && w.certs[a].body.agent == a
    requires forall i, j :: 0 <= i < j < |todo| ==> todo[i] != todo[j]
    ensures var cs := Resign(|w.sigs|, OnFile(w.certs, todo), w.now, expiresAt);
            ReissueAll(w, todo, expiresAt) == w.(sigs := w.sigs + SignAll(w.epoch, cs), certs := FileAll(w.certs, cs))
    decreases |todo|
  {
    if todo == [] {
      assert w.sigs + SignAll(w.epoch, []) == w.sigs;
    } else {
      var a, rest := todo[0], todo[1..];
      assert a in todo && forall x :: x in rest ==> x in todo && x != a;
      Unrolled(w, a, todo, expiresAt);
      hide SignAll, FileAll, OnFile, Resign, ReissueAll, Install, Reissued;
      if w.certs[a].body.role !in ROLES {
        ReissueInBulk(w, rest, expiresAt);
      } else {
        var c := Reissued(w, a, expiresAt);
        assert c.body.agent == a by {
          ReissuedFor(w, a, expiresAt);
        }
        InstallOthers(w, c, rest);
        ReissueInBulk(Install(w, c), rest, expiresAt);
        BulkStep(w, a, rest, expiresAt, c);
      }
    }
  }

  lemma Unrolled(w: World, a: string, todo: seq<string>, expiresAt: int)
    requires todo != [] && todo[0] == a && (forall x :: x in todo ==> x in w.certs) && w.certs[a].body.agent == a
    ensures forall x :: x in todo[1..] ==> x in w.certs
    ensures ReissueAll(w, todo, expiresAt)
            == ReissueAll(if w.certs[a].body.role !in ROLES then w else Install(w, Reissued(w, a, expiresAt)),
                          todo[1..], expiresAt)
    ensures Resign(|w.sigs|, OnFile(w.certs, todo), w.now, expiresAt)
            == if w.certs[a].body.role !in ROLES then Resign(|w.sigs|, OnFile(w.certs, todo[1..]), w.now, expiresAt)
               else [Reissued(w, a, expiresAt)] + Resign(|w.sigs| + 1, OnFile(w.certs, todo[1..]), w.now, expiresAt)
  {
    assert OnFile(w.certs, todo)[1..] == OnFile(w.certs, todo[1..]);
  }

  lemma ReissuedFor(w: World, a: string, expiresAt: int)
    requires a in w.certs && w.certs[a].body.agent == a
    ensures Reissued(w, a, expiresAt).body.agent == a
  {
  }

  lemma InstallOthers(w: World, c: Cert, rest: seq<string>)
    requires forall x :: x in rest ==> x in w.certs && w.certs[x].body.agent == x && x != c.body.agent
    ensures forall x :: x in rest ==> x in Install(w, c).certs && Install(w, c).certs[x].body.agent == x
    ensures Install(w, c).now == w.now && Install(w, c).epoch == w.epoch
  {
  }

  lemma BulkStep(w: World, a: string, rest: seq<string>, expiresAt: int, c: Cert)
    requires a in w.certs && w.certs[a].body.agent == a && c == Reissued(w, a, expiresAt)
    requires forall x :: x in rest ==> x in w.certs && x in Install(w, c).certs && x != a
    ensures var next := Install(w, c);
            var cs := Resign(|next.sigs|, OnFile(next.certs, rest), w.now, expiresAt);
            && cs == Resign(|w.sigs| + 1, OnFile(w.certs, rest), w.now, expiresAt)
            && next.(sigs := next.sigs + SignAll(w.epoch, cs), certs := FileAll(next.certs, cs))
               == w.(sigs := w.sigs + SignAll(w.epoch, [c] + cs), certs := FileAll(w.certs, [c] + cs))
  {
    hide Resign, SignAll, FileAll, OnFile;
    var next := Install(w, c);
    OnFileOthers(w.certs, a, c, rest);
    var cs := Resign(|w.sigs| + 1, OnFile(w.certs, rest), w.now, expiresAt);
    SignAllCons(w.sigs, w.epoch, c, cs);
    FileAllCons(w.certs, c, cs);
  }

  lemma {:induction false} OnFileOthers(certs: map<string, Cert>, a: string, c: Cert, agents: seq<string>)
    requires forall x :: x in agents ==> x in certs && x != a
    ensures OnFile(certs[a := c], agents) == OnFile(certs, agents)
  {
    if agents != [] {
      assert agents[0] in agents && forall x :: x in agents[1..] ==> x in agents;
      OnFileOthers(certs, a, c, agents[1..]);
    }
  }

  lemma SignAllCons(sigs: seq<Signed>, epoch: nat, c: Cert, cs: seq<Cert>)
    ensures sigs + [Signed(epoch, c.body)] + SignAll(epoch, cs) == sigs + SignAll(epoch, [c] + cs)
  {
  }

  lemma FileAllCons(certs: map<string, Cert>, c: Cert, cs: seq<Cert>)
    ensures FileAll(certs, [c] + cs) == FileAll(certs[c.body.agent := c], cs)
  {
    assert ([c] + cs)[1..] == cs;
  }

  class IdentityRoot {
    var epoch: nat
    var sigs: seq<Signed>
    var revoked: set<string>

    constructor ()
      ensures epoch == 0 && sigs == [] && revoked == {}
    {
      epoch, sigs, revoked := 0, [], {};
    }

    /** A certificate over a fresh key pair; unknown roles raise. */
    method IssueCert(agent: string, role: string, capabilities: seq<string>, issuedAt: int, expiresAt: int,
                     certSeq: int)
      returns (c: Option<Cert>)
      modifies this`sigs
      ensures c == if role !in ROLES then None
                   else Some(Cert(Body(agent, old(|sigs|), role, capabilities, issuedAt, expiresAt, certSeq),
                                  old(|sigs|)))
      ensures sigs == old(sigs) + if c.None? then [] else [Signed(epoch, c.value.body)]
    {
      if role !in ROLES {
        return None;
      }
      var body := Body(agent, |sigs|, role, capabilities, issuedAt, expiresAt, certSeq);
      c := Some(Cert(body, |sigs|));
      sigs := sigs + [Signed(epoch, body)];
    }

    predicate VerifyCert(c: Cert)
      reads this
    {
      c.body.agent !in revoked && IsSigned(sigs, epoch, c)
    }

    method Revoke(agent: string)
      modifies this`revoked
      ensures revoked == old(revoked) + {agent}
    {
      revoked := revoked + {agent};
    }

    method RotateAgent(c: Cert, issuedAt: int, expiresAt: int) returns (r: Option<Cert>)
      modifies this`sigs
      ensures r == if c.body.role !in ROLES then None
                   else Some(Cert(Body(c.body.agent, old(|sigs|), c.body.role, c.body.capabilities, issuedAt, expiresAt,
                                       c.body.certSeq + 1), old(|sigs|)))
      ensures sigs == old(sigs) + if r.None? then [] else [Signed(epoch, r.value.body)]
    {
      r := IssueCert(c.body.agent, c.body.role, c.body.capabilities, issuedAt, expiresAt, c.body.certSeq + 1);
    }

    /** Adopt the next root key and re-sign the certificates under it. */
    method RotateRoot(issuedAt: int, expiresAt: int, live: seq<Cert>) returns (resigned: seq<Cert>)
      modifies this`epoch, this`sigs
      ensures epoch == old(epoch) + 1
      ensures resigned == Resign(old(|sigs|), live, issuedAt, expiresAt)
      ensures sigs == old(sigs) + SignAll(epoch, resigned)
    {
      epoch := epoch + 1;
      resigned := [];
      var i := 0;
      assert live[0..] == live;
      while i < |live|
        invariant 0 <= i <= |live|
        invariant epoch == old(epoch) + 1 && sigs == old(sigs) + SignAll(epoch, resigned)
        invariant resigned + Resign(|sigs|, live[i..], issuedAt, expiresAt)
                  == Resign(old(|sigs|), live, issuedAt, expiresAt)
      {
        assert live[i..][1..] == live[i + 1..];
        ghost var n, rest := |sigs|, Resign(|sigs|, live[i..], issuedAt, expiresAt);
        var c := IssueCert(live[i].body.agent, live[i].body.role, live[i].body.capabilities, issuedAt, expiresAt,
                           live[i].body.certSeq + 1);
        if c.Some? {
          assert rest == [c.value] + Resign(n + 1, live[i + 1..], issuedAt, expiresAt);
          assert SignAll(epoch, resigned + [c.value]) == SignAll(epoch, resigned) + [Signed(epoch, c.value.body)];
          resigned := resigned + [c.value];
        }
        i := i + 1;
      }
    }
  }

  // ---------------------------------------------------------------- the registry

  class AgentRegistry {
    const root: IdentityRoot
    const audit: AuditTrail
    /** Known agents in the order they were first published. */
    var agents: seq<string>
    var certs: map<string, Cert>
    var revoked: set<string>
    var now: int

    constructor (root: IdentityRoot, audit: AuditTrail, now: int)
      ensures this.root == root && this.audit == audit && this.now == now
      ensures agents == [] && certs == map[] && revoked == {}
    {
      this.root, this.audit, this.now := root, audit, now;
      agents, certs, revoked := [], map[], {};
    }

    /** The shared state, with the given cache. */
    function View(cache: map<string, Cached>): World
      reads this, root, audit
    {
      World(root.epoch, root.sigs, root.revoked, agents, certs, revoked, now, cache, audit.log)
    }

    /** The certificate on file; a ValueError for an unknown role. */
    method Publish(agent: string, role: string, capabilities: seq<string>, ttl: int) returns (c: Option<Cert>)
      modifies this`agents, this`certs, root`sigs, audit
      ensures forall cache :: View(cache) == Authority.Publish(old(View(cache)), agent, role, capabilities, ttl)
      ensures c == if role in ROLES then Some(certs[agent]) else None
    {
      c := root.IssueCert(agent, role, capabilities, now, now + ttl, 0);
      if c.None? {
        return;
      }
      agents := if agent in certs then agents else agents + [agent];
      certs := certs[agent := c.value];
      var _ := audit.Append(Published(agent, role, capabilities));
    }

    function Discover(agent: string): (r: Option<Cert>)
      reads this, root, audit
      ensures r == Authority.Discover(View(map[]), agent)
    {
      if agent !in certs then None
      else if agent in revoked then None
      else if !root.VerifyCert(certs[agent]) then None
      else if now >= certs[agent].body.expiresAt then None
      else Some(certs[agent])
    }

    /** Whether the agent was known; if not, a RegistryError. */
    method Revoke(agent: string) returns (known: bool)
      modifies this`revoked, root`revoked, audit
      ensures forall cache :: View(cache) == Authority.Revoke(old(View(cache)), agent)
      ensures known <==> agent in certs
    {
      if agent !in certs {
        return false;
      }
      revoked := revoked + {agent};
      root.Revoke(agent);
      var _ := audit.Append(Revoked(agent));
      known := true;
    }

    method Rotate(agent: string, ttl: int) returns (c: Option<Cert>)
      requires forall a :: a in certs ==> certs[a].body.agent == a && certs[a].body.role in ROLES
      modifies this`certs, this`revoked, root`sigs, root`revoked, audit
      ensures forall cache :: View(cache) == Authority.Rotate(old(View(cache)), agent, ttl)
      ensures c == if agent in old(certs) then Some(certs[agent]) else None
    {
      if agent !in certs {
        return None;
      }
      c := root.RotateAgent(certs[agent], now, now + ttl);
      revoked := revoked - {agent};
      root.revoked := root.revoked - {agent};
      certs := certs[agent := c.value];
      var _ := audit.Append(Rotated(agent, c.value.body.certSeq));
    }
  }

  // ---------------------------------------------------------------- the gateway

  class Gateway {
    const registry: AgentRegistry
    const audit: AuditTrail
    var cache: map<string, Cached>

    constructor (registry: AgentRegistry, audit: AuditTrail)
      ensures this.registry == registry && this.audit == audit && cache == map[]
    {
      this.registry, this.audit, cache := registry, audit, map[];
    }

    function View(): World
      reads this, registry, registry.root, registry.audit
    {
      registry.View(cache)
    }

    /** Whether the certificate has the number of the one on file, which is live, and verifies. */
    predicate Accepts(c: Cert)
      reads this, registry, registry.root, registry.audit
      ensures Accepts(c) <==> Authentic(View(), c)
    {
      var live := registry.Discover(c.body.agent);
      live.Some? && live.value.body.certSeq == c.body.certSeq && registry.root.VerifyCert(c)
    }

    /** Answer a request for authority; a replayed key gets its earlier answer while the certificate stands. */
    method RequestAuthority(c: Cert, capability: string, key: Option<string>) returns (r: Response)
      requires registry.audit == audit
      modifies this, audit
      ensures (r, View()) == Ask(old(View()), c, capability, key)
    {
      hide PolicyId, Decide, IsSigned, Discover, Accepts;
      if key.Some? && key.value in cache {
        var m := cache[key.value];
        if m.agent == c.body.agent && m.certSeq == c.body.certSeq {
          if Accepts(c) {
            return m.response;
          }
        }
        cache := cache - {key.value};
      }
      ForgottenAbsent(old(cache), key);
      if !Accepts(c) {
        r := Refuse(c.body.agent, capability, NotAuthenticated, key);
        return;
      }
      var d := Decide(c.body.role, capability);
      if d == DENY {
        r := Refuse(c.body.agent, capability, NotPermitted(c.body.role, capability), key);
        return;
      }
      var needsApproval := d == REQUIRE_APPROVAL;
      var id := PolicyId(c.body.role, capability);
      var _ := audit.Append(Granted(c.body.agent, capability, id, needsApproval));
      r := Record(Response(true, id, d, capability, c.body.agent, c.body.certSeq, needsApproval, None, key, None));
    }

    method Record(response: Response) returns (r: Response)
      modifies this
      ensures r == response && View() == Keep(old(View()), response)
    {
      r := response;
      if r.key.Some? {
        cache := cache[r.key.value := Cached(r, r.agent, r.certSeq)];
      }
    }

    method Refuse(agent: string, capability: string, why: Why, key: Option<string>) returns (r: Response)
      requires registry.audit == audit
      modifies this, audit
      ensures (r, View()) == Authority.Deny(old(View()), agent, capability, why, key)
    {
      var at := audit.Append(Denied(agent, capability, why));
      r := Record(Response(false, "deny", DENY, capability, agent, 0, false, Some(why), key, Some(at)));
    }
  }

  lemma ForgottenAbsent(cache: map<string, Cached>, key: Option<string>)
    ensures key.Some? && key.value !in cache ==> cache - {key.value} == cache
  {
  }

  // ---------------------------------------------------------------- the control plane

  class ControlPlane {
    const root: IdentityRoot
    const audit: AuditTrail
    const registry: AgentRegistry
    const gateway: Gateway
    var now: int

    constructor (now: int)
      ensures Valid() && World() == GENESIS.(now := now)
    {
      var r := new IdentityRoot();
      var a := new AuditTrail();
      var g := new AgentRegistry(r, a, now);
      root, audit, registry, this.now := r, a, g, now;
      gateway := new Gateway(g, a);
    }

    function World(): World
      reads this, root, audit, registry, gateway, registry.root, registry.audit
    {
      registry.View(gateway.cache)
    }

    ghost predicate Valid()
      reads this, root, audit, registry, gateway, registry.root, registry.audit
    {
      && registry.root == root && registry.audit == audit && gateway.registry == registry && gateway.audit == audit
      && registry.now == now && Good(World())
    }

    method AdvanceClock(t: int)
      requires Valid()
      modifies this, registry`now
      ensures Valid() && World() == old(World()).(now := t)
    {
      ClockKeeps(World(), t);
      now := t;
      registry.now := t;
    }

    method PublishAgent(agent: string, role: string, capabilities: seq<string>, ttl: int) returns (c: Option<Cert>)
      requires Valid()
      modifies registry, root, audit
      ensures Valid() && World() == Publish(old(World()), agent, role, capabilities, ttl)
    {
      hide Good, Authority.Publish;
      PublishKeeps(World(), agent, role, capabilities, ttl);
      c := registry.Publish(agent, role, capabilities, ttl);
    }

    method RevokeAgent(agent: string) returns (known: bool)
      requires Valid()
      modifies registry, root, audit
      ensures Valid() && World() == Revoke(old(World()), agent)
    {
      hide Good, Authority.Revoke;
      RevokeKeeps(World(), agent);
      known := registry.Revoke(agent);
    }

    method RotateAgent(agent: string, ttl: int) returns (c: Option<Cert>)
      requires Valid()
      modifies registry, root, audit
      ensures Valid() && World() == Rotate(old(World()), agent, ttl)
    {
      hide SigsOk, CacheOk, Authority.Rotate;
      RotateKeeps(World(), agent, ttl);
      c := registry.Rotate(agent, ttl);
    }

    method RequestAuthority(c: Cert, capability: string, key: Option<string>) returns (r: Response)
      requires Valid()
      modifies gateway, audit
      ensures Valid() && (r, World()) == Ask(old(World()), c, capability, key)
    {
      hide Good, Ask;
      AskKeeps(World(), c, capability, key);
      r := gateway.RequestAuthority(c, capability, key);
    }

    /** Rotate the root: re-sign every certificate on file, log it, forget every cached answer. */
    method RotateRoot(ttl: int)
      requires Valid()
      modifies registry`certs, root, audit, gateway
      ensures Valid() && World() == Authority.RotateRoot(old(World()), ttl)
    {
      hide SigsOk, CacheOk, Resign, FileAll, ReissueAll, SignAll, OnFile;
      ghost var was := World();
      RotateRootKeeps(was, ttl);
      var from := root.epoch;
      var live := OnFile(registry.certs, registry.agents);
      ReissueInBulk(was.(epoch := was.epoch + 1), was.agents, was.now + ttl);
      var resigned := root.RotateRoot(now, now + ttl, live);
      Refile(resigned);
      var _ := audit.Append(RootRotated(from, root.epoch));
      gateway.cache := map[];
    }

    method Refile(resigned: seq<Cert>)
      modifies registry`certs
      ensures registry.certs == FileAll(old(registry.certs), resigned)
    {
      var i := 0;
      assert resigned[0..] == resigned;
      while i < |resigned|
        invariant i <= |resigned|
        invariant FileAll(registry.certs, resigned[i..]) == FileAll(old(registry.certs), resigned)
      {
        assert resigned[i..][1..] == resigned[i + 1..];
        registry.certs := registry.certs[resigned[i].body.agent := resigned[i]];
        i := i + 1;
      }
    }
  }
}
