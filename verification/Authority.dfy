/** The authority protocol on values: root-signed certificates, the agent registry and the gateway
    (fleet/crypto/foundation.py, fleet/layers/registry.py, gateway.py, policy.py, __init__.py). */
module Authority {
  import opened Wrappers

  // ---------------------------------------------------------------- certificates and ideal signatures

  datatype Body = Body(agent: string, pubkey: nat, role: string, capabilities: seq<string>,
                       issuedAt: int, expiresAt: int, certSeq: int)

  /** A certificate with its root signature. */
  datatype Cert = Cert(body: Body, sig: nat)

  /** What a root key signed; a root key is named by its epoch. */
  datatype Signed = Signed(epoch: nat, body: Body)

  const ROLES: seq<string> := ["researcher", "analyst", "operator", "human", "tool"]

  // ---------------------------------------------------------------- policy

  datatype Decision = GRANT | REQUIRE_APPROVAL | DENY

  function RoleCaps(role: string): seq<string> {
    if role == "researcher" then ["emit_evidence"]
    else if role == "analyst" then ["qualify", "verify_gate"]
    else if role == "operator"
      then ["prepare_artifact", "crm_write", "outreach_send", "incident_remediate", "trade_execute"]
    else if role == "human" then ["approve_deny"]
    else if role == "tool" then ["tool_result"]
    else []
  }

  function Decide(role: string, capability: string): Decision {
    if capability !in RoleCaps(role) then DENY
    else if capability in ["crm_write", "outreach_send"] then REQUIRE_APPROVAL
    else GRANT
  }

  function PolicyId(role: string, capability: string): string { "cap:" + role + ":" + capability }

  // ---------------------------------------------------------------- responses and the audit log

  datatype Why = NotAuthenticated | NotPermitted(role: string, capability: string)

  datatype Entry =
    | Published(agent: string, role: string, capabilities: seq<string>)
    | Revoked(agent: string)
    | Rotated(agent: string, certSeq: int)
    | RootRotated(from: nat, to: nat)
    | Granted(agent: string, capability: string, policyId: string, needsApproval: bool)
    | Denied(agent: string, capability: string, why: Why)

  /** `denial`: where the audit log holds the signed deny event. */
  datatype Response = Response(granted: bool, policyId: string, decision: Decision, capability: string, agent: string,
                               certSeq: int, needsApproval: bool, why: Option<Why>, key: Option<string>,
                               denial: Option<nat>)

  datatype Cached = Cached(response: Response, agent: string, certSeq: int)

  /** `sigs`: everything any root key ever signed, by signature. A signature verifies only if it is in
      this table, so presenting any certificate whatever is allowed. */
  datatype World = World(epoch: nat, sigs: seq<Signed>, rootRevoked: set<string>, agents: seq<string>,
                         certs: map<string, Cert>, revoked: set<string>, now: int, cache: map<string, Cached>,
                         log: seq<Entry>)

  const GENESIS := World(0, [], {}, [], map[], {}, 0, map[], [])

  predicate IsSigned(sigs: seq<Signed>, epoch: nat, c: Cert) { c.sig < |sigs| && sigs[c.sig] == Signed(epoch, c.body) }

  /** Signed by the current root and unrevoked; expiry is not looked at. */
  predicate Verifies(w: World, c: Cert) { c.body.agent !in w.rootRevoked && IsSigned(w.sigs, w.epoch, c) }

  /** Signed by any root there has been. */
  predicate VerifiesAnyEpoch(w: World, c: Cert) {
    c.sig < |w.sigs| && w.sigs[c.sig].body == c.body && w.sigs[c.sig].epoch <= w.epoch
  }

  function Discover(w: World, agent: string): Option<Cert> {
    if agent !in w.certs || agent in w.revoked || !Verifies(w, w.certs[agent]) || w.now >= w.certs[agent].body.expiresAt
    then None else Some(w.certs[agent])
  }

  // ---------------------------------------------------------------- registry steps

  /** The certificate the root issues next: a fresh key pair, signed. */
  function NextCert(w: World, agent: string, role: string, capabilities: seq<string>, issuedAt: int, expiresAt: int,
                    certSeq: int): Cert {
    Cert(Body(agent, |w.sigs|, role, capabilities, issuedAt, expiresAt, certSeq), |w.sigs|)
  }

  function Install(w: World, c: Cert): World {
    w.(sigs := w.sigs + [Signed(w.epoch, c.body)], certs := w.certs[c.body.agent := c])
  }

  function Publish(w: World, agent: string, role: string, capabilities: seq<string>, ttl: int): World {
    if role !in ROLES then w
    else Install(w, NextCert(w, agent, role, capabilities, w.now, w.now + ttl, 0))
         .(agents := if agent in w.certs then w.agents else w.agents + [agent],
           log := w.log + [Published(agent, role, capabilities)])
  }

  function Revoke(w: World, agent: string): World {
    if agent !in w.certs then w
    else w.(revoked := w.revoked + {agent}, rootRevoked := w.rootRevoked + {agent}, log := w.log + [Revoked(agent)])
  }

  function Reissued(w: World, agent: string, expiresAt: int): Cert
    requires agent in w.certs
  {
    var b := w.certs[agent].body;
    NextCert(w, b.agent, b.role, b.capabilities, w.now, expiresAt, b.certSeq + 1)
  }

  /** Rotation also lifts a revocation. */
  function Rotate(w: World, agent: string, ttl: int): World {
    if agent !in w.certs then w
    else
      var c := Reissued(w, agent, w.now + ttl);
      Install(w, c).(revoked := w.revoked - {agent}, rootRevoked := w.rootRevoked - {agent},
                     log := w.log + [Rotated(agent, c.body.certSeq)])
  }

  /** Re-signing every certificate on file, expired and revoked ones too. */
  function ReissueAll(w: World, todo: seq<string>, expiresAt: int): World
    decreases |todo|
  {
    if todo == [] then w
    else if todo[0] !in w.certs || w.certs[todo[0]].body.role !in ROLES then ReissueAll(w, todo[1..], expiresAt)
    else ReissueAll(Install(w, Reissued(w, todo[0], expiresAt)), todo[1..], expiresAt)
  }

  function RotateRoot(w: World, ttl: int): World {
    var next := ReissueAll(w.(epoch := w.epoch + 1), w.agents, w.now + ttl);
    next.(cache := map[], log := w.log + [RootRotated(w.epoch, w.epoch + 1)])
  }

  // ---------------------------------------------------------------- the gateway

  predicate Authentic(w: World, c: Cert) {
    var live := Discover(w, c.body.agent);
    live.Some? && live.value.body.certSeq == c.body.certSeq && Verifies(w, c)
  }

  /** Whether a request is answered from the cache. */
  predicate Replays(w: World, c: Cert, key: Option<string>) {
    key.Some? && key.value in w.cache && w.cache[key.value].agent == c.body.agent
    && w.cache[key.value].certSeq == c.body.certSeq && Authentic(w, c)
  }

  function Keep(w: World, r: Response): World {
    if r.key.None? then w else w.(cache := w.cache[r.key.value := Cached(r, r.agent, r.certSeq)])
  }

  function Deny(w: World, agent: string, capability: string, why: Why, key: Option<string>): (Response, World) {
    var r := Response(false, "deny", DENY, capability, agent, 0, false, Some(why), key, Some(|w.log|));
    (r, Keep(w.(log := w.log + [Denied(agent, capability, why)]), r))
  }

  function Ask(w: World, c: Cert, capability: string, key: Option<string>): (Response, World) {
    if Replays(w, c, key) then (w.cache[key.value].response, w)
    else
      var w := if key.Some? then w.(cache := w.cache - {key.value}) else w;
      var d := Decide(c.body.role, capability);
      if !Authentic(w, c) then Deny(w, c.body.agent, capability, NotAuthenticated, key)
      else if d == DENY then Deny(w, c.body.agent, capability, NotPermitted(c.body.role, capability), key)
      else
        var id := PolicyId(c.body.role, capability);
        var r := Response(true, id, d, capability, c.body.agent, c.body.certSeq, d == REQUIRE_APPROVAL, None, key,
                          None);
        (r, Keep(w.(log := w.log + [Granted(c.body.agent, capability, id, d == REQUIRE_APPROVAL)]), r))
  }

  // ---------------------------------------------------------------- runs

  datatype Op =
    | Publishes(agent: string, role: string, capabilities: seq<string>, ttl: int)
    | Revokes(agent: string)
    | Rotates(agent: string, ttl: int)
    | RotatesRoot(ttl: int)
    | SetsClock(now: int)
    | Asks(cert: Cert, capability: string, key: Option<string>)

  function Step(w: World, op: Op): World {
    match op
    case Publishes(agent, role, capabilities, ttl) => Publish(w, agent, role, capabilities, ttl)
    case Revokes(agent) => Revoke(w, agent)
    case Rotates(agent, ttl) => Rotate(w, agent, ttl)
    case RotatesRoot(ttl) => RotateRoot(w, ttl)
    case SetsClock(now) => w.(now := now)
    case Asks(cert, capability, key) => Ask(w, cert, capability, key).1
  }

  function Run(w: World, ops: seq<Op>): World
    decreases |ops|
  {
    if ops == [] then w else Step(Run(w, ops[..|ops| - 1]), ops[|ops| - 1])
  }

  /** `agent` is never published while it is already known. */
  ghost predicate NeverRepublished(w: World, ops: seq<Op>, agent: string) {
    forall i :: 0 <= i < |ops| && ops[i].Publishes? && ops[i].agent == agent ==> agent !in Run(w, ops[..i]).certs
  }
}
