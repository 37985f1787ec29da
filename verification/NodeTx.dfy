/** Transactions on relay nodes: creation, enrollment, sessions and the instance lease,
    clone conflicts, heartbeats, acknowledgements, release and removal
    (internal/control/nodes.go, node_self.go, control_stream.go, resources.go, policy.go). */
module NodeTx {
  import opened Ids
  import opened Protocol
  import opened Tables
  import opened AccountTx

  const LEASE_SECONDS := 90
  const SESSION_SECONDS := 3600
  const CHALLENGE_SECONDS := 120
  const CODE_SECONDS := 1800
  const MAX_CHALLENGES := 8
  const FIRST_REGION := 900
  const LAST_REGION := 999

  /** The rows of a per-node table that belong to other nodes. */
  function SessionsOfOthers(db: Database, n: Id): map<string, SessionRow> {
    map k | k in db.sessions && db.sessions[k].node != n :: db.sessions[k]
  }

  function ChallengesOfOthers(db: Database, n: Id): map<string, ChallengeRow> {
    map k | k in db.challenges && db.challenges[k].node != n :: db.challenges[k]
  }

  function UsedRegions(db: Database): set<int> { set n | n in db.nodes :: db.nodes[n].region }

  function FirstFree(used: set<int>, r: int): (free: int)
    ensures free == 0 || (r <= free <= LAST_REGION && free !in used && forall k :: r <= k < free ==> k in used)
    ensures free == 0 && 0 < r ==> forall k :: r <= k <= LAST_REGION ==> k in used
    decreases LAST_REGION - r
  {
    if r > LAST_REGION then 0 else if r !in used then r else FirstFree(used, r + 1)
  }

  ghost predicate DomainTaken(db: Database, domain: string, except: Id) {
    exists n :: n in db.nodes && n != except && db.nodes[n].domain == domain
  }

  /** A fresh one-time code for the node replaces any earlier one, and pending challenges are dropped. */
  function WithEnrollment(db: Database, n: Id, code: string, now: int): Database
    requires n in db.nodes
  {
    db.(enrollments := db.enrollments[n := Enrollment(db.nodes[n].owner, code, now + CODE_SECONDS, 0, None, None)],
        challenges := ChallengesOfOthers(db, n), drawn := db.drawn + {code})
  }

  ghost function CreateNode(db: Database, actor: Actor, id: Id, code: string, domain: string, now: int): (tx: Tx)
    ensures tx.Commit? ==> tx.db == db.(nodes := tx.db.nodes, enrollments := tx.db.enrollments,
                                        challenges := tx.db.challenges, drawn := tx.db.drawn)
    ensures tx.Commit? ==> db.drawn <= tx.db.drawn
  {
    if actor.role.Member? then Abort(Forbidden)
    else if !ActiveActor(db, actor) || !RequireOwner(actor, actor.id) then Abort(Forbidden)
    else
      var region := FirstFree(UsedRegions(db), FIRST_REGION);
      if region == 0 || DomainTaken(db, domain, id) || actor.id !in db.users then Abort(Conflict)
      else
        var n := Node(actor.id, domain, region, None, Pending, "", 0, true, 0);
        Commit(WithEnrollment(db.(nodes := db.nodes[id := n], drawn := db.drawn + {id}), id, code, now), {})
  }

  /** The grants of a released node: revoked, one revision later unless they already were. */
  function RevokedGrants(db: Database, n: Id): map<Pair, Grant> {
    map p | p in db.grants :: if p.node == n && !db.grants[p].state.Revoked?
                              then db.grants[p].(state := Revoked, revision := db.grants[p].revision + 1, lastControl := 0)
                              else db.grants[p]
  }

  /** Forget the registration but keep the public key, the desired revision and the bandwidth settings. */
  function Released(db: Database, n: Id): Database
    requires n in db.nodes
  {
    db.(sessions := SessionsOfOthers(db, n), challenges := ChallengesOfOthers(db, n), enrollments := db.enrollments - {n},
        nodes := db.nodes[n := db.nodes[n].(state := Pending, instance := "", leaseUntil := 0, domainVerifiedAt := 0)],
        grants := RevokedGrants(db, n),
        policies := if n in db.policies then db.policies[n := db.policies[n].(received := 0, applied := 0, usable := false, body := None)] else db.policies)
  }

  function OwnPolicy(db: Database, n: Id): set<Id> { if n in db.policies then {n} else {} }

  function IssueEnrollment(db: Database, actor: Actor, n: Id, code: string, now: int): (tx: Tx)
    ensures tx.Commit? ==> tx.db == db.(nodes := tx.db.nodes, policies := tx.db.policies, sessions := tx.db.sessions,
                                        enrollments := tx.db.enrollments, challenges := tx.db.challenges,
                                        grants := tx.db.grants, drawn := tx.db.drawn)
    ensures tx.Commit? ==> db.drawn <= tx.db.drawn
    ensures tx.Commit? ==> db.policies.Keys <= tx.db.policies.Keys
    ensures tx.Commit? ==> db.grants.Keys <= tx.db.grants.Keys
  {
    if !ActiveActor(db, actor) then Abort(Forbidden)
    else if n !in db.nodes then Abort(NotFound)
    else if !RequireOwner(actor, db.nodes[n].owner) then Abort(Forbidden)
    else if db.nodes[n].state.Pending? then Commit(WithEnrollment(db, n, code, now), {})
    else Commit(WithEnrollment(Released(db, n), n, code, now), OwnPolicy(db, n))
  }

  // Challenges.

  predicate InstanceChar(c: char) { 'a' <= c <= 'z' || 'A' <= c <= 'Z' || '0' <= c <= '9' || c == '-' || c == '_' }

  predicate ValidInstance(s: string) {
    0 < |s| <= 128 && forall i :: 0 <= i < |s| ==> InstanceChar(s[i])
  }

  /** Challenges of other nodes, and this node's that are neither expired nor used. */
  function FreshChallenges(db: Database, n: Id, now: int): map<string, ChallengeRow> {
    map k | k in db.challenges && (db.challenges[k].node != n || (db.challenges[k].expiresAt > now && db.challenges[k].usedAt == 0)) :: db.challenges[k]
  }

  function ChallengesOf(challenges: map<string, ChallengeRow>, n: Id): set<string> {
    set k | k in challenges && challenges[k].node == n
  }

  function NewChallenge(env: Env, db: Database, purpose: Purpose, n: Id, domain: string, key: string, instance: string, nonce: string, now: int): (tx: Tx)
    ensures tx.Commit? ==> tx.db == db.(challenges := tx.db.challenges, drawn := tx.db.drawn)
    ensures tx.Commit? ==> db.drawn <= tx.db.drawn
  {
    var c := Challenge(purpose, env.clusterId, n, domain, nonce, now + CHALLENGE_SECONDS, key, instance);
    var left := FreshChallenges(db, n, now);
    if |ChallengesOf(left, n)| >= MAX_CHALLENGES then Abort(Conflict)
    else Commit(db.(challenges := left[nonce := ChallengeRow(n, c, now + CHALLENGE_SECONDS, 0)], drawn := db.drawn + {nonce}), {})
  }

  /** The code is open: unexpired, unused, issued for the node's present owner, and the key fits. */
  predicate CodeOpen(db: Database, n: Id, code: string, key: string, now: int) {
    && n in db.enrollments && n in db.nodes
    && var e, node := db.enrollments[n], db.nodes[n];
       && e.owner == node.owner && e.code == code && e.expiresAt > now && e.consumedAt == 0
       && node.state.Pending? && (node.publicKey.None? || node.publicKey == Some(key)) && UserEnabled(db, node.owner)
  }

  ghost function EnrollmentChallenge(env: Env, db: Database, code: string, key: string, instance: string, nonce: string, now: int): (tx: Tx)
    ensures tx.Commit? ==> tx.db == db.(challenges := tx.db.challenges, drawn := tx.db.drawn)
    ensures tx.Commit? ==> db.drawn <= tx.db.drawn
  {
    if |code| != 64 || |key| != 32 || !ValidInstance(instance) then Abort(Invalid)
    else if !exists n :: CodeOpen(db, n, code, key, now) then Abort(Unauthorized)
    else
      var n :| CodeOpen(db, n, code, key, now);
      NewChallenge(env, db, ForEnroll, n, db.nodes[n].domain, key, instance, nonce, now)
  }

  function SessionChallenge(env: Env, db: Database, n: Id, instance: string, nonce: string, now: int): (tx: Tx)
    ensures tx.Commit? ==> tx.db == db.(challenges := tx.db.challenges, drawn := tx.db.drawn)
    ensures tx.Commit? ==> db.drawn <= tx.db.drawn
  {
    if !ValidInstance(instance) then Abort(Invalid)
    else if !(n in db.nodes && (Serving(db.nodes[n].state) || db.nodes[n].state.DomainPending?) && UserEnabled(db, db.nodes[n].owner)
              && db.nodes[n].publicKey.Some? && |db.nodes[n].publicKey.value| == 32) then Abort(Unauthorized)
    else
      var purpose := if db.nodes[n].state.DomainPending? then ForDomainChange else ForSession;
      NewChallenge(env, db, purpose, n, db.nodes[n].domain, db.nodes[n].publicKey.value, instance, nonce, now)
  }

  /** The answer proves the key on a stored, unexpired, unused challenge. */
  predicate ChallengeProven(env: Env, db: Database, c: Challenge, signature: string, purpose: Purpose, now: int) {
    && c.clusterId == env.clusterId && c.purpose == purpose && |c.publicKey| == 32 && |signature| == 64 && |c.nonce| == 64
    && now < c.expiresAt
    && c.nonce in db.challenges
    && db.challenges[c.nonce].node == c.nodeId && db.challenges[c.nonce].expiresAt > now
    && db.challenges[c.nonce].usedAt == 0 && db.challenges[c.nonce].payload == c
    && env.verifies(c.publicKey, c, signature)
  }

  function Spent(challenges: map<string, ChallengeRow>, nonce: string, now: int): map<string, ChallengeRow> {
    if nonce in challenges then challenges[nonce := challenges[nonce].(usedAt := now)] else challenges
  }

  function NewSession(env: Env, n: Id, instance: string, token: string, now: int): NodeSession {
    NodeSession(env.clusterId, n, instance, token, now + SESSION_SECONDS, now + LEASE_SECONDS)
  }

  /** One session per node: minting removes the others. */
  function Minted(db: Database, s: NodeSession): map<string, SessionRow> {
    SessionsOfOthers(db, s.nodeId)[s.token := SessionRow(s.nodeId, s.instanceId, s.expiresAt)]
  }

  // Enrollment.

  datatype Receipt = Denied | Unconsumed | Receipt(session: NodeSession)

  function EnrollmentReceipt(db: Database, req: EnrollmentRequest, now: int): Receipt {
    var n := req.challenge.nodeId;
    if !(n in db.enrollments && n in db.nodes && db.enrollments[n].owner == db.nodes[n].owner && db.enrollments[n].code == req.code
         && db.enrollments[n].expiresAt > now && UserEnabled(db, db.nodes[n].owner)) then Denied
    else
      var e := db.enrollments[n];
      if e.consumedAt == 0 then Unconsumed
      else if e.request != Some(req) || e.response.None? || now >= e.response.value.expiresAt then Denied
      else Receipt(e.response.value)
  }

  const DEFAULT_POLICY := PolicyRow(0, 0, 0, false, None, 100_000_000, 8, 2, 0)

  /** The node may be bound to the key the request proves. */
  predicate EnrollmentFits(db: Database, c: Challenge) {
    && c.nodeId in db.nodes && db.nodes[c.nodeId].domain == c.domain && db.nodes[c.nodeId].state.Pending?
    && (db.nodes[c.nodeId].publicKey.None? || db.nodes[c.nodeId].publicKey == Some(c.publicKey))
  }

  /** The second phase of an enrollment, after the domain was verified outside any transaction.
      The first phase only reads, so this may follow it at any later point. */
  function EnrollNode(env: Env, db: Database, req: EnrollmentRequest, token: string, now: int): (tx: Tx)
    ensures tx.Commit? ==> tx.db == db.(nodes := tx.db.nodes, policies := tx.db.policies, challenges := tx.db.challenges,
                                        sessions := tx.db.sessions, enrollments := tx.db.enrollments,
                                        drawn := tx.db.drawn)
    ensures tx.Commit? ==> db.drawn <= tx.db.drawn
    ensures tx.Commit? ==> db.policies.Keys <= tx.db.policies.Keys
  {
    if |req.code| != 64 then Abort(Invalid)
    else
      var receipt, c := EnrollmentReceipt(db, req, now), req.challenge;
      if receipt.Denied? then Abort(Unauthorized)
      else if receipt.Receipt? then Keep
      else if !ChallengeProven(env, db, c, req.signature, ForEnroll, now) || !EnrollmentFits(db, c) then Abort(Unauthorized)
      else
        var n := c.nodeId;
        var session := NewSession(env, n, c.instanceId, token, now);
        var node := db.nodes[n].(publicKey := Some(c.publicKey), instance := c.instanceId, state := Registered,
                                 leaseUntil := now + LEASE_SECONDS, domainVerifiedAt := now);
        Commit(db.(nodes := db.nodes[n := node],
                   policies := if n in db.policies then db.policies else db.policies[n := DEFAULT_POLICY],
                   challenges := Spent(db.challenges, c.nonce, now),
                   sessions := Minted(db, session),
                   enrollments := db.enrollments[n := db.enrollments[n].(consumedAt := now, request := Some(req), response := Some(session))],
                   drawn := db.drawn + {token}), {n})
  }

  // Sessions.

  /** The node that presents the challenge is known, enabled by its owner, and in the state the purpose is for. */
  predicate RenewalFits(db: Database, c: Challenge) {
    && c.nodeId in db.nodes && db.nodes[c.nodeId].domain == c.domain && UserEnabled(db, db.nodes[c.nodeId].owner)
    && ((c.purpose.ForSession? && Serving(db.nodes[c.nodeId].state)) || (c.purpose.ForDomainChange? && db.nodes[c.nodeId].state.DomainPending?))
    && db.nodes[c.nodeId].publicKey == Some(c.publicKey)
  }

  /** Another instance proves the identity while the recorded one still holds its lease. */
  predicate Clone(node: Node, instance: string, now: int) { node.instance != instance && node.leaseUntil > now }

  function RenewedNode(node: Node, c: Challenge, now: int): Node {
    node.(instance := c.instanceId, leaseUntil := now + LEASE_SECONDS,
          state := if node.state.DomainPending? then Registered else node.state,
          domainVerifiedAt := if c.purpose.ForDomainChange? then now else node.domainVerifiedAt)
  }

  function RenewSession(env: Env, db: Database, c: Challenge, signature: string, token: string, now: int): (tx: Tx)
    ensures tx.Commit? ==> tx.db == db.(nodes := tx.db.nodes, challenges := tx.db.challenges, sessions := tx.db.sessions,
                                        drawn := tx.db.drawn)
    ensures tx.Commit? ==> db.drawn <= tx.db.drawn
  {
    if !(c.purpose.ForSession? || c.purpose.ForDomainChange?) || !ChallengeProven(env, db, c, signature, c.purpose, now) || !RenewalFits(db, c) then
      Abort(Unauthorized)
    else
      var n, node := c.nodeId, db.nodes[c.nodeId];
      var challenges := Spent(db.challenges, c.nonce, now);
      if Clone(node, c.instanceId, now) then
        Commit(db.(nodes := db.nodes[n := node.(state := IdentityConflict)], sessions := SessionsOfOthers(db, n), challenges := challenges), {n})
      else
        Commit(db.(nodes := db.nodes[n := RenewedNode(node, c, now)], challenges := challenges,
                   sessions := Minted(db, NewSession(env, n, c.instanceId, token, now)), drawn := db.drawn + {token}), {})
  }

  function RecoverInstance(db: Database, actor: Actor, n: Id, instance: string, now: int): (tx: Tx)
    ensures tx.Commit? ==> tx.db == db.(nodes := tx.db.nodes, sessions := tx.db.sessions, challenges := tx.db.challenges)
  {
    if !ValidInstance(instance) then Abort(Invalid)
    else if !ActiveActor(db, actor) then Abort(Forbidden)
    else if n !in db.nodes then Abort(NotFound)
    else if !RequireOwner(actor, db.nodes[n].owner) then Abort(Forbidden)
    else if !db.nodes[n].state.IdentityConflict? then Abort(Conflict)
    else
      Commit(db.(nodes := db.nodes[n := db.nodes[n].(state := Registered, instance := instance, leaseUntil := now + LEASE_SECONDS)],
                 sessions := SessionsOfOthers(db, n), challenges := ChallengesOfOthers(db, n)), {n})
  }

  /** The token authenticates node `n`: it is stored, unexpired, for the recorded instance of a serving node. */
  predicate Authenticates(db: Database, token: string, n: Id, now: int) {
    && IsToken(token) && token in db.sessions
    && var s := db.sessions[token];
       && s.node == n && s.expiresAt > now && n in db.nodes && s.instance == db.nodes[n].instance
       && Serving(db.nodes[n].state) && UserEnabled(db, db.nodes[n].owner)
  }

  function SessionNode(db: Database, token: string, now: int): (r: Option<Id>)
    ensures forall n :: r == Some(n) <==> Authenticates(db, token, n, now)
  {
    if token in db.sessions && Authenticates(db, token, db.sessions[token].node, now) then Some(db.sessions[token].node) else None
  }

  function ConfirmedGrants(db: Database, n: Id, now: int): map<Pair, Grant> {
    map p | p in db.grants :: if p.node == n && db.grants[p].state.Active? then db.grants[p].(lastControl := now) else db.grants[p]
  }

  function NodeHeartbeat(db: Database, token: string, now: int): (tx: Tx)
    ensures tx.Commit? ==> tx.db == db.(nodes := tx.db.nodes, grants := tx.db.grants)
    ensures tx.Commit? ==> db.grants.Keys <= tx.db.grants.Keys
  {
    match SessionNode(db, token, now)
    case None => Abort(Unauthorized)
    case Some(n) =>
      Commit(db.(nodes := db.nodes[n := db.nodes[n].(leaseUntil := now + LEASE_SECONDS)], grants := ConfirmedGrants(db, n, now)), {n})
  }

  function ReleaseNode(db: Database, token: string, now: int): (tx: Tx)
    ensures tx.Commit? ==> tx.db == db.(nodes := tx.db.nodes, policies := tx.db.policies, sessions := tx.db.sessions,
                                        enrollments := tx.db.enrollments, challenges := tx.db.challenges,
                                        grants := tx.db.grants)
    ensures tx.Commit? ==> db.policies.Keys <= tx.db.policies.Keys
    ensures tx.Commit? ==> db.grants.Keys <= tx.db.grants.Keys
  {
    match SessionNode(db, token, now)
    case None => Abort(Unauthorized)
    case Some(n) => Commit(Released(db, n), OwnPolicy(db, n))
  }

  // Acknowledgements.

  datatype AckState = AckReceived | AckApplied | AckNack | AckOther
  datatype Ack = Ack(revision: int, state: AckState, usable: bool, error: string)

  predicate KnownFailure(e: string) { e == "invalid_policy" || e == "persist_failed" || e == "apply_failed" || e == "clock_rollback" }

  predicate WellFormedAck(a: Ack) {
    && 0 < a.revision <= MAX_INT64
    && match a.state
       case AckReceived => a.error == "" && !a.usable
       case AckApplied => a.error == ""
       case AckNack => !a.usable && KnownFailure(a.error)
       case AckOther => false
  }

  /** Some key of the policy is still admitted at `now`. */
  predicate HasLiveKey(p: Policy, now: int) {
    exists i, j :: 0 <= i < |p.grants| && 0 <= j < |p.grants[i].keys| && now < EarliestDeadline(p.grants[i], p.grants[i].keys[j])
  }

  /** The acknowledgement columns after `a`: neither ever falls, and applied never passes received. */
  function AckedRow(row: PolicyRow, a: Ack, now: int): Outcome<PolicyRow> {
    if a.revision > row.desired then Err(Conflict)
    else match a.state
      case AckReceived =>
        if a.revision < row.received then Err(Conflict) else Ok(row.(received := a.revision))
      case AckApplied =>
        if a.revision > row.received || a.revision < row.applied then Err(Conflict)
        else if row.body.None? then Err(Invalid)
        else Ok(row.(applied := a.revision, usable := a.usable && a.revision == row.desired && HasLiveKey(row.body.value, now)))
      case _ =>
        if a.revision <= row.applied || a.revision < row.received then Err(Conflict) else Ok(row)
  }

  function AckedState(state: NodeState, a: Ack, usable: bool): NodeState {
    if a.state.AckReceived? then state else if a.state.AckApplied? && usable then Ready else Registered
  }

  function Acknowledge(db: Database, token: string, a: Ack, now: int): (tx: Tx)
    ensures tx.Commit? ==> tx.db == db.(policies := tx.db.policies, nodes := tx.db.nodes)
    ensures tx.Commit? ==> db.policies.Keys <= tx.db.policies.Keys
  {
    if !WellFormedAck(a) then Abort(Invalid)
    else match SessionNode(db, token, now)
      case None => Abort(Unauthorized)
      case Some(n) =>
        if n !in db.policies then Abort(NotFound)
        else match AckedRow(db.policies[n], a, now)
          case Err(e) => Abort(e)
          case Ok(row) =>
            Commit(db.(policies := db.policies[n := row],
                       nodes := db.nodes[n := db.nodes[n].(state := AckedState(db.nodes[n].state, a, row.usable))]), {})
  }

  // Administration.

  function SetNodeEnabled(db: Database, actor: Actor, n: Id, on: bool): (tx: Tx)
    ensures tx.Commit? ==> tx.db == db.(nodes := tx.db.nodes)
  {
    if !ActiveActor(db, actor) then Abort(Forbidden)
    else if n !in db.nodes then Abort(NotFound)
    else if !RequireOwner(actor, db.nodes[n].owner) then Abort(Forbidden)
    else if on && db.nodes[n].state.DomainPending? then Abort(Conflict)
    else Commit(db.(nodes := db.nodes[n := db.nodes[n].(enabled := on)]), if db.nodes[n].state.Pending? then {} else {n})
  }

  function WithoutNode(db: Database, n: Id): Database {
    db.(nodes := db.nodes - {n}, enrollments := db.enrollments - {n}, policies := db.policies - {n},
        sessions := SessionsOfOthers(db, n), challenges := ChallengesOfOthers(db, n),
        grants := map p | p in db.grants && p.node != n :: db.grants[p],
        rules := map p | p in db.rules && p.node != n :: db.rules[p])
  }

  /** The node has applied the last published policy. */
  predicate UpToDate(db: Database, n: Id) { n in db.policies ==> db.policies[n].applied == db.policies[n].desired }

  function DeleteNode(db: Database, actor: Actor, n: Id, connected: bool): (tx: Tx)
    ensures tx.Commit? ==> tx.db == db.(nodes := tx.db.nodes, policies := tx.db.policies, sessions := tx.db.sessions,
                                        enrollments := tx.db.enrollments, challenges := tx.db.challenges,
                                        grants := tx.db.grants, rules := tx.db.rules)
    ensures tx.Commit? ==> forall m :: m in db.policies ==> m in tx.db.policies || m !in tx.db.nodes
    ensures tx.Commit? ==> forall p :: p in db.grants ==> p in tx.db.grants || p.node !in tx.db.nodes
  {
    if !ActiveActor(db, actor) then Abort(Forbidden)
    else if n !in db.nodes then Abort(NotFound)
    else if !RequireOwner(actor, db.nodes[n].owner) then Abort(Forbidden)
    else if !db.nodes[n].state.Pending? && (db.nodes[n].enabled || (connected && !UpToDate(db, n))) then Abort(Conflict)
    else Commit(WithoutNode(db, n), {})
  }

  ghost function ChangeDomain(db: Database, actor: Actor, n: Id, domain: string, connected: bool): (tx: Tx)
    ensures tx.Commit? ==> tx.db == db.(nodes := tx.db.nodes, sessions := tx.db.sessions, challenges := tx.db.challenges,
                                        enrollments := tx.db.enrollments)
  {
    if !ActiveActor(db, actor) then Abort(Forbidden)
    else if n !in db.nodes then Abort(NotFound)
    else if !RequireOwner(actor, db.nodes[n].owner) then Abort(Forbidden)
    else if db.nodes[n].enabled || !(Serving(db.nodes[n].state) || db.nodes[n].state.DomainPending?) then Abort(Conflict)
    else if domain == db.nodes[n].domain then Keep
    else if DomainTaken(db, domain, n) then Abort(Conflict)
    else if n !in db.policies then Abort(NotFound)
    else if connected && !UpToDate(db, n) then Abort(Conflict)
    else
      Commit(db.(nodes := db.nodes[n := db.nodes[n].(domain := domain, state := DomainPending, domainVerifiedAt := 0)],
                 sessions := SessionsOfOthers(db, n), challenges := ChallengesOfOthers(db, n), enrollments := db.enrollments - {n}), {})
  }
}
