/** The controller's tables. Grants and bandwidth rules are keyed by their node and
    tailnet, which is the schema's UNIQUE(node_id, tailnet_id); secrets that the schema
    stores hashed are keyed by the secret itself, since the hash is taken as injective. */
module Tables {
  import opened Ids
  import opened Protocol
  import opened Identity

  datatype Role = Admin | Provider | Member
  datatype User = User(role: Role, enabled: bool)
  datatype Actor = Actor(id: Id, role: Role, enabled: bool)

  datatype Tailnet = Tailnet(owner: Id, apiId: Id, enabled: bool)

  datatype CredentialStatus = Valid | Unavailable | Missing
  datatype Credential = Credential(status: CredentialStatus, revision: int, refreshSeq: int)

  datatype NodeState = Pending | Registered | Ready | Offline | DomainPending | IdentityConflict
  datatype Node = Node(owner: Id, domain: string, region: int, publicKey: Option<string>, state: NodeState,
                       instance: string, leaseUntil: int, enabled: bool, domainVerifiedAt: int)

  datatype Purpose = ForEnroll | ForSession | ForDomainChange | ForOther
  datatype Challenge = Challenge(purpose: Purpose, clusterId: Id, nodeId: Id, domain: string, nonce: string,
                                 expiresAt: int, publicKey: string, instanceId: string)
  datatype EnrollmentRequest = EnrollmentRequest(code: string, challenge: Challenge, signature: string)
  datatype NodeSession = NodeSession(clusterId: Id, nodeId: Id, instanceId: string, token: string,
                                     expiresAt: int, leaseUntil: int)

  /** What the node learns from a heartbeat. */
  datatype Heartbeat = Heartbeat(nodeId: Id, leaseUntil: int, desired: int, intervalMillis: int)

  datatype Enrollment = Enrollment(owner: Id, code: string, expiresAt: int, consumedAt: int,
                                   request: Option<EnrollmentRequest>, response: Option<NodeSession>)
  datatype SessionRow = SessionRow(node: Id, instance: string, expiresAt: int)
  datatype ChallengeRow = ChallengeRow(node: Id, payload: Challenge, expiresAt: int, usedAt: int)

  /** Expired is never stored: it is how a past explicit deadline reads. */
  datatype GrantState = Requested | OwnerApproved | Active | Cancelled | Rejected | Revoked | Expired
  datatype Grant = Grant(id: Id, state: GrantState, revision: int, explicitUntil: int, lastControl: int)
  datatype Pair = Pair(node: Id, tailnet: Id)

  datatype Rule = Rule(group: Group, weight: int, maxBps: int)

  datatype PolicyRow = PolicyRow(desired: int, received: int, applied: int, usable: bool, body: Option<Policy>,
                                 budgetBps: int, ownerWeight: int, sharedWeight: int, sharedMaxBps: int)

  datatype Retentions = Retentions(identity: int, control: int)

  /** `drawn` holds every random token handed out so far; a new one is never among them. */
  datatype Database = Database(
    users: map<Id, User>,
    tailnets: map<Id, Tailnet>,
    credentials: map<Id, Credential>,
    snapshots: map<Id, Snapshot>,
    nodes: map<Id, Node>,
    enrollments: map<Id, Enrollment>,
    sessions: map<string, SessionRow>,
    challenges: map<string, ChallengeRow>,
    grants: map<Pair, Grant>,
    policies: map<Id, PolicyRow>,
    rules: map<Pair, Rule>,
    retentions: Retentions,
    drawn: set<string>)

  /** What the controller does not decide itself: its cluster identity, whether an encoded
      policy stays under the byte limit, and whether a signature verifies. */
  datatype Env = Env(clusterId: Id, fits: Policy -> bool, verifies: (string, Challenge, string) -> bool)

  datatype Error = Forbidden | Invalid | Conflict | Unauthorized | NotFound

  datatype Outcome<+T> = Ok(value: T) | Err(error: Error)

  const EMPTY := Database(map[], map[], map[], map[], map[], map[], map[], map[], map[], map[], map[],
                          Retentions(86400, 86400), {})

  predicate Serving(s: NodeState) { s.Registered? || s.Ready? || s.Offline? }

  predicate UserEnabled(db: Database, id: Id) { id in db.users && db.users[id].enabled }

  predicate RequireOwner(actor: Actor, owner: Id) {
    actor.enabled && actor.id != "" && (actor.role.Admin? || actor.id == owner)
  }

  predicate ActiveActor(db: Database, actor: Actor) {
    actor.id == "local" || (UserEnabled(db, actor.id) && db.users[actor.id].role == actor.role)
  }

  const MAX_RETENTION := MAX_INT64 / 1_000_000_000

  predicate ValidRetentions(r: Retentions) {
    0 < r.identity <= MAX_RETENTION && 0 < r.control <= MAX_RETENTION
  }

  /** The state a grant reads as at `now`. */
  function DerivedState(g: Grant, now: int): GrantState {
    if g.explicitUntil != 0 && now >= g.explicitUntil && (g.state.Requested? || g.state.OwnerApproved? || g.state.Active?)
    then Expired else g.state
  }
}
