/** Every transaction of the controller as one transition function. The database has a
    single connection (internal/control/store.go), so a transaction is one atomic step:
    it changes the tables, rebuilds the affected policies, and commits, or changes nothing. */
module Transactions {
  import opened Ids
  import opened Protocol
  import opened Tables
  import opened PolicyView
  import opened AccountTx
  import opened GrantTx
  import opened NodeTx

  datatype AccountOp =
    | OpCreateUser(actor: Actor, id: Id, role: Role, initial: bool)
    | OpSetUserRole(actor: Actor, user: Id, role: Role)
    | OpSetUserEnabled(actor: Actor, user: Id, on: bool)
    | OpSetRetentions(actor: Actor, retentions: Retentions)
    | OpAddTailnet(actor: Actor, id: Id, apiId: Id, keys: seq<DeviceKey>)
    | OpBeginReplace(tailnet: Id)
    | OpReplaceCredential(actor: Actor, tailnet: Id, seen: int, keys: seq<DeviceKey>)
    | OpBeginRefresh(tailnet: Id)
    | OpCommitRefresh(tailnet: Id, revision: int, refreshSeq: int, found: Option<seq<DeviceKey>>)
    | OpDeleteCredential(actor: Actor, tailnet: Id)
    | OpSetTailnetEnabled(actor: Actor, tailnet: Id, on: bool)
    | OpDeleteTailnet(actor: Actor, tailnet: Id)
    | OpTransferTailnet(actor: Actor, tailnet: Id, newOwner: Id)

  datatype NodeOp =
    | OpCreateNode(actor: Actor, id: Id, code: string, domain: string)
    | OpIssueEnrollment(actor: Actor, node: Id, code: string)
    | OpEnrollmentChallenge(code: string, key: string, instance: string, nonce: string)
    | OpEnroll(request: EnrollmentRequest, token: string)
    | OpSessionChallenge(node: Id, instance: string, nonce: string)
    | OpRenew(challenge: Challenge, signature: string, token: string)
    | OpRecover(actor: Actor, node: Id, instance: string)
    | OpHeartbeat(token: string)
    | OpAcknowledge(token: string, ack: Ack)
    | OpRelease(token: string)
    | OpSetNodeEnabled(actor: Actor, node: Id, on: bool)
    | OpDeleteNode(actor: Actor, node: Id, connected: bool)
    | OpChangeDomain(actor: Actor, node: Id, domain: string, connected: bool)

  datatype GrantOp =
    | OpRequestGrant(actor: Actor, pair: Pair, expected: nat, until: int, id: Id)
    | OpGrantAction(actor: Actor, grantId: Id, expected: nat, action: Action)
    | OpSetQoS(actor: Actor, node: Id, qos: QoSPolicy)
    | OpBuildPolicy(node: Id)

  datatype Op = OnAccount(account: AccountOp) | OnNode(node: NodeOp) | OnGrant(grant: GrantOp)

  // What the statement part of a transaction writes, before policies are rebuilt.

  ghost function AccountStatements(db: Database, op: AccountOp, now: int): (tx: Tx)
    ensures tx.Commit? ==> tx.db == db.(users := tx.db.users, tailnets := tx.db.tailnets,
                                        credentials := tx.db.credentials, snapshots := tx.db.snapshots,
                                        grants := tx.db.grants, rules := tx.db.rules, retentions := tx.db.retentions,
                                        drawn := tx.db.drawn)
    ensures tx.Commit? ==> db.drawn <= tx.db.drawn && (forall p :: p in db.grants ==> p in tx.db.grants || p.tailnet !in tx.db.tailnets)
    ensures tx.Commit? && !op.OpSetRetentions? ==> tx.db.retentions == db.retentions
    ensures tx.Commit? ==> forall t :: t in tx.db.tailnets ==> t in db.tailnets || (op.OpAddTailnet? && op.id == t)
  {
    match op
    case OpCreateUser(a, id, role, initial) => CreateUser(db, a, id, role, initial)
    case OpSetUserRole(a, u, role) => SetUserRole(db, a, u, role)
    case OpSetUserEnabled(a, u, on) => SetUserEnabled(db, a, u, on)
    case OpSetRetentions(a, r) => SetRetentions(db, a, r)
    case OpAddTailnet(a, id, apiId, keys) => AddTailnet(db, a, id, apiId, keys, now)
    case OpBeginReplace(t) => Keep
    case OpReplaceCredential(a, t, seen, keys) => ReplaceCredential(db, a, t, seen, keys, now)
    case OpBeginRefresh(t) => BeginRefresh(db, t)
    case OpCommitRefresh(t, r, s, found) => CommitRefresh(db, t, r, s, found, now)
    case OpDeleteCredential(a, t) => DeleteCredential(db, a, t)
    case OpSetTailnetEnabled(a, t, on) => SetTailnetEnabled(db, a, t, on)
    case OpDeleteTailnet(a, t) => DeleteTailnet(db, a, t)
    case OpTransferTailnet(a, t, u) => TransferTailnet(db, a, t, u)
  }

  ghost function NodeStatements(env: Env, db: Database, op: NodeOp, now: int): (tx: Tx)
    ensures tx.Commit? ==> tx.db == db.(nodes := tx.db.nodes, policies := tx.db.policies, sessions := tx.db.sessions,
                                        enrollments := tx.db.enrollments, challenges := tx.db.challenges,
                                        grants := tx.db.grants, rules := tx.db.rules, drawn := tx.db.drawn)
    ensures tx.Commit? ==> db.drawn <= tx.db.drawn && (forall m :: m in db.policies ==> m in tx.db.policies || m !in tx.db.nodes)
    ensures tx.Commit? ==> forall p :: p in db.grants ==> p in tx.db.grants || p.node !in tx.db.nodes
  {
    match op
    case OpCreateNode(a, id, code, domain) => CreateNode(db, a, id, code, domain, now)
    case OpIssueEnrollment(a, n, code) => IssueEnrollment(db, a, n, code, now)
    case OpEnrollmentChallenge(code, key, i, nonce) => EnrollmentChallenge(env, db, code, key, i, nonce, now)
    case OpEnroll(req, token) => EnrollNode(env, db, req, token, now)
    case OpSessionChallenge(n, i, nonce) => SessionChallenge(env, db, n, i, nonce, now)
    case OpRenew(c, s, token) => RenewSession(env, db, c, s, token, now)
    case OpRecover(a, n, i) => RecoverInstance(db, a, n, i, now)
    case OpHeartbeat(token) => NodeHeartbeat(db, token, now)
    case OpAcknowledge(token, ack) => Acknowledge(db, token, ack, now)
    case OpRelease(token) => ReleaseNode(db, token, now)
    case OpSetNodeEnabled(a, n, on) => SetNodeEnabled(db, a, n, on)
    case OpDeleteNode(a, n, c) => DeleteNode(db, a, n, c)
    case OpChangeDomain(a, n, d, c) => ChangeDomain(db, a, n, d, c)
  }

  ghost function GrantStatements(db: Database, op: GrantOp, now: int): (tx: Tx)
    ensures tx.Commit? ==> tx.db == db.(grants := tx.db.grants, policies := tx.db.policies, rules := tx.db.rules,
                                        drawn := tx.db.drawn)
    ensures tx.Commit? ==> db.drawn <= tx.db.drawn && tx.db.policies.Keys == db.policies.Keys && db.grants.Keys <= tx.db.grants.Keys
  {
    match op
    case OpRequestGrant(a, p, e, until, id) => RequestGrant(db, a, p, e, until, id, now)
    case OpGrantAction(a, g, e, act) => ApplyGrantAction(db, a, g, e, act, now)
    case OpSetQoS(a, n, q) => SetNodeQoS(db, a, n, q)
    case OpBuildPolicy(n) => Commit(db, {n})
  }

  ghost function Statements(env: Env, db: Database, op: Op, now: int): Tx {
    match op
    case OnAccount(a) => AccountStatements(db, a, now)
    case OnNode(n) => NodeStatements(env, db, n, now)
    case OnGrant(g) => GrantStatements(db, g, now)
  }

  /** Statements, then the rebuild of the affected policies, then commit. */
  ghost function Finish(env: Env, db: Database, tx: Tx, now: int): Outcome<Database> {
    match tx
    case Abort(e) => Err(e)
    case Keep => Ok(db)
    case Commit(mid, ns) => Rebuild(env, mid, ns, now)
  }

  ghost function Apply(env: Env, db: Database, op: Op, now: int): Outcome<Database> {
    Finish(env, db, Statements(env, db, op, now), now)
  }

  /** The random tokens an operation draws. */
  function Draws(op: Op): set<string> {
    match op
    case OnAccount(OpCreateUser(_, id, _, _)) => {id}
    case OnAccount(OpAddTailnet(_, id, _, _)) => {id}
    case OnNode(OpCreateNode(_, id, code, _)) => {id, code}
    case OnNode(OpIssueEnrollment(_, _, code)) => {code}
    case OnNode(OpEnrollmentChallenge(_, _, _, nonce)) => {nonce}
    case OnNode(OpSessionChallenge(_, _, nonce)) => {nonce}
    case OnNode(OpEnroll(_, token)) => {token}
    case OnNode(OpRenew(_, _, token)) => {token}
    case OnGrant(OpRequestGrant(_, _, _, _, id)) => {id}
    case _ => {}
  }

  /** The keys an operation publishes come from an accepted device listing. */
  ghost predicate ListingAccepted(op: AccountOp) {
    && (op.OpAddTailnet? ==> DistinctKeys(op.keys))
    && (op.OpReplaceCredential? ==> DistinctKeys(op.keys))
    && (op.OpCommitRefresh? && op.found.Some? ==> DistinctKeys(op.found.value))
  }

  /** What the environment guarantees: the clock reads a positive Unix time, and random
      tokens are new and distinct. */
  ghost predicate Legitimate(db: Database, op: Op, now: int) {
    && now > 0
    && (forall x :: x in Draws(op) ==> IsToken(x) && x !in db.drawn)
    && (op.OnNode? && op.node.OpCreateNode? ==> op.node.id != op.node.code)
    && (op.OnAccount? ==> ListingAccepted(op.account))
  }

  /** One step of the controller: the operation commits or leaves the tables alone. */
  ghost predicate Step(env: Env, db: Database, op: Op, now: int, db': Database) {
    && Legitimate(db, op, now)
    && db' == (match Apply(env, db, op, now) case Ok(d) => d case Err(_) => db)
  }
}
