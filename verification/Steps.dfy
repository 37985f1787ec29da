/** Every step of the controller keeps the invariant, so the stored policies are a
    materialised view of the tables after every committed transaction. */
module Steps {
  import opened Ids
  import opened Protocol
  import opened Tables
  import opened PolicyView
  import opened AccountTx
  import opened GrantTx
  import opened NodeTx
  import opened Transactions
  import opened Invariants
  import opened AccountKeeps
  import opened GrantKeeps
  import opened NodeKeeps
  import opened NodeCovers

  ghost predicate Keeps(env: Env, db: Database, tx: Tx) {
    tx.Commit? ==> TablesSound(tx.db) && Covered(env, db, tx.db, tx.rebuild)
  }

  lemma AccountTablesKept(db: Database, op: AccountOp, now: int)
    requires TablesSound(db) && Legitimate(db, OnAccount(op), now)
    ensures var tx := AccountStatements(db, op, now); tx.Commit? ==> TablesSound(tx.db)
  {
    hide TablesSound, DistinctKeys;
    hide CreateUser, SetUserRole, SetUserEnabled, SetRetentions, AddTailnet, ReplaceCredential, BeginRefresh;
    hide CommitRefresh, DeleteCredential, SetTailnetEnabled, DeleteTailnet, TransferTailnet;
    match op
    case OpCreateUser(a, id, role, initial) => CreateUserTables(db, a, id, role, initial);
    case OpSetUserRole(a, u, role) => SetUserRoleTables(db, a, u, role);
    case OpSetUserEnabled(a, u, on) => SetUserEnabledTables(db, a, u, on);
    case OpSetRetentions(a, r) => SetRetentionsTables(db, a, r);
    case OpAddTailnet(a, id, apiId, keys) => AddTailnetTables(db, a, id, apiId, keys, now);
    case OpBeginReplace(t) =>
    case OpReplaceCredential(a, t, seen, keys) => ReplaceCredentialTables(db, a, t, seen, keys, now);
    case OpBeginRefresh(t) => BeginRefreshTables(db, t);
    case OpCommitRefresh(t, r, s, found) => CommitRefreshTables(db, t, r, s, found, now);
    case OpDeleteCredential(a, t) => DeleteCredentialTables(db, a, t);
    case OpSetTailnetEnabled(a, t, on) => SetTailnetEnabledTables(db, a, t, on);
    case OpDeleteTailnet(a, t) => DeleteTailnetTables(db, a, t);
    case OpTransferTailnet(a, t, u) => TransferTailnetTables(db, a, t, u);
  }

  lemma AccountCovers(env: Env, db: Database, op: AccountOp, now: int)
    requires References(db) && RowsReady(env, db.policies) && Legitimate(db, OnAccount(op), now)
    requires db.users.Keys <= db.drawn
    ensures var tx := AccountStatements(db, op, now); tx.Commit? ==> Covered(env, db, tx.db, tx.rebuild)
  {
    hide Covered, RowsReady, References, Legitimate, AddTailnet, ReplaceCredential, CommitRefresh;
    var tx := AccountStatements(db, op, now);
    if tx.Commit? {
      match op
      case OpCreateUser(a, id, role, initial) => NewUserId(db, op, now); QuietAccountCovers(env, db, tx.db);
      case OpSetUserRole(a, u, role) => QuietAccountCovers(env, db, tx.db);
      case OpBeginRefresh(t) => QuietAccountCovers(env, db, tx.db);
      case OpBeginReplace(t) =>
      case OpAddTailnet(a, id, apiId, keys) => AddTailnetCovers(env, db, a, id, apiId, keys, now);
      case OpReplaceCredential(a, t, seen, keys) => ReplaceCredentialCovers(env, db, a, t, seen, keys, now);
      case OpCommitRefresh(t, r, s, found) => CommitRefreshCovers(env, db, t, r, s, found, now);
      case _ => RebuildAllCovers(env, db, tx.db);
    }
  }

  lemma NewUserId(db: Database, op: AccountOp, now: int)
    requires Legitimate(db, OnAccount(op), now) && op.OpCreateUser? && db.users.Keys <= db.drawn
    ensures op.id !in db.users
  {
    assert op.id in Draws(OnAccount(op));
  }

  lemma GrantTablesKept(db: Database, op: GrantOp, now: int)
    requires TablesSound(db) && Legitimate(db, OnGrant(op), now)
    ensures var tx := GrantStatements(db, op, now); tx.Commit? ==> TablesSound(tx.db)
  {
    hide TablesSound, DistinctKeys;
    hide RequestGrant, ApplyGrantAction, SetNodeQoS;
    match op
    case OpRequestGrant(a, p, e, until, id) => RequestGrantTables(db, a, p, e, until, id, now);
    case OpGrantAction(a, g, e, act) => ApplyGrantActionTables(db, a, g, e, act, now);
    case OpSetQoS(a, n, q) => SetQoSTables(db, a, n, q);
    case OpBuildPolicy(n) =>
  }

  lemma GrantStatementsCover(env: Env, db: Database, op: GrantOp, now: int)
    requires TablesSound(db) && RowsReady(env, db.policies)
    ensures var tx := GrantStatements(db, op, now); tx.Commit? ==> Covered(env, db, tx.db, tx.rebuild)
  {
    hide TablesSound, Covered, References, NodesSound, SharingSound, RowsReady, RulesValid, OwnerRulesHome;
    hide RequestGrant, ApplyGrantAction, SetNodeQoS;
    SoundParts(db);
    match op
    case OpRequestGrant(a, p, e, until, id) => RequestGrantCovers(env, db, a, p, e, until, id, now);
    case OpGrantAction(a, g, e, act) => ApplyGrantActionCovers(env, db, a, g, e, act, now);
    case OpSetQoS(a, n, q) => SetQoSCovers(env, db, a, n, q);
    case OpBuildPolicy(n) =>
      ReadyRow(env, db.policies, n);
      OneNodeCovers(env, db, db, n, {n});
  }

  lemma ReadyRow(env: Env, policies: map<Id, PolicyRow>, n: Id)
    requires RowsReady(env, policies)
    ensures n in policies ==> ReadyToBuild(env, policies[n], n)
  {}

  lemma SoundParts(db: Database)
    requires TablesSound(db)
    ensures References(db) && NodesSound(db) && db.users.Keys <= db.drawn && db.nodes.Keys <= db.drawn
    ensures RulesValid(db.rules) && OwnerRulesHome(db.rules, db.nodes, db.tailnets)
  {}

  lemma NodeTablesKept(env: Env, db: Database, op: NodeOp, now: int)
    requires TablesSound(db) && Legitimate(db, OnNode(op), now)
    ensures var tx := NodeStatements(env, db, op, now); tx.Commit? ==> TablesSound(tx.db)
  {
    hide TablesSound, DistinctKeys;
    hide CreateNode, IssueEnrollment, EnrollmentChallenge, EnrollNode, SessionChallenge, RenewSession;
    hide RecoverInstance, NodeHeartbeat, Acknowledge, ReleaseNode, SetNodeEnabled, DeleteNode, ChangeDomain;
    match op
    case OpCreateNode(a, id, code, domain) => CreateNodeTables(db, a, id, code, domain, now);
    case OpIssueEnrollment(a, n, code) => IssueEnrollmentTables(db, a, n, code, now);
    case OpEnrollmentChallenge(code, key, i, nonce) => EnrollmentChallengeTables(env, db, code, key, i, nonce, now);
    case OpEnroll(req, token) => EnrollTables(env, db, req, token, now);
    case OpSessionChallenge(n, i, nonce) => SessionChallengeTables(env, db, n, i, nonce, now);
    case OpRenew(c, s, token) => RenewTables(env, db, c, s, token, now);
    case OpRecover(a, n, i) => RecoverTables(db, a, n, i, now);
    case OpHeartbeat(token) => HeartbeatTables(db, token, now);
    case OpAcknowledge(token, ack) => AcknowledgeTables(db, token, ack, now);
    case OpRelease(token) => ReleaseNodeTables(db, token, now);
    case OpSetNodeEnabled(a, n, on) => SetNodeEnabledTables(db, a, n, on);
    case OpDeleteNode(a, n, c) => DeleteNodeTables(db, a, n, c);
    case OpChangeDomain(a, n, d, c) => ChangeDomainTables(db, a, n, d, c);
  }

  lemma NodeStatementsCover(env: Env, db: Database, op: NodeOp, now: int)
    requires TablesSound(db) && RowsReady(env, db.policies) && Legitimate(db, OnNode(op), now)
    ensures var tx := NodeStatements(env, db, op, now); tx.Commit? ==> Covered(env, db, tx.db, tx.rebuild)
  {
    hide TablesSound, Covered, References, NodesSound, SharingSound, RowsReady;
    hide CreateNode, IssueEnrollment, EnrollmentChallenge, EnrollNode, SessionChallenge, RenewSession;
    hide RecoverInstance, NodeHeartbeat, Acknowledge, ReleaseNode, SetNodeEnabled, DeleteNode, ChangeDomain;
    SoundParts(db);
    match op
    case OpCreateNode(a, id, code, domain) => CreateNodeCovers(env, db, a, id, code, domain, now);
    case OpIssueEnrollment(a, n, code) => IssueEnrollmentCovers(env, db, a, n, code, now);
    case OpEnrollmentChallenge(code, key, i, nonce) => EnrollmentChallengeCovers(env, db, code, key, i, nonce, now);
    case OpEnroll(req, token) => EnrollCovers(env, db, req, token, now);
    case OpSessionChallenge(n, i, nonce) => SessionChallengeCovers(env, db, n, i, nonce, now);
    case OpRenew(c, s, token) => RenewCovers(env, db, c, s, token, now);
    case OpRecover(a, n, i) => RecoverCovers(env, db, a, n, i, now);
    case OpHeartbeat(token) => HeartbeatCovers(env, db, token, now);
    case OpAcknowledge(token, ack) => AcknowledgeCovers(env, db, token, ack, now);
    case OpRelease(token) => ReleaseNodeCovers(env, db, token, now);
    case OpSetNodeEnabled(a, n, on) => SetNodeEnabledCovers(env, db, a, n, on);
    case OpDeleteNode(a, n, c) => DeleteNodeCovers(env, db, a, n, c);
    case OpChangeDomain(a, n, d, c) => ChangeDomainCovers(env, db, a, n, d, c);
  }

  lemma StatementsKeep(env: Env, db: Database, op: Op, now: int)
    requires TablesSound(db) && RowsReady(env, db.policies) && Legitimate(db, op, now)
    ensures Keeps(env, db, Statements(env, db, op, now))
  {
    hide TablesSound, Covered, NodesSound, SharingSound, RowsReady, AccountStatements, NodeStatements;
    hide GrantStatements, Legitimate;
    SoundParts(db);
    match op
    case OnAccount(a) => AccountTablesKept(db, a, now); AccountCovers(env, db, a, now);
    case OnNode(n) => NodeTablesKept(env, db, n, now); NodeStatementsCover(env, db, n, now);
    case OnGrant(g) => GrantTablesKept(db, g, now); GrantStatementsCover(env, db, g, now);
  }

  /** The invariant holds after every step, whether the transaction commits or aborts. */
  lemma StepKeepsInv(env: Env, db: Database, op: Op, now: int, db': Database)
    requires Inv(env, db) && Step(env, db, op, now, db')
    ensures Inv(env, db')
  {
    hide TablesSound, Covered, Statements, Legitimate, Rebuild, Stored;
    StoredRowsReady(env, db);
    StatementsKeep(env, db, op, now);
    var tx := Statements(env, db, op, now);
    if tx.Commit? && Rebuild(env, tx.db, tx.rebuild, now).Ok? {
      RebuildEstablishes(env, db, tx.db, tx.rebuild, now, db');
    }
  }

  lemma EmptyIsSound(env: Env)
    ensures Inv(env, EMPTY)
  {
    forall n ensures ChallengesOf(EMPTY.challenges, n) == {} {}
  }
}
