/** What one step can do to one row. Each table has a predicate that lists every way a row
    may change, and a lemma that no transaction changes it in any other way. */
module Effects {
  import opened Ids
  import opened Protocol
  import opened Tables
  import opened PolicyView
  import opened AccountTx
  import opened GrantTx
  import opened NodeTx
  import opened Transactions
  import opened Invariants
  import opened GrantKeeps
  import opened NodeKeeps
  import opened Meaning

  /** The step is a transaction that commits. */
  ghost predicate Commits(env: Env, db: Database, op: Op, now: int, db': Database) {
    var tx := Statements(env, db, op, now);
    tx.Commit? && Rebuild(env, tx.db, tx.rebuild, now) == Ok(db')
  }

  lemma StepOutcome(env: Env, db: Database, op: Op, now: int, db': Database)
    requires Step(env, db, op, now, db')
    ensures db' == db || Commits(env, db, op, now, db')
  {
    hide Statements, Rebuild;
  }

  /** A rebuild only writes policies. */
  lemma CommitShape(env: Env, db: Database, op: Op, now: int, db': Database)
    requires Commits(env, db, op, now, db')
    ensures var mid := Statements(env, db, op, now).db; db' == mid.(policies := db'.policies) && db'.policies.Keys == mid.policies.Keys
  {
    hide Statements, Rebuild;
    var tx := Statements(env, db, op, now);
    RebuildShape(env, tx.db, tx.rebuild, now, db');
  }

  // Nodes.

  ghost predicate Administers(db: Database, actor: Actor, n: Id) {
    n in db.nodes && ActsFor(db, actor, db.nodes[n].owner)
  }

  /** The report is that the desired policy is in use, while it admits some key. */
  predicate ReportsUsable(row: PolicyRow, a: Ack, now: int) {
    && a.state == AckApplied && a.usable && a.revision == row.desired && row.body.Some?
    && exists i, j :: 0 <= i < |row.body.value.grants| && 0 <= j < |row.body.value.grants[i].keys|
                      && now < EarliestDeadline(row.body.value.grants[i], row.body.value.grants[i].keys[j])
  }

  ghost predicate NewNodeId(db: Database, op: NodeOp) { op.OpCreateNode? ==> op.id !in db.nodes }

  /** An instance proves the node's key and takes or keeps the lease, or freezes the node. */
  ghost predicate ProvenInstance(x: Node, y: Node, c: Challenge, now: int) {
    && x.publicKey == Some(c.publicKey) && !x.state.Pending? && !x.state.IdentityConflict?
    && if x.instance != c.instanceId && now < x.leaseUntil then y == x.(state := IdentityConflict)
       else
         y == x.(instance := c.instanceId, leaseUntil := now + 90, state := if x.state == DomainPending then Registered else x.state,
                 domainVerifiedAt := if c.purpose == ForDomainChange then now else x.domainVerifiedAt)
  }

  /** Every way a node's row comes to be what it is after a transaction. */
  ghost predicate NodeFate(db: Database, op: NodeOp, now: int, mid: Database, n: Id)
    requires n in mid.nodes
  {
    if n !in db.nodes then
      && op.OpCreateNode? && op.id == n && mid.nodes[n].publicKey.None? && mid.nodes[n].state.Pending?
    else
      var x, y := db.nodes[n], mid.nodes[n];
      && y.owner == x.owner && y.region == x.region
      && (|| y == x
          || (op.OpIssueEnrollment? && op.node == n && Administers(db, op.actor, n) && !x.state.Pending?
              && y == x.(state := Pending, instance := "", leaseUntil := 0, domainVerifiedAt := 0))
          || (op.OpRelease? && Authenticates(db, op.token, n, now)
              && y == x.(state := Pending, instance := "", leaseUntil := 0, domainVerifiedAt := 0))
          || (op.OpEnroll? && op.request.challenge.nodeId == n && x.state.Pending? && (x.publicKey.Some? ==> y.publicKey == x.publicKey)
              && y == x.(publicKey := Some(op.request.challenge.publicKey), instance := op.request.challenge.instanceId, state := Registered,
                         leaseUntil := now + 90, domainVerifiedAt := now))
          || (op.OpRenew? && op.challenge.nodeId == n && ProvenInstance(x, y, op.challenge, now))
          || (op.OpRecover? && op.node == n && Administers(db, op.actor, n) && x.state.IdentityConflict?
              && y == x.(state := Registered, instance := op.instance, leaseUntil := now + 90))
          || (op.OpHeartbeat? && Authenticates(db, op.token, n, now) && y == x.(leaseUntil := now + 90))
          || (op.OpAcknowledge? && AckBy(db, OnNode(op), now, n) && Enlisted(x.state)
              && y == x.(state := if op.ack.state.AckReceived? then x.state else if ReportsUsable(db.policies[n], op.ack, now) then Ready else Registered))
          || (op.OpSetNodeEnabled? && op.node == n && Administers(db, op.actor, n) && y == x.(enabled := op.on))
          || (op.OpChangeDomain? && op.node == n && Administers(db, op.actor, n) && !x.state.Pending? && !x.state.IdentityConflict? && !x.enabled
              && y == x.(domain := op.domain, state := DomainPending, domainVerifiedAt := 0)))
  }

  lemma CreateNodes(db: Database, actor: Actor, id: Id, code: string, domain: string, now: int, n: Id)
    requires id !in db.nodes
    ensures var tx := CreateNode(db, actor, id, code, domain, now);
            tx.Commit? && n in tx.db.nodes ==> NodeFate(db, OpCreateNode(actor, id, code, domain), now, tx.db, n)
  {
    hide DomainTaken, UsedRegions, FirstFree;
  }

  /** What re-issuing an enrollment writes: a new code, and if the node was registered, its release. */
  ghost predicate IssueWrites(db: Database, m: Id, code: string, mid: Database, rebuild: set<Id>)
    requires m in db.nodes
  {
    && (forall n :: n in mid.enrollments && n != m ==> n in db.enrollments && mid.enrollments[n] == db.enrollments[n])
    && (m in mid.enrollments ==> mid.enrollments[m].code == code && mid.enrollments[m].consumedAt == 0)
    && (forall k :: k in mid.challenges ==> k in db.challenges && mid.challenges[k] == db.challenges[k])
    && if db.nodes[m].state.Pending? then
         mid.nodes == db.nodes && mid.sessions == db.sessions && mid.grants == db.grants && mid.policies == db.policies && rebuild == {}
       else
         var released := Released(db, m);
         && mid.nodes == released.nodes && mid.sessions == released.sessions && mid.grants == released.grants
         && mid.policies == released.policies && rebuild == OwnPolicy(db, m)
  }

  lemma WithEnrollmentWrites(db: Database, was: Database, n: Id, code: string, now: int)
    requires n in db.nodes && db.enrollments.Keys <= was.enrollments.Keys && (forall m :: m in db.enrollments ==> db.enrollments[m] == was.enrollments[m])
    requires forall k :: k in db.challenges ==> k in was.challenges && db.challenges[k] == was.challenges[k]
    ensures var mid := WithEnrollment(db, n, code, now);
            && mid == db.(enrollments := mid.enrollments, challenges := mid.challenges, drawn := mid.drawn)
            && (forall m :: m in mid.enrollments && m != n ==> m in was.enrollments && mid.enrollments[m] == was.enrollments[m])
            && (n in mid.enrollments ==> mid.enrollments[n].code == code && mid.enrollments[n].consumedAt == 0)
            && (forall k :: k in mid.challenges ==> k in was.challenges && mid.challenges[k] == was.challenges[k])
  {}

  lemma ReleasedKeeps(db: Database, n: Id)
    requires n in db.nodes
    ensures var mid := Released(db, n);
            && n in mid.nodes && mid.enrollments.Keys <= db.enrollments.Keys && (forall m :: m in mid.enrollments ==> mid.enrollments[m] == db.enrollments[m])
            && (forall k :: k in mid.challenges ==> k in db.challenges && mid.challenges[k] == db.challenges[k])
  {
    hide RevokedGrants, SessionsOfOthers;
  }

  lemma IssueEffect(db: Database, actor: Actor, m: Id, code: string, now: int)
    ensures var tx := IssueEnrollment(db, actor, m, code, now);
            tx.Commit? ==> m in db.nodes && Administers(db, actor, m) && IssueWrites(db, m, code, tx.db, tx.rebuild)
  {
    hide Released, WithEnrollment, ActiveActor, RequireOwner, Known, Speaks;
    if m in db.nodes {
      Authority(db, actor, db.nodes[m].owner);
      ReleasedKeeps(db, m);
      WithEnrollmentWrites(db, db, m, code, now);
      WithEnrollmentWrites(Released(db, m), db, m, code, now);
    }
  }

  lemma IssueNodes(db: Database, actor: Actor, m: Id, code: string, now: int, n: Id)
    ensures var tx := IssueEnrollment(db, actor, m, code, now);
            tx.Commit? && n in tx.db.nodes ==> NodeFate(db, OpIssueEnrollment(actor, m, code), now, tx.db, n)
  {
    hide IssueEnrollment, Released, Administers, NodeFate;
    IssueEffect(db, actor, m, code, now);
    var tx := IssueEnrollment(db, actor, m, code, now);
    if tx.Commit? && n in tx.db.nodes {
      ReleasedNodes(db, m);
      IssuedFate(db, actor, m, code, now, tx.db, n);
    }
  }

  lemma IssuedFate(db: Database, actor: Actor, m: Id, code: string, now: int, mid: Database, n: Id)
    requires Administers(db, actor, m) && n in mid.nodes
    requires mid.nodes == if db.nodes[m].state.Pending? then db.nodes
                          else db.nodes[m := db.nodes[m].(state := Pending, instance := "", leaseUntil := 0, domainVerifiedAt := 0)]
    ensures NodeFate(db, OpIssueEnrollment(actor, m, code), now, mid, n)
  {
    hide ActiveActor, RequireOwner;
  }

  lemma ReleasedNodes(db: Database, m: Id)
    requires m in db.nodes
    ensures Released(db, m).nodes == db.nodes[m := db.nodes[m].(state := Pending, instance := "", leaseUntil := 0, domainVerifiedAt := 0)]
  {
    hide RevokedGrants, SessionsOfOthers, ChallengesOfOthers;
  }

  lemma ReleaseNodes(db: Database, token: string, now: int, n: Id)
    ensures var tx := ReleaseNode(db, token, now);
            tx.Commit? && n in tx.db.nodes ==> NodeFate(db, OpRelease(token), now, tx.db, n)
  {
    hide Released;
    if SessionNode(db, token, now).Some? { ReleasedNodes(db, SessionNode(db, token, now).value); }
  }

  lemma EnrollNodes(env: Env, db: Database, req: EnrollmentRequest, token: string, now: int, n: Id)
    ensures var tx := EnrollNode(env, db, req, token, now);
            tx.Commit? && n in tx.db.nodes ==> NodeFate(db, OpEnroll(req, token), now, tx.db, n)
  {
    hide ChallengeProven, EnrollmentReceipt, Minted, Spent;
  }

  lemma RenewNodes(env: Env, db: Database, c: Challenge, signature: string, token: string, now: int, n: Id)
    ensures var tx := RenewSession(env, db, c, signature, token, now);
            tx.Commit? && n in tx.db.nodes ==> NodeFate(db, OpRenew(c, signature, token), now, tx.db, n)
  {
    hide RenewSession, ChallengeProven, Minted, Spent, SessionsOfOthers, NodeFate;
    RenewEffect(env, db, c, signature, token, now);
    var tx := RenewSession(env, db, c, signature, token, now);
    if tx.Commit? && n in tx.db.nodes {
      var x := db.nodes[c.nodeId];
      assert tx.db.nodes == db.nodes[c.nodeId := tx.db.nodes[c.nodeId]] && ProvenInstance(x, tx.db.nodes[c.nodeId], c, now);
      ProvenFate(db, OpRenew(c, signature, token), now, tx.db, n);
    }
  }

  lemma ProvenFate(db: Database, op: NodeOp, now: int, mid: Database, n: Id)
    requires op.OpRenew? && op.challenge.nodeId in db.nodes && op.challenge.nodeId in mid.nodes && n in mid.nodes
    requires mid.nodes == db.nodes[op.challenge.nodeId := mid.nodes[op.challenge.nodeId]]
    requires ProvenInstance(db.nodes[op.challenge.nodeId], mid.nodes[op.challenge.nodeId], op.challenge, now)
    requires mid.nodes[op.challenge.nodeId].owner == db.nodes[op.challenge.nodeId].owner
    requires mid.nodes[op.challenge.nodeId].region == db.nodes[op.challenge.nodeId].region
    ensures NodeFate(db, op, now, mid, n)
  {}

  lemma RecoverNodes(db: Database, actor: Actor, m: Id, instance: string, now: int, n: Id)
    ensures var tx := RecoverInstance(db, actor, m, instance, now);
            tx.Commit? && n in tx.db.nodes ==> NodeFate(db, OpRecover(actor, m, instance), now, tx.db, n)
  {}

  lemma HeartbeatNodes(db: Database, token: string, now: int, n: Id)
    ensures var tx := NodeHeartbeat(db, token, now);
            tx.Commit? && n in tx.db.nodes ==> NodeFate(db, OpHeartbeat(token), now, tx.db, n)
  {}

  lemma AcknowledgeNodes(db: Database, token: string, a: Ack, now: int, n: Id)
    ensures var tx := Acknowledge(db, token, a, now);
            tx.Commit? && n in tx.db.nodes ==> NodeFate(db, OpAcknowledge(token, a), now, tx.db, n)
  {
    hide AckedRow, WellFormedAck, ReportsUsable, NodeFate, Authenticates;
    var tx := Acknowledge(db, token, a, now);
    if tx.Commit? && n in tx.db.nodes {
      var m := SessionNode(db, token, now).value;
      AckedMeans(db.policies[m], a, now);
      AuthenticEnlisted(db, token, m, now);
      AckedFate(db, token, a, now, tx.db, m, n);
    }
  }

  lemma AuthenticEnlisted(db: Database, token: string, n: Id, now: int)
    requires Authenticates(db, token, n, now)
    ensures n in db.nodes && Enlisted(db.nodes[n].state)
  {}

  lemma AckedFate(db: Database, token: string, a: Ack, now: int, mid: Database, m: Id, n: Id)
    requires AckBy(db, OnNode(OpAcknowledge(token, a)), now, m) && m in db.nodes && Enlisted(db.nodes[m].state) && n in mid.nodes
    requires mid.nodes == db.nodes[m := db.nodes[m].(state := if a.state.AckReceived? then db.nodes[m].state
                                                              else if ReportsUsable(db.policies[m], a, now) then Ready else Registered)]
    ensures NodeFate(db, OpAcknowledge(token, a), now, mid, n)
  {
    hide AckBy, ReportsUsable;
  }

  lemma AckedMeans(row: PolicyRow, a: Ack, now: int)
    requires AckedRow(row, a, now).Ok?
    ensures a.state.AckApplied? ==> AckedRow(row, a, now).value.usable == ReportsUsable(row, a, now)
    ensures !a.state.AckApplied? ==> !ReportsUsable(row, a, now)
  {}

  lemma AdministeredNodes(db: Database, op: NodeOp, now: int, tx: Tx, n: Id)
    requires || (op.OpSetNodeEnabled? && tx == SetNodeEnabled(db, op.actor, op.node, op.on))
             || (op.OpChangeDomain? && tx == ChangeDomain(db, op.actor, op.node, op.domain, op.connected))
             || (op.OpDeleteNode? && tx == DeleteNode(db, op.actor, op.node, op.connected))
    ensures tx.Commit? && n in tx.db.nodes ==> NodeFate(db, op, now, tx.db, n)
  {
    hide DomainTaken, UpToDate;
  }

  lemma NodesOf(env: Env, db: Database, op: NodeOp, now: int, n: Id)
    requires NewNodeId(db, op)
    ensures var tx := NodeStatements(env, db, op, now);
            tx.Commit? && n in tx.db.nodes ==> NodeFate(db, op, now, tx.db, n)
  {
    hide NodeFate;
    hide CreateNode, IssueEnrollment, EnrollmentChallenge, EnrollNode, SessionChallenge, RenewSession;
    hide RecoverInstance, NodeHeartbeat, Acknowledge, ReleaseNode, SetNodeEnabled, DeleteNode, ChangeDomain;
    match op
    case OpCreateNode(a, id, code, domain) => CreateNodes(db, a, id, code, domain, now, n);
    case OpIssueEnrollment(a, m, code) => IssueNodes(db, a, m, code, now, n);
    case OpEnroll(req, token) => EnrollNodes(env, db, req, token, now, n);
    case OpRenew(c, s, token) => RenewNodes(env, db, c, s, token, now, n);
    case OpRecover(a, m, i) => RecoverNodes(db, a, m, i, now, n);
    case OpHeartbeat(token) => HeartbeatNodes(db, token, now, n);
    case OpAcknowledge(token, ack) => AcknowledgeNodes(db, token, ack, now, n);
    case OpRelease(token) => ReleaseNodes(db, token, now, n);
    case OpSetNodeEnabled(a, m, on) => AdministeredNodes(db, op, now, NodeStatements(env, db, op, now), n);
    case OpDeleteNode(a, m, c) => AdministeredNodes(db, op, now, NodeStatements(env, db, op, now), n);
    case OpChangeDomain(a, m, d, c) => AdministeredNodes(db, op, now, NodeStatements(env, db, op, now), n);
    case OpEnrollmentChallenge(code, key, i, nonce) => SameFate(db, op, now, NodeStatements(env, db, op, now), n);
    case OpSessionChallenge(m, i, nonce) => SameFate(db, op, now, NodeStatements(env, db, op, now), n);
  }

  lemma SameFate(db: Database, op: NodeOp, now: int, tx: Tx, n: Id)
    requires tx.Commit? ==> tx.db.nodes == db.nodes
    ensures tx.Commit? && n in tx.db.nodes ==> NodeFate(db, op, now, tx.db, n)
  {}

  // Policy rows.

  /** The registration of node `n` ends: it goes back to waiting for an enrollment. */
  predicate LetGo(db: Database, mid: Database, n: Id) {
    n in db.nodes && n in mid.nodes && !db.nodes[n].state.Pending? && mid.nodes[n].state.Pending?
  }

  predicate SameRow(r: PolicyRow, r': PolicyRow) {
    r'.desired == r.desired && r'.received == r.received && r'.applied == r.applied && r'.body == r.body
  }

  predicate AckBy(db: Database, op: Op, now: int, n: Id) {
    && op.OnNode? && op.node.OpAcknowledge? && n in db.policies && WellFormedAck(op.node.ack)
    && Authenticates(db, op.node.token, n, now) && AckedRow(db.policies[n], op.node.ack, now).Ok?
  }

  predicate Forgotten(r: PolicyRow, r': PolicyRow) {
    r' == r.(received := 0, applied := 0, usable := false, body := None)
  }

  predicate RowFate(db: Database, op: Op, now: int, mid: Database, rebuild: set<Id>, n: Id)
    requires n in mid.policies
  {
    if n !in db.policies then
      op.OnNode? && op.node.OpEnroll? && mid.policies[n] == DEFAULT_POLICY && rebuild == {n}
    else
      || (SameRow(db.policies[n], mid.policies[n]) && !LetGo(db, mid, n))
      || (AckBy(db, op, now, n) && Ok(mid.policies[n]) == AckedRow(db.policies[n], op.node.ack, now) && !LetGo(db, mid, n) && rebuild == {})
      || (LetGo(db, mid, n) && n in rebuild && Forgotten(db.policies[n], mid.policies[n]))
  }

  lemma ReleasedRows(db: Database, m: Id, n: Id)
    requires m in db.nodes && !db.nodes[m].state.Pending? && PastPending(db.nodes, db.policies.Keys)
    ensures var mid := Released(db, m);
            && mid.policies.Keys == db.policies.Keys
            && (n in db.policies && n != m ==> mid.policies[n] == db.policies[n] && !LetGo(db, mid, n))
            && m in db.policies && LetGo(db, mid, m) && Forgotten(db.policies[m], mid.policies[m]) && OwnPolicy(db, m) == {m}
  {}

  lemma IssueRows(db: Database, actor: Actor, m: Id, code: string, now: int, n: Id)
    requires PastPending(db.nodes, db.policies.Keys)
    ensures var tx := IssueEnrollment(db, actor, m, code, now);
            tx.Commit? && n in tx.db.policies ==> RowFate(db, OnNode(OpIssueEnrollment(actor, m, code)), now, tx.db, tx.rebuild, n)
  {
    hide IssueEnrollment, Released, PastPending, AckedRow;
    IssueEffect(db, actor, m, code, now);
    if m in db.nodes && !db.nodes[m].state.Pending? { ReleasedRows(db, m, n); }
  }

  lemma ReleaseRows(db: Database, token: string, now: int, n: Id)
    requires PastPending(db.nodes, db.policies.Keys)
    ensures var tx := ReleaseNode(db, token, now);
            tx.Commit? && n in tx.db.policies ==> RowFate(db, OnNode(OpRelease(token)), now, tx.db, tx.rebuild, n)
  {
    hide Released, PastPending, AckedRow;
    if SessionNode(db, token, now).Some? { ReleasedRows(db, SessionNode(db, token, now).value, n); }
  }

  lemma EnrollRows(env: Env, db: Database, req: EnrollmentRequest, token: string, now: int, n: Id)
    ensures var tx := EnrollNode(env, db, req, token, now);
            tx.Commit? && n in tx.db.policies ==> RowFate(db, OnNode(OpEnroll(req, token)), now, tx.db, tx.rebuild, n)
  {
    hide ChallengeProven, EnrollmentReceipt, Minted, Spent, AckedRow;
  }

  lemma AcknowledgeRows(db: Database, token: string, a: Ack, now: int, n: Id)
    ensures var tx := Acknowledge(db, token, a, now);
            tx.Commit? && n in tx.db.policies ==> RowFate(db, OnNode(OpAcknowledge(token, a)), now, tx.db, tx.rebuild, n)
  {
    hide AckedRow, WellFormedAck;
  }

  lemma DeleteRows(db: Database, actor: Actor, m: Id, connected: bool, now: int, n: Id)
    ensures var tx := DeleteNode(db, actor, m, connected);
            tx.Commit? && n in tx.db.policies ==> RowFate(db, OnNode(OpDeleteNode(actor, m, connected)), now, tx.db, tx.rebuild, n)
  {
    hide AckedRow, ActiveActor, RequireOwner, SessionsOfOthers, ChallengesOfOthers, UpToDate;
  }

  lemma NodeRows(env: Env, db: Database, op: NodeOp, now: int, n: Id)
    requires PastPending(db.nodes, db.policies.Keys) && NewNodeId(db, op)
    ensures var tx := NodeStatements(env, db, op, now);
            tx.Commit? && n in tx.db.policies ==> RowFate(db, OnNode(op), now, tx.db, tx.rebuild, n)
  {
    hide PastPending, AckedRow, NodeFate, NewNodeId;
    hide CreateNode, IssueEnrollment, EnrollmentChallenge, EnrollNode, SessionChallenge, RenewSession;
    hide RecoverInstance, NodeHeartbeat, Acknowledge, ReleaseNode, SetNodeEnabled, DeleteNode, ChangeDomain;
    match op
    case OpDeleteNode(a, m, c) => DeleteRows(db, a, m, c, now, n);
    case OpIssueEnrollment(a, m, code) => IssueRows(db, a, m, code, now, n);
    case OpEnroll(req, token) => EnrollRows(env, db, req, token, now, n);
    case OpAcknowledge(token, ack) => AcknowledgeRows(db, token, ack, now, n);
    case OpRelease(token) => ReleaseRows(db, token, now, n);
    case _ =>
      NodesOf(env, db, op, now, n);
      FateLetsGo(db, op, now, NodeStatements(env, db, op, now), n);
  }

  lemma FateLetsGo(db: Database, op: NodeOp, now: int, tx: Tx, n: Id)
    requires tx.Commit? && n in tx.db.nodes ==> NodeFate(db, op, now, tx.db, n)
    ensures tx.Commit? && LetGo(db, tx.db, n) ==> op.OpIssueEnrollment? || op.OpRelease?
  {}

  lemma GrantRows(db: Database, op: GrantOp, now: int, n: Id)
    ensures var tx := GrantStatements(db, op, now);
            tx.Commit? && n in tx.db.policies ==> n in db.policies && SameRow(db.policies[n], tx.db.policies[n])
  {
    hide RequestGrant, ApplyGrantAction, InsertRules, RulesOfOthers;
  }

  lemma RowsOf(env: Env, db: Database, op: Op, now: int, n: Id)
    requires PastPending(db.nodes, db.policies.Keys) && (op.OnNode? ==> NewNodeId(db, op.node))
    ensures var tx := Statements(env, db, op, now);
            tx.Commit? && n in tx.db.policies ==> RowFate(db, op, now, tx.db, tx.rebuild, n)
  {
    hide AccountStatements, NodeStatements, GrantStatements, PastPending;
    match op
    case OnAccount(a) =>
    case OnNode(o) => NodeRows(env, db, o, now, n);
    case OnGrant(g) => GrantRows(db, g, now, n);
  }

  // Keys.

  /** Drawn values stay drawn, and a policy goes only with its node. */
  ghost predicate KeysGrow(db: Database, mid: Database) {
    && db.drawn <= mid.drawn
    && forall n :: n in db.policies ==> n in mid.policies || n !in mid.nodes
  }

  lemma KeysGrowOf(env: Env, db: Database, op: Op, now: int)
    ensures var tx := Statements(env, db, op, now); tx.Commit? ==> KeysGrow(db, tx.db)
  {
    hide AccountStatements, NodeStatements, GrantStatements;
  }

  // Grants.

  /** A request by the tailnet's side opens a round, or is consent enough when both sides have one owner. */
  ghost predicate Asked(db: Database, op: Op, now: int, mid: Database, p: Pair) {
    && op.OnGrant? && op.grant.OpRequestGrant? && op.grant.pair == p && p in mid.grants
    && p.node in db.nodes && p.tailnet in db.tailnets
    && ActsFor(db, op.grant.actor, db.tailnets[p.tailnet].owner) && NodeOn(db, p.node) && TailnetOn(db, p.tailnet)
    && (op.grant.until != 0 ==> now < op.grant.until)
    && var g := mid.grants[p];
       && g.state == (if db.nodes[p.node].owner == db.tailnets[p.tailnet].owner then Active else Requested)
       && g.explicitUntil == op.grant.until && g.lastControl == (if g.state.Active? then now else 0)
       && if p in db.grants then
            && g.id == db.grants[p].id && g.revision == db.grants[p].revision + 1 && op.grant.expected == db.grants[p].revision
            && (Lapsed(db.grants[p], now) || db.grants[p].state in {Cancelled, Rejected, Revoked, Expired})
          else g.id == op.grant.id && g.revision == 1 && op.grant.expected == 0
  }

  /** An action moves the grant on under the authority of the side it belongs to. */
  ghost predicate Acted(db: Database, op: Op, now: int, mid: Database, p: Pair) {
    && op.OnGrant? && op.grant.OpGrantAction? && p in db.grants && p in mid.grants && db.grants[p].id == op.grant.grantId
    && p.node in db.nodes && p.tailnet in db.tailnets
    && MayAct(db, op.grant.actor, op.grant.action, p)
    && 0 < op.grant.expected < MAX_INT64 && op.grant.expected == db.grants[p].revision
    && !Lapsed(db.grants[p], now) && Transition(op.grant.action, db.grants[p].state, mid.grants[p].state)
    && (op.grant.action == Approve || op.grant.action == Confirm ==> NodeOn(db, p.node) && TailnetOn(db, p.tailnet))
    && mid.grants[p] == db.grants[p].(state := mid.grants[p].state, revision := db.grants[p].revision + 1,
                                      lastControl := if op.grant.action == Confirm then now else 0)
  }

  predicate Confirmed(db: Database, op: Op, now: int, p: Pair, g: Grant, g': Grant) {
    && op.OnNode? && op.node.OpHeartbeat? && Authenticates(db, op.node.token, p.node, now)
    && g.state.Active? && g' == g.(lastControl := now)
  }

  predicate RevokedBy(db: Database, mid: Database, p: Pair, g: Grant, g': Grant) {
    LetGo(db, mid, p.node) && !g.state.Revoked? && g' == g.(state := Revoked, revision := g.revision + 1, lastControl := 0)
  }

  /** Every way a grant comes to be what it is after a transaction. */
  ghost predicate GrantFate(db: Database, op: Op, now: int, mid: Database, p: Pair)
    requires p in mid.grants
  {
    || Asked(db, op, now, mid, p)
    || (p in db.grants &&
          (|| mid.grants[p] == db.grants[p]
           || Acted(db, op, now, mid, p)
           || Confirmed(db, op, now, p, db.grants[p], mid.grants[p])
           || RevokedBy(db, mid, p, db.grants[p], mid.grants[p])))
  }

  lemma RequestFate(db: Database, actor: Actor, q: Pair, expected: nat, until: int, id: Id, now: int, p: Pair)
    ensures var tx := RequestGrant(db, actor, q, expected, until, id, now);
            tx.Commit? && p in tx.db.grants ==> GrantFate(db, OnGrant(OpRequestGrant(actor, q, expected, until, id)), now, tx.db, p)
  {
    hide RequestGrant, Acted, Confirmed, RevokedBy, ActiveActor, RequireOwner, ResourcesEnabled, Known, Speaks, NodeOn, TailnetOn;
    RequestEffect(db, actor, q, expected, until, id, now);
    Sides(db, q);
    if q.tailnet in db.tailnets { Authority(db, actor, db.tailnets[q.tailnet].owner); }
  }

  lemma ActionFate(db: Database, actor: Actor, id: Id, expected: nat, a: Action, now: int, p: Pair)
    ensures var tx := ApplyGrantAction(db, actor, id, expected, a, now);
            tx.Commit? && p in tx.db.grants ==> GrantFate(db, OnGrant(OpGrantAction(actor, id, expected, a)), now, tx.db, p)
  {
    hide ApplyGrantAction, ActOnPair, Asked, Confirmed, RevokedBy, ActiveActor, RequireOwner, ResourcesEnabled, MayAct, OnItsSide, ActionOwner;
    hide NodeOn, TailnetOn;
    var tx := ApplyGrantAction(db, actor, id, expected, a, now);
    if tx.Commit? {
      var q := ActionByPair(db, actor, id, expected, a, now);
      ActionEffect(db, actor, q, expected, a, now);
      Sides(db, q);
      Actions(db, actor, a, q, now);
      ActionIsTransition(db.grants[q], a, now);
    }
  }

  lemma ActionIsTransition(g: Grant, a: Action, now: int)
    requires Allowed(a, DerivedState(g, now))
    ensures !Lapsed(g, now) && Transition(a, g.state, NextState(a))
  {}

  lemma ReleasedFate(db: Database, n: Id, p: Pair)
    requires n in db.nodes && !db.nodes[n].state.Pending?
    ensures var mid := Released(db, n);
            p in mid.grants ==> p in db.grants && (mid.grants[p] == db.grants[p] || (LetGo(db, mid, p.node) && RevokedBy(db, mid, p, db.grants[p], mid.grants[p])))
  {
    hide SessionsOfOthers, ChallengesOfOthers;
  }

  lemma NodeGrants(env: Env, db: Database, op: NodeOp, now: int, p: Pair)
    ensures var tx := NodeStatements(env, db, op, now);
            tx.Commit? && p in tx.db.grants ==> GrantFate(db, OnNode(op), now, tx.db, p)
  {
    hide GrantFate, CreateNode, IssueEnrollment, EnrollmentChallenge, EnrollNode, SessionChallenge, RenewSession;
    hide RecoverInstance, NodeHeartbeat, Acknowledge, ReleaseNode, SetNodeEnabled, DeleteNode, ChangeDomain;
    match op
    case OpIssueEnrollment(a, m, code) => IssueGrants(db, a, m, code, now, p);
    case OpRelease(token) => ReleaseGrants(db, token, now, p);
    case OpHeartbeat(token) => HeartbeatGrants(db, token, now, p);
    case OpDeleteNode(a, m, c) => DeleteGrants(db, a, m, c, p); GrantFateSame(db, OnNode(op), now, NodeStatements(env, db, op, now), p);
    case _ => GrantFateSame(db, OnNode(op), now, NodeStatements(env, db, op, now), p);
  }

  lemma IssueGrants(db: Database, actor: Actor, m: Id, code: string, now: int, p: Pair)
    ensures var tx := IssueEnrollment(db, actor, m, code, now);
            tx.Commit? && p in tx.db.grants ==> GrantFate(db, OnNode(OpIssueEnrollment(actor, m, code)), now, tx.db, p)
  {
    hide IssueEnrollment, Released, Asked, Acted, Confirmed;
    IssueEffect(db, actor, m, code, now);
    if m in db.nodes && !db.nodes[m].state.Pending? { ReleasedFate(db, m, p); }
  }

  lemma ReleaseGrants(db: Database, token: string, now: int, p: Pair)
    ensures var tx := ReleaseNode(db, token, now);
            tx.Commit? && p in tx.db.grants ==> GrantFate(db, OnNode(OpRelease(token)), now, tx.db, p)
  {
    hide Released, RevokedBy, Asked, Acted, Confirmed;
    if SessionNode(db, token, now).Some? { ReleasedFate(db, SessionNode(db, token, now).value, p); }
  }

  lemma HeartbeatGrants(db: Database, token: string, now: int, p: Pair)
    ensures var tx := NodeHeartbeat(db, token, now);
            tx.Commit? && p in tx.db.grants ==> GrantFate(db, OnNode(OpHeartbeat(token)), now, tx.db, p)
  {
    hide Asked, Acted, RevokedBy;
  }

  lemma DeleteGrants(db: Database, actor: Actor, m: Id, connected: bool, p: Pair)
    ensures var tx := DeleteNode(db, actor, m, connected);
            tx.Commit? && p in tx.db.grants ==> p in db.grants && tx.db.grants[p] == db.grants[p]
  {
    hide ActiveActor, RequireOwner, UpToDate, SessionsOfOthers, ChallengesOfOthers;
  }

  lemma GrantsOf(env: Env, db: Database, op: Op, now: int, p: Pair)
    ensures var tx := Statements(env, db, op, now);
            tx.Commit? && p in tx.db.grants ==> GrantFate(db, op, now, tx.db, p)
  {
    hide NodeStatements, RequestGrant, ApplyGrantAction, SetNodeQoS, GrantFate;
    match op
    case OnNode(o) => NodeGrants(env, db, o, now, p);
    case OnGrant(OpRequestGrant(a, q, e, until, id)) => RequestFate(db, a, q, e, until, id, now, p);
    case OnGrant(OpGrantAction(a, g, e, act)) => ActionFate(db, a, g, e, act, now, p);
    case OnGrant(_) => GrantFateSame(db, op, now, Statements(env, db, op, now), p);
    case OnAccount(a) => AccountGrants(db, a, now, p);
  }

  lemma GrantFateSame(db: Database, op: Op, now: int, tx: Tx, p: Pair)
    requires tx.Commit? && p in tx.db.grants ==> p in db.grants && tx.db.grants[p] == db.grants[p]
    ensures tx.Commit? && p in tx.db.grants ==> GrantFate(db, op, now, tx.db, p)
  {}

  lemma AccountGrants(db: Database, op: AccountOp, now: int, p: Pair)
    ensures var tx := AccountStatements(db, op, now);
            tx.Commit? && p in tx.db.grants ==> p in db.grants && tx.db.grants[p] == db.grants[p] && GrantFate(db, OnAccount(op), now, tx.db, p)
  {
    hide GrantFate;
    hide CreateUser, SetUserRole, SetUserEnabled, SetRetentions, AddTailnet, ReplaceCredential, BeginRefresh;
    hide CommitRefresh, DeleteCredential, SetTailnetEnabled, TransferTailnet;
    GrantFateSame(db, OnAccount(op), now, AccountStatements(db, op, now), p);
  }
}
