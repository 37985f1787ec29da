/** What one step can do to a node's enrollment row and to a challenge. */
module NodeEffects {
  import opened Ids
  import opened Tables
  import opened AccountTx
  import opened NodeTx
  import opened Transactions
  import opened NodeKeeps
  import opened Effects

  // Enrollment codes.

  predicate Issues(op: Op, n: Id, code: string) {
    && op.OnNode?
    && (|| (op.node.OpCreateNode? && op.node.id == n && op.node.code == code)
        || (op.node.OpIssueEnrollment? && op.node.node == n && op.node.code == code))
  }

  predicate EnrollsFor(op: Op, n: Id) { op.OnNode? && op.node.OpEnroll? && op.node.request.challenge.nodeId == n }

  function SessionFor(env: Env, op: Op, n: Id, now: int): NodeSession
    requires EnrollsFor(op, n)
  {
    NodeSession(env.clusterId, n, op.node.request.challenge.instanceId, op.node.token, now + 3600, now + 90)
  }

  /** Every way an enrollment row comes to be what it is after a transaction. */
  predicate EnrollmentFate(env: Env, db: Database, op: Op, now: int, mid: Database, n: Id)
    requires n in mid.enrollments
  {
    var e := mid.enrollments[n];
    || (n in db.enrollments && e == db.enrollments[n] && !EnrollsFor(op, n))
    || (Issues(op, n, e.code) && e.consumedAt == 0)
    || (EnrollsFor(op, n) && n in db.enrollments && db.enrollments[n].consumedAt == 0 && db.enrollments[n].code == op.node.request.code
        && e == db.enrollments[n].(consumedAt := now, request := Some(op.node.request), response := Some(SessionFor(env, op, n, now))))
  }

  lemma CreateEnrollments(env: Env, db: Database, actor: Actor, id: Id, code: string, domain: string, now: int, n: Id)
    ensures var tx := CreateNode(db, actor, id, code, domain, now);
            tx.Commit? && n in tx.db.enrollments ==> EnrollmentFate(env, db, OnNode(OpCreateNode(actor, id, code, domain)), now, tx.db, n)
  {
    hide DomainTaken, UsedRegions, FirstFree;
  }

  lemma IssueEnrollments(env: Env, db: Database, actor: Actor, m: Id, code: string, now: int, n: Id)
    ensures var tx := IssueEnrollment(db, actor, m, code, now);
            tx.Commit? && n in tx.db.enrollments ==> EnrollmentFate(env, db, OnNode(OpIssueEnrollment(actor, m, code)), now, tx.db, n)
  {
    hide IssueEnrollment, Released, Administers, SessionFor;
    IssueEffect(db, actor, m, code, now);
  }

  lemma ReleasedRest(db: Database, m: Id)
    requires m in db.nodes
    ensures m in Released(db, m).nodes && Released(db, m).enrollments == db.enrollments - {m}
    ensures Released(db, m).challenges == ChallengesOfOthers(db, m)
  {
    hide RevokedGrants, SessionsOfOthers, ChallengesOfOthers;
  }

  lemma EnrollEnrollments(env: Env, db: Database, req: EnrollmentRequest, token: string, now: int, n: Id)
    ensures var tx := EnrollNode(env, db, req, token, now);
            tx.Commit? && n in tx.db.enrollments ==> EnrollmentFate(env, db, OnNode(OpEnroll(req, token)), now, tx.db, n)
  {
    hide ChallengeProven, Minted, Spent;
  }

  lemma DroppedEnrollments(env: Env, db: Database, op: NodeOp, now: int, n: Id)
    requires op.OpRelease? || op.OpDeleteNode? || op.OpChangeDomain?
    ensures var tx := NodeStatements(env, db, op, now);
            tx.Commit? && n in tx.db.enrollments ==> n in db.enrollments && tx.db.enrollments[n] == db.enrollments[n]
  {
    hide RevokedGrants, SessionsOfOthers, ChallengesOfOthers, UpToDate, DomainTaken;
  }

  lemma EnrollmentSame(env: Env, db: Database, op: Op, now: int, tx: Tx, n: Id)
    requires tx.Commit? && n in tx.db.enrollments ==> n in db.enrollments && tx.db.enrollments[n] == db.enrollments[n]
    requires !EnrollsFor(op, n)
    ensures tx.Commit? && n in tx.db.enrollments ==> EnrollmentFate(env, db, op, now, tx.db, n)
  {}

  lemma EnrollmentsOf(env: Env, db: Database, op: Op, now: int, n: Id)
    ensures var tx := Statements(env, db, op, now);
            tx.Commit? && n in tx.db.enrollments ==> EnrollmentFate(env, db, op, now, tx.db, n)
  {
    hide AccountStatements, NodeStatements, GrantStatements, EnrollmentFate;
    match op
    case OnNode(o) => NodeEnrollments(env, db, o, now, n);
    case _ => EnrollmentSame(env, db, op, now, Statements(env, db, op, now), n);
  }

  lemma NodeEnrollments(env: Env, db: Database, op: NodeOp, now: int, n: Id)
    ensures var tx := NodeStatements(env, db, op, now);
            tx.Commit? && n in tx.db.enrollments ==> EnrollmentFate(env, db, OnNode(op), now, tx.db, n)
  {
    hide EnrollmentFate;
    hide CreateNode, IssueEnrollment, EnrollmentChallenge, EnrollNode, SessionChallenge, RenewSession;
    hide RecoverInstance, NodeHeartbeat, Acknowledge, ReleaseNode, SetNodeEnabled, DeleteNode, ChangeDomain;
    match op
    case OpCreateNode(a, id, code, domain) => CreateEnrollments(env, db, a, id, code, domain, now, n);
    case OpIssueEnrollment(a, m, code) => IssueEnrollments(env, db, a, m, code, now, n);
    case OpEnroll(req, token) => EnrollEnrollments(env, db, req, token, now, n);
    case OpRelease(token) => DroppedEnrollments(env, db, op, now, n); EnrollmentSame(env, db, OnNode(op), now, NodeStatements(env, db, op, now), n);
    case OpDeleteNode(a, m, c) => DroppedEnrollments(env, db, op, now, n); EnrollmentSame(env, db, OnNode(op), now, NodeStatements(env, db, op, now), n);
    case OpChangeDomain(a, m, d, c) => DroppedEnrollments(env, db, op, now, n); EnrollmentSame(env, db, OnNode(op), now, NodeStatements(env, db, op, now), n);
    case _ => EnrollmentSame(env, db, OnNode(op), now, NodeStatements(env, db, op, now), n);
  }

  // Challenges.

  /** The operation answers the challenge with nonce `k`. */
  predicate Answers(op: Op, k: string) {
    && op.OnNode?
    && (|| (op.node.OpEnroll? && op.node.request.challenge.nonce == k)
        || (op.node.OpRenew? && op.node.challenge.nonce == k))
  }

  predicate ChallengeFate(db: Database, op: Op, now: int, mid: Database, k: string)
    requires k in mid.challenges
  {
    || (k in db.challenges && mid.challenges[k] == db.challenges[k] && !Answers(op, k))
    || (k in Draws(op) && mid.challenges[k].usedAt == 0)
    || (Answers(op, k) && k in db.challenges && db.challenges[k].usedAt == 0 && mid.challenges[k].usedAt == now)
  }

  lemma NewChallenges(env: Env, db: Database, op: NodeOp, now: int, k: string)
    requires op.OpEnrollmentChallenge? || op.OpSessionChallenge?
    ensures var tx := NodeStatements(env, db, op, now);
            tx.Commit? && k in tx.db.challenges ==> ChallengeFate(db, OnNode(op), now, tx.db, k)
  {
    hide CodeOpen, ValidInstance, ChallengesOf;
  }

  lemma EnrollChallenges(env: Env, db: Database, req: EnrollmentRequest, token: string, now: int, k: string)
    ensures var tx := EnrollNode(env, db, req, token, now);
            tx.Commit? && k in tx.db.challenges ==> ChallengeFate(db, OnNode(OpEnroll(req, token)), now, tx.db, k)
  {
    hide EnrollmentReceipt, EnrollmentFits, Minted, NewSession;
  }

  lemma RenewChallenges(env: Env, db: Database, c: Challenge, signature: string, token: string, now: int, k: string)
    ensures var tx := RenewSession(env, db, c, signature, token, now);
            tx.Commit? && k in tx.db.challenges ==> ChallengeFate(db, OnNode(OpRenew(c, signature, token)), now, tx.db, k)
  {
    hide RenewSession, RenewalFits, Minted, SessionsOfOthers, Clone;
    RenewEffect(env, db, c, signature, token, now);
  }

  /** Every remaining row of a transaction that drops a node's challenges was there before. */
  ghost predicate ChallengesShrink(db: Database, tx: Tx) {
    tx.Commit? ==> forall k :: k in tx.db.challenges ==> k in db.challenges && tx.db.challenges[k] == db.challenges[k]
  }

  lemma IssueChallenges(db: Database, actor: Actor, m: Id, code: string, now: int)
    ensures ChallengesShrink(db, IssueEnrollment(db, actor, m, code, now))
  {
    hide IssueEnrollment, Released, Administers;
    IssueEffect(db, actor, m, code, now);
  }

  lemma ReleaseChallenges(db: Database, token: string, now: int)
    ensures ChallengesShrink(db, ReleaseNode(db, token, now))
  {
    hide Released;
    if SessionNode(db, token, now).Some? { ReleasedRest(db, SessionNode(db, token, now).value); }
  }

  lemma CreateChallenges(db: Database, actor: Actor, id: Id, code: string, domain: string, now: int)
    ensures ChallengesShrink(db, CreateNode(db, actor, id, code, domain, now))
  {
    hide DomainTaken, UsedRegions, FirstFree, ActiveActor, RequireOwner;
  }

  lemma RecoverChallenges(db: Database, actor: Actor, m: Id, instance: string, now: int)
    ensures ChallengesShrink(db, RecoverInstance(db, actor, m, instance, now))
  {
    hide ActiveActor, RequireOwner, SessionsOfOthers;
  }

  lemma AdministeredChallenges(db: Database, actor: Actor, m: Id, domain: string, connected: bool)
    ensures ChallengesShrink(db, DeleteNode(db, actor, m, connected)) && ChallengesShrink(db, ChangeDomain(db, actor, m, domain, connected))
  {
    hide ActiveActor, RequireOwner, SessionsOfOthers, UpToDate, DomainTaken;
  }

  lemma ChallengeSame(db: Database, op: Op, now: int, tx: Tx, k: string)
    requires tx.Commit? && k in tx.db.challenges ==> k in db.challenges && tx.db.challenges[k] == db.challenges[k]
    requires !Answers(op, k)
    ensures tx.Commit? && k in tx.db.challenges ==> ChallengeFate(db, op, now, tx.db, k)
  {}

  lemma NodeChallenges(env: Env, db: Database, op: NodeOp, now: int, k: string)
    ensures var tx := NodeStatements(env, db, op, now);
            tx.Commit? && k in tx.db.challenges ==> ChallengeFate(db, OnNode(op), now, tx.db, k)
  {
    hide ChallengeFate;
    hide CreateNode, IssueEnrollment, EnrollmentChallenge, EnrollNode, SessionChallenge, RenewSession;
    hide RecoverInstance, NodeHeartbeat, Acknowledge, ReleaseNode, SetNodeEnabled, DeleteNode, ChangeDomain;
    match op
    case OpEnrollmentChallenge(code, key, i, nonce) => NewChallenges(env, db, op, now, k);
    case OpSessionChallenge(m, i, nonce) => NewChallenges(env, db, op, now, k);
    case OpEnroll(req, token) => EnrollChallenges(env, db, req, token, now, k);
    case OpRenew(c, s, token) => RenewChallenges(env, db, c, s, token, now, k);
    case _ =>
      FewerChallenges(env, db, op, now);
      ChallengeSame(db, OnNode(op), now, NodeStatements(env, db, op, now), k);
  }

  lemma FewerChallenges(env: Env, db: Database, op: NodeOp, now: int)
    requires !(op.OpEnrollmentChallenge? || op.OpSessionChallenge? || op.OpEnroll? || op.OpRenew?)
    ensures ChallengesShrink(db, NodeStatements(env, db, op, now))
  {
    hide CreateNode, IssueEnrollment, RecoverInstance, NodeHeartbeat, Acknowledge, ReleaseNode, SetNodeEnabled;
    hide DeleteNode, ChangeDomain;
    match op
    case OpCreateNode(a, id, code, domain) => CreateChallenges(db, a, id, code, domain, now);
    case OpIssueEnrollment(a, m, code) => IssueChallenges(db, a, m, code, now);
    case OpRecover(a, m, i) => RecoverChallenges(db, a, m, i, now);
    case OpRelease(token) => ReleaseChallenges(db, token, now);
    case OpDeleteNode(a, m, c) => AdministeredChallenges(db, a, m, "", c);
    case OpChangeDomain(a, m, d, c) => AdministeredChallenges(db, a, m, d, c);
    case _ =>
  }

  lemma ChallengesFate(env: Env, db: Database, op: Op, now: int, k: string)
    ensures var tx := Statements(env, db, op, now);
            tx.Commit? && k in tx.db.challenges ==> ChallengeFate(db, op, now, tx.db, k)
  {
    hide AccountStatements, NodeStatements, GrantStatements, ChallengeFate;
    match op
    case OnNode(o) => NodeChallenges(env, db, o, now, k);
    case _ => ChallengeSame(db, op, now, Statements(env, db, op, now), k);
  }

  // Sessions.

  /** The operation gives node `n` a session with this token. */
  predicate Mints(op: Op, token: string, n: Id) {
    && op.OnNode?
    && (|| (op.node.OpEnroll? && op.node.token == token && op.node.request.challenge.nodeId == n)
        || (op.node.OpRenew? && op.node.token == token && op.node.challenge.nodeId == n))
  }

  ghost predicate SessionFate(db: Database, op: NodeOp, now: int, tx: Tx, token: string) {
    tx.Commit? && token in tx.db.sessions ==>
      || (token in db.sessions && tx.db.sessions[token] == db.sessions[token])
      || (Mints(OnNode(op), token, tx.db.sessions[token].node) && tx.db.sessions[token].expiresAt == now + 3600)
  }

  lemma EnrollSessions(env: Env, db: Database, req: EnrollmentRequest, token: string, now: int, t: string)
    ensures SessionFate(db, OpEnroll(req, token), now, EnrollNode(env, db, req, token, now), t)
  {
    hide EnrollmentReceipt, EnrollmentFits, ChallengeProven, Spent;
  }

  lemma RenewSessions(env: Env, db: Database, c: Challenge, signature: string, token: string, now: int, t: string)
    ensures SessionFate(db, OpRenew(c, signature, token), now, RenewSession(env, db, c, signature, token, now), t)
  {
    hide RenewSession, RenewalFits, ChallengeProven, Spent, Clone;
    RenewEffect(env, db, c, signature, token, now);
  }

  lemma ReleasedSessions(db: Database, m: Id)
    requires m in db.nodes
    ensures Released(db, m).sessions == SessionsOfOthers(db, m) && m in Released(db, m).nodes
  {
    hide RevokedGrants, SessionsOfOthers, ChallengesOfOthers;
  }

  lemma IssueSessions(db: Database, actor: Actor, m: Id, code: string, now: int, t: string)
    ensures SessionFate(db, OpIssueEnrollment(actor, m, code), now, IssueEnrollment(db, actor, m, code, now), t)
  {
    hide IssueEnrollment, Released, Mints, Administers;
    IssueEffect(db, actor, m, code, now);
    if m in db.nodes { ReleasedSessions(db, m); }
  }

  lemma ReleaseSessions(db: Database, token: string, now: int, t: string)
    ensures SessionFate(db, OpRelease(token), now, ReleaseNode(db, token, now), t)
  {
    hide Released, Mints;
    if SessionNode(db, token, now).Some? { ReleasedSessions(db, SessionNode(db, token, now).value); }
  }

  lemma AdministeredSessions(env: Env, db: Database, op: NodeOp, now: int, t: string)
    requires op.OpRecover? || op.OpDeleteNode? || op.OpChangeDomain?
    ensures SessionFate(db, op, now, NodeStatements(env, db, op, now), t)
  {
    hide ActiveActor, RequireOwner, Mints, ChallengesOfOthers, UpToDate, DomainTaken;
  }

  lemma NodeSessions(env: Env, db: Database, op: NodeOp, now: int, t: string)
    ensures SessionFate(db, op, now, NodeStatements(env, db, op, now), t)
  {
    hide Mints;
    hide CreateNode, IssueEnrollment, EnrollmentChallenge, EnrollNode, SessionChallenge, RenewSession;
    hide RecoverInstance, NodeHeartbeat, Acknowledge, ReleaseNode, SetNodeEnabled, DeleteNode, ChangeDomain;
    match op
    case OpEnroll(req, token) => EnrollSessions(env, db, req, token, now, t);
    case OpRenew(c, s, token) => RenewSessions(env, db, c, s, token, now, t);
    case OpIssueEnrollment(a, m, code) => IssueSessions(db, a, m, code, now, t);
    case OpRelease(token) => ReleaseSessions(db, token, now, t);
    case OpRecover(a, m, i) => AdministeredSessions(env, db, op, now, t);
    case OpDeleteNode(a, m, c) => AdministeredSessions(env, db, op, now, t);
    case OpChangeDomain(a, m, d, c) => AdministeredSessions(env, db, op, now, t);
    case _ =>
  }

  lemma SessionsOf(env: Env, db: Database, op: Op, now: int, t: string)
    ensures var tx := Statements(env, db, op, now);
            tx.Commit? && t in tx.db.sessions ==>
              || (t in db.sessions && tx.db.sessions[t] == db.sessions[t])
              || (Mints(op, t, tx.db.sessions[t].node) && tx.db.sessions[t].expiresAt == now + 3600)
  {
    hide AccountStatements, NodeStatements, GrantStatements, Mints;
    match op
    case OnNode(o) => NodeSessions(env, db, o, now, t);
    case _ =>
  }
}
