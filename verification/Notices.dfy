/** Which control streams each transaction wakes or closes after it commits, and that no change of a stored
    policy goes unannounced (the notifyPolicy, notifyPolicies and closeNodeStream calls of
    internal/control). */
module Notices {
  import opened Ids
  import opened Protocol
  import opened Tables
  import opened PolicyView
  import opened AccountTx
  import opened GrantTx
  import opened NodeTx
  import opened Transactions
  import opened Invariants
  import opened Steps
  import opened GrantKeeps
  import opened NodeKeeps
  import opened Effects
  import opened Runs

  datatype Notice = Silent | WakesAll | Wakes(node: Id) | Closes(node: Id)

  function AccountNotice(op: AccountOp): Notice {
    match op
    case OpCreateUser(_, _, _, _) => Silent
    case OpSetUserRole(_, _, _) => Silent
    case OpBeginReplace(_) => Silent
    case OpBeginRefresh(_) => Silent
    case OpCommitRefresh(_, _, _, found) => if found.Some? then WakesAll else Silent
    case _ => WakesAll
  }

  function NodeNotice(db: Database, op: NodeOp, now: int): Notice {
    match op
    case OpIssueEnrollment(_, n, _) => Closes(n)
    case OpRelease(token) => if token in db.sessions then Closes(db.sessions[token].node) else Silent
    case OpRenew(c, _, _) => if c.nodeId in db.nodes && Clone(db.nodes[c.nodeId], c.instanceId, now) then Wakes(c.nodeId) else Silent
    case OpRecover(_, n, _) => Wakes(n)
    case OpHeartbeat(token) => if token in db.sessions then Wakes(db.sessions[token].node) else Silent
    case OpSetNodeEnabled(_, n, _) => Wakes(n)
    case OpDeleteNode(_, n, _) => Wakes(n)
    case OpChangeDomain(_, n, _, _) => Wakes(n)
    case _ => Silent
  }

  ghost function GrantNotice(db: Database, op: GrantOp): Notice {
    match op
    case OpRequestGrant(_, p, _, _, _) => Wakes(p.node)
    case OpGrantAction(_, g, _, _) => if p :| HasGrant(db, g, p) then Wakes(p.node) else Silent
    case OpSetQoS(_, n, _) => Wakes(n)
    case OpBuildPolicy(n) => Wakes(n)
  }

  ghost function NoticeOf(db: Database, op: Op, now: int): Notice {
    match op
    case OnAccount(a) => AccountNotice(a)
    case OnNode(o) => NodeNotice(db, o, now)
    case OnGrant(g) => GrantNotice(db, g)
  }

  predicate Reaches(notice: Notice, n: Id) { notice.WakesAll? || notice == Wakes(n) || notice == Closes(n) }

  lemma AccountAnnounces(db: Database, op: AccountOp, now: int, n: Id)
    ensures var tx := AccountStatements(db, op, now); tx.Commit? && n in tx.rebuild ==> Reaches(AccountNotice(op), n)
  {
    hide SetUserEnabled, SetRetentions, AddTailnet, ReplaceCredential, DeleteCredential, SetTailnetEnabled;
    hide DeleteTailnet, TransferTailnet, ActiveActor, HasAdmin, OwnsNodes, PublishIdentity;
  }

  lemma GrantAnnounces(db: Database, op: GrantOp, now: int, n: Id)
    requires GrantsSound(db.grants)
    ensures var tx := GrantStatements(db, op, now); tx.Commit? && n in tx.rebuild ==> Reaches(GrantNotice(db, op), n)
  {
    hide RequestGrant, ApplyGrantAction, ActOnPair, ActiveActor, InsertRules, RulesOfOthers, ValidQoS;
    match op
    case OpRequestGrant(a, p, e, until, id) => RequestEffect(db, a, p, e, until, id, now);
    case OpGrantAction(a, g, e, act) =>
      if ApplyGrantAction(db, a, g, e, act, now).Commit? {
        var p := ActionByPair(db, a, g, e, act, now);
        ActionEffect(db, a, p, e, act, now);
      }
    case _ =>
  }

  lemma NodeAnnounces(env: Env, db: Database, op: NodeOp, now: int, n: Id)
    requires !op.OpEnroll?
    ensures var tx := NodeStatements(env, db, op, now); tx.Commit? && n in tx.rebuild ==> Reaches(NodeNotice(db, op, now), n)
  {
    hide EnrollNode, RenewSession, ActiveActor, RequireOwner, Released, WithEnrollment, SessionsOfOthers;
    hide ChallengesOfOthers, AckedRow, ChallengesOf, FreshChallenges, CodeOpen, DomainTaken, FirstFree, UsedRegions;
    match op
    case OpRenew(c, s, token) => RenewEffect(env, db, c, s, token, now);
    case _ =>
  }

  /** Enrolling again does not change what is published: a released node has no consent left. */
  lemma EnrollChangesNothing(env: Env, db: Database, op: Op, now: int, n: Id)
    requires TablesSound(db) && op.OnNode? && op.node.OpEnroll? && Statements(env, db, op, now).Commit?
    requires n in db.policies && n in Statements(env, db, op, now).rebuild
    ensures var mid := Statements(env, db, op, now).db;
            n in mid.nodes && n in mid.policies && n in db.nodes && View(mid, n) == View(db, n)
  {
    hide EnrollNode, TablesSound, Minted, Spent, View, NewSession, ChallengeProven;
    EnrollEffect(env, db, op.node.request, op.node.token, now);
    var mid := Statements(env, db, op, now).db;
    EnrolledFacts(db, n);
    NoActiveGrants(db, mid, n);
  }

  lemma EnrolledFacts(db: Database, n: Id)
    requires TablesSound(db) && n in db.policies
    ensures n in db.nodes && PendingRevoked(db.nodes, db.grants)
  {}

  lemma NoActiveGrants(db: Database, mid: Database, n: Id)
    requires n in db.nodes && n in mid.nodes && n in db.policies && n in mid.policies && PendingRevoked(db.nodes, db.grants)
    requires db.nodes[n].state.Pending? && mid.grants == db.grants && SameBudget(db.policies[n], mid.policies[n])
    ensures View(mid, n) == View(db, n)
  {
    assert ShownTailnets(mid, n) == {};
    assert ShownTailnets(db, n) == {};
  }

  /** Every committed change of a stored policy wakes that node's stream or closes it. */
  lemma ChangesAreAnnounced(env: Env, db: Database, op: Op, now: int, db': Database, n: Id)
    requires Inv(env, db) && Step(env, db, op, now, db') && n in db.policies && n in db'.policies
    requires db'.policies[n].body != db.policies[n].body
    ensures Commits(env, db, op, now, db') && Reaches(NoticeOf(db, op, now), n)
  {
    hide TablesSound, Statements, Legitimate, Rebuild, View, NoticeOf, Covered, Materialised, References, RowsReady;
    hide BuildRow;
    StepOutcome(env, db, op, now, db');
    StepKeepsInv(env, db, op, now, db');
    StoredRowsReady(env, db);
    StatementsKeep(env, db, op, now);
    var tx := Statements(env, db, op, now);
    RebuildShape(env, tx.db, tx.rebuild, now, db');
    RevisionStep(env, db, op, now, db', n);
    if n !in tx.rebuild {
      Untouched(env, db, tx.db, tx.rebuild, n);
    } else if op.OnNode? && op.node.OpEnroll? {
      EnrollChangesNothing(env, db, op, now, n);
      ViewIgnoresStoredBodies(tx.db, db'.policies, n);
      EnrollKeepsRegistration(env, db, op, now, db', n);
    } else {
      Announces(env, db, op, now, n);
    }
  }

  lemma Untouched(env: Env, db: Database, mid: Database, ns: set<Id>, n: Id)
    requires Covered(env, db, mid, ns) && n in mid.policies && n !in ns
    ensures n in db.policies && mid.policies[n].body == db.policies[n].body
  {
    hide View;
  }

  lemma EnrollKeepsRegistration(env: Env, db: Database, op: Op, now: int, db': Database, n: Id)
    requires op.OnNode? && op.node.OpEnroll? && Statements(env, db, op, now).Commit? && db'.nodes == Statements(env, db, op, now).db.nodes
    ensures !LetGo(db, db', n)
  {
    hide EnrollNode, Minted, Spent, NewSession, ChallengeProven;
    EnrollEffect(env, db, op.node.request, op.node.token, now);
  }

  lemma Announces(env: Env, db: Database, op: Op, now: int, n: Id)
    requires TablesSound(db) && !(op.OnNode? && op.node.OpEnroll?)
    ensures var tx := Statements(env, db, op, now); tx.Commit? && n in tx.rebuild ==> Reaches(NoticeOf(db, op, now), n)
  {
    hide AccountStatements, NodeStatements, GrantStatements, AccountNotice, NodeNotice, GrantNotice, References;
    hide TokensDrawn, NodesSound;
    match op
    case OnAccount(a) => AccountAnnounces(db, a, now, n);
    case OnNode(o) => NodeAnnounces(env, db, o, now, n);
    case OnGrant(g) => GrantAnnounces(db, g, now, n);
  }
}
