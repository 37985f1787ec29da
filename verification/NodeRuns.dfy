/** Node identity over whole runs: one-time enrollment, single-use challenges, a key that
    never changes, one live instance, and the clone freeze. */
module NodeRuns {
  import opened Ids
  import opened Protocol
  import opened Tables
  import opened PolicyView
  import opened NodeTx
  import opened Transactions
  import opened Invariants
  import opened Effects
  import opened NodeEffects
  import opened Runs

  lemma EnrollmentStep(env: Env, db: Database, op: Op, now: int, db': Database, n: Id)
    requires Commits(env, db, op, now, db') && n in db'.enrollments
    ensures EnrollmentFate(env, db, op, now, db', n)
  {
    hide Statements, EnrollmentFate, Rebuild;
    CommitShape(env, db, op, now, db');
    EnrollmentsOf(env, db, op, now, n);
    EnrollmentFrame(env, db, op, now, Statements(env, db, op, now).db, db', n);
  }

  lemma EnrollmentFrame(env: Env, db: Database, op: Op, now: int, mid: Database, db': Database, n: Id)
    requires mid.enrollments == db'.enrollments && n in mid.enrollments && EnrollmentFate(env, db, op, now, mid, n)
    ensures EnrollmentFate(env, db, op, now, db', n)
  {}

  lemma ChallengeStep(env: Env, db: Database, op: Op, now: int, db': Database, k: string)
    requires Commits(env, db, op, now, db') && k in db'.challenges
    ensures ChallengeFate(db, op, now, db', k)
  {
    hide Statements, ChallengeFate, Rebuild;
    CommitShape(env, db, op, now, db');
    ChallengesFate(env, db, op, now, k);
    ChallengeFrame(db, op, now, Statements(env, db, op, now).db, db', k);
  }

  lemma ChallengeFrame(db: Database, op: Op, now: int, mid: Database, db': Database, k: string)
    requires mid.challenges == db'.challenges && k in mid.challenges && ChallengeFate(db, op, now, mid, k)
    ensures ChallengeFate(db, op, now, db', k)
  {}

  // Challenges are spent once.

  /** The nonce was handed out and can no longer be answered. */
  predicate NonceSpent(db: Database, k: string) {
    k in db.drawn && (k in db.challenges ==> db.challenges[k].usedAt != 0)
  }

  /** Step `i` accepts an answer to the challenge with nonce `k`. */
  ghost predicate Accepts(env: Env, states: seq<Database>, events: seq<Event>, i: nat, k: string)
    requires i < |events| && i + 1 < |states|
  {
    CommitAt(env, states, events, i) && Answers(events[i].op, k)
  }

  lemma AnswerGuard(env: Env, db: Database, op: Op, now: int, k: string)
    requires Answers(op, k) && Statements(env, db, op, now).Commit?
    ensures k in db.challenges && db.challenges[k].usedAt == 0
  {
    hide Minted, SessionsOfOthers, EnrollmentReceipt, EnrollmentFits, RenewalFits, Spent, Clone;
  }

  lemma SpentStays(env: Env, db: Database, op: Op, now: int, db': Database, k: string)
    requires Inv(env, db) && Step(env, db, op, now, db') && NonceSpent(db, k)
    ensures NonceSpent(db', k)
  {
    hide Inv, Statements, Commits;
    GoneStep(env, db, op, now, db', k);
    StepOutcome(env, db, op, now, db');
    if db' != db && k in db'.challenges { ChallengeStep(env, db, op, now, db', k); }
  }

  lemma AcceptSpends(env: Env, states: seq<Database>, events: seq<Event>, i: nat, k: string)
    requires IsRun(env, states, events) && i < |events| && Accepts(env, states, events, i, k)
    ensures k in states[i].challenges && states[i].challenges[k].usedAt == 0
    ensures NonceSpent(states[i + 1], k)
  {
    hide Statements, Rebuild, Answers;
    var db, op, now, db' := states[i], events[i].op, events[i].now, states[i + 1];
    assert StepAt(env, states, events, i);
    AnswerGuard(env, db, op, now, k);
    InvAlways(env, states, events, i);
    NonceDrawn(env, db, k);
    GoneStep(env, db, op, now, db', k);
    if k in db'.challenges { ChallengeStep(env, db, op, now, db', k); FreshNonce(db, op, now, k); }
  }

  lemma NonceDrawn(env: Env, db: Database, k: string)
    requires Inv(env, db) && k in db.challenges
    ensures k in db.drawn
  {}

  lemma FreshNonce(db: Database, op: Op, now: int, k: string)
    requires Legitimate(db, op, now) && k in db.drawn
    ensures k !in Draws(op) && now > 0
  {}

  lemma {:induction false} SpentForGood(env: Env, states: seq<Database>, events: seq<Event>, i: nat, j: nat, k: string)
    requires IsRun(env, states, events) && i <= j < |states| && NonceSpent(states[i], k)
    ensures NonceSpent(states[j], k)
    decreases j - i
  {
    hide Step, Inv, NonceSpent;
    if i < j {
      SpentForGood(env, states, events, i, j - 1, k);
      InvAlways(env, states, events, j - 1);
      assert StepAt(env, states, events, j - 1);
      SpentStays(env, states[j - 1], events[j - 1].op, events[j - 1].now, states[j], k);
    }
  }

  /** However enrollments and renewals interleave, each nonce is accepted at most once. */
  lemma NonceAcceptedOnce(env: Env, states: seq<Database>, events: seq<Event>, i: nat, j: nat, k: string)
    requires IsRun(env, states, events) && i < j < |events| && Accepts(env, states, events, i, k)
    ensures !Accepts(env, states, events, j, k)
  {
    hide Step, Accepts;
    AcceptSpends(env, states, events, i, k);
    SpentForGood(env, states, events, i + 1, j, k);
    if Accepts(env, states, events, j, k) { AcceptSpends(env, states, events, j, k); }
  }

  // Codes are consumed once.

  ghost predicate CodesDistinct(db: Database) {
    forall m, n :: m in db.enrollments && n in db.enrollments && m != n ==> db.enrollments[m].code != db.enrollments[n].code
  }

  lemma FreshCode(env: Env, db: Database, op: Op, now: int, n: Id, code: string)
    requires Inv(env, db) && Legitimate(db, op, now) && Issues(op, n, code)
    ensures code !in db.drawn && forall m :: m in db.enrollments ==> db.enrollments[m].code != code
  {
    assert code in Draws(op);
  }

  lemma CodesStayDistinct(env: Env, db: Database, op: Op, now: int, db': Database)
    requires Inv(env, db) && Step(env, db, op, now, db') && CodesDistinct(db)
    ensures CodesDistinct(db')
  {
    hide Inv, Statements, Commits, Legitimate;
    StepOutcome(env, db, op, now, db');
    if db' != db {
      forall m, n | m in db'.enrollments && n in db'.enrollments && m != n ensures db'.enrollments[m].code != db'.enrollments[n].code {
        EnrollmentStep(env, db, op, now, db', m);
        EnrollmentStep(env, db, op, now, db', n);
        if Issues(op, m, db'.enrollments[m].code) { FreshCode(env, db, op, now, m, db'.enrollments[m].code); }
        if Issues(op, n, db'.enrollments[n].code) { FreshCode(env, db, op, now, n, db'.enrollments[n].code); }
      }
    }
  }

  lemma {:induction false} CodesAlwaysDistinct(env: Env, states: seq<Database>, events: seq<Event>, i: nat)
    requires IsRun(env, states, events) && i < |states|
    ensures CodesDistinct(states[i])
    decreases i
  {
    hide Step, Inv;
    if i > 0 {
      CodesAlwaysDistinct(env, states, events, i - 1);
      InvAlways(env, states, events, i - 1);
      assert StepAt(env, states, events, i - 1);
      CodesStayDistinct(env, states[i - 1], events[i - 1].op, events[i - 1].now, states[i]);
    }
  }

  predicate CodeSpent(db: Database, code: string) {
    code in db.drawn && forall n :: n in db.enrollments && db.enrollments[n].code == code ==> db.enrollments[n].consumedAt != 0
  }

  /** Step `i` turns a request with this code into a session. */
  ghost predicate EnrollsWith(env: Env, states: seq<Database>, events: seq<Event>, i: nat, code: string)
    requires i < |events| && i + 1 < |states|
  {
    CommitAt(env, states, events, i) && events[i].op.OnNode? && events[i].op.node.OpEnroll? && events[i].op.node.request.code == code
  }

  lemma EnrollGuard(env: Env, db: Database, op: Op, now: int)
    requires op.OnNode? && op.node.OpEnroll? && Statements(env, db, op, now).Commit?
    ensures var n := op.node.request.challenge.nodeId;
            n in db.enrollments && db.enrollments[n].code == op.node.request.code && db.enrollments[n].consumedAt == 0
  {
    hide Minted, ChallengeProven, EnrollmentFits, Spent;
  }

  lemma CodeSpentStays(env: Env, db: Database, op: Op, now: int, db': Database, code: string)
    requires Inv(env, db) && Step(env, db, op, now, db') && CodeSpent(db, code)
    ensures CodeSpent(db', code)
  {
    hide Inv, Statements, Commits;
    GoneStep(env, db, op, now, db', code);
    StepOutcome(env, db, op, now, db');
    if db' != db {
      forall n | n in db'.enrollments && db'.enrollments[n].code == code ensures db'.enrollments[n].consumedAt != 0 {
        EnrollmentStep(env, db, op, now, db', n);
        if Issues(op, n, code) { FreshCode(env, db, op, now, n, code); }
      }
    }
  }

  lemma EnrollSpends(env: Env, states: seq<Database>, events: seq<Event>, i: nat, code: string)
    requires IsRun(env, states, events) && i < |events| && EnrollsWith(env, states, events, i, code)
    ensures !CodeSpent(states[i], code) && CodeSpent(states[i + 1], code)
  {
    hide Statements, Rebuild, Inv, Legitimate;
    var db, op, now, db' := states[i], events[i].op, events[i].now, states[i + 1];
    assert StepAt(env, states, events, i);
    EnrollGuard(env, db, op, now);
    InvAlways(env, states, events, i);
    CodesAlwaysDistinct(env, states, events, i);
    CodeDrawn(env, db, op.node.request.challenge.nodeId);
    GoneStep(env, db, op, now, db', code);
    TimePositive(db, op, now);
    forall n | n in db'.enrollments && db'.enrollments[n].code == code ensures db'.enrollments[n].consumedAt != 0 {
      EnrollmentStep(env, db, op, now, db', n);
    }
  }

  lemma TimePositive(db: Database, op: Op, now: int)
    requires Legitimate(db, op, now)
    ensures now > 0
  {}

  lemma CodeDrawn(env: Env, db: Database, n: Id)
    requires Inv(env, db) && n in db.enrollments
    ensures db.enrollments[n].code in db.drawn
  {}

  lemma {:induction false} CodeSpentForGood(env: Env, states: seq<Database>, events: seq<Event>, i: nat, j: nat, code: string)
    requires IsRun(env, states, events) && i <= j < |states| && CodeSpent(states[i], code)
    ensures CodeSpent(states[j], code)
    decreases j - i
  {
    hide Step, Inv, CodeSpent;
    if i < j {
      CodeSpentForGood(env, states, events, i, j - 1, code);
      InvAlways(env, states, events, j - 1);
      assert StepAt(env, states, events, j - 1);
      CodeSpentStays(env, states[j - 1], events[j - 1].op, events[j - 1].now, states[j], code);
    }
  }

  /** One code makes at most one session, however many enrollments race for it. */
  lemma CodeEnrollsOnce(env: Env, states: seq<Database>, events: seq<Event>, i: nat, j: nat, code: string)
    requires IsRun(env, states, events) && i < j < |events| && EnrollsWith(env, states, events, i, code)
    ensures !EnrollsWith(env, states, events, j, code)
  {
    hide Step, EnrollsWith, CodeSpent;
    EnrollSpends(env, states, events, i, code);
    CodeSpentForGood(env, states, events, i + 1, j, code);
    if EnrollsWith(env, states, events, j, code) { EnrollSpends(env, states, events, j, code); }
  }

  /** Step `k` enrolled exactly this request and answered with exactly this session. */
  ghost predicate EnrolledAs(env: Env, states: seq<Database>, events: seq<Event>, k: nat, req: EnrollmentRequest, session: NodeSession)
    requires k < |events| && k + 1 < |states|
  {
    && CommitAt(env, states, events, k) && events[k].op == OnNode(OpEnroll(req, session.token))
    && session == NodeSession(env.clusterId, req.challenge.nodeId, req.challenge.instanceId, session.token, events[k].now + 3600, events[k].now + 90)
  }

  /** A consumed row remembers the step that consumed it. */
  lemma {:induction false} ConsumedBy(env: Env, states: seq<Database>, events: seq<Event>, i: nat, n: Id) returns (k: nat)
    requires IsRun(env, states, events) && i < |states| && n in states[i].enrollments && states[i].enrollments[n].consumedAt != 0
    ensures k < i && states[i].enrollments[n].request.Some? && states[i].enrollments[n].response.Some?
    ensures EnrolledAs(env, states, events, k, states[i].enrollments[n].request.value, states[i].enrollments[n].response.value)
    decreases i
  {
    hide Step, Commits;
    assert i > 0;
    assert StepAt(env, states, events, i - 1);
    var db, op, now := states[i - 1], events[i - 1].op, events[i - 1].now;
    StepOutcome(env, db, op, now, states[i]);
    if states[i] != db { EnrollmentStep(env, db, op, now, states[i], n); }
    if n in db.enrollments && states[i].enrollments[n] == db.enrollments[n] {
      k := ConsumedBy(env, states, events, i - 1, n);
    } else {
      k := i - 1;
    }
  }

  /** A receipt is only ever the session that the identical request was answered with. */
  lemma ReceiptIsOriginal(env: Env, states: seq<Database>, events: seq<Event>, i: nat, req: EnrollmentRequest, now: int) returns (k: nat)
    requires IsRun(env, states, events) && i < |states| && EnrollmentReceipt(states[i], req, now).Receipt?
    ensures k < i && EnrolledAs(env, states, events, k, req, EnrollmentReceipt(states[i], req, now).session)
  {
    hide Step, Commits;
    k := ConsumedBy(env, states, events, i, req.challenge.nodeId);
  }

  lemma EnrolledCode(env: Env, states: seq<Database>, events: seq<Event>, k: nat, req: EnrollmentRequest, session: NodeSession)
    requires |states| == |events| + 1 && k < |events| && EnrolledAs(env, states, events, k, req, session)
    ensures EnrollsWith(env, states, events, k, req.code)
  {
    hide Commits;
  }

  /** A consumed row carries the code of the request that consumed it. */
  lemma {:induction false} ConsumedCode(env: Env, states: seq<Database>, events: seq<Event>, i: nat, n: Id)
    requires IsRun(env, states, events) && i < |states| && n in states[i].enrollments && states[i].enrollments[n].request.Some?
    ensures states[i].enrollments[n].request.value.code == states[i].enrollments[n].code || states[i].enrollments[n].consumedAt == 0
    decreases i
  {
    hide Step, Commits;
    if i > 0 {
      assert StepAt(env, states, events, i - 1);
      var db, op, now := states[i - 1], events[i - 1].op, events[i - 1].now;
      StepOutcome(env, db, op, now, states[i]);
      if states[i] != db { EnrollmentStep(env, db, op, now, states[i], n); }
      if n in db.enrollments && states[i].enrollments[n] == db.enrollments[n] { ConsumedCode(env, states, events, i - 1, n); }
    }
  }

  /** As long as the code was not re-issued or has expired, repeating the request returns the same session: an
      answer that got lost is not lost for good. */
  lemma RetryGetsReceipt(env: Env, states: seq<Database>, events: seq<Event>, k: nat, i: nat, req: EnrollmentRequest, session: NodeSession, now: int)
    requires IsRun(env, states, events) && k < i < |states| && EnrolledAs(env, states, events, k, req, session)
    requires var n, db := req.challenge.nodeId, states[i];
             n in db.enrollments && n in db.nodes && db.enrollments[n].owner == db.nodes[n].owner && db.enrollments[n].code == req.code
             && db.enrollments[n].expiresAt > now && UserEnabled(db, db.nodes[n].owner)
    ensures EnrollmentReceipt(states[i], req, now) == if now < session.expiresAt then Receipt(session) else Denied
  {
    hide Step, Commits, CodeSpent;
    var n := req.challenge.nodeId;
    EnrolledCode(env, states, events, k, req, session);
    EnrollSpends(env, states, events, k, req.code);
    CodeSpentForGood(env, states, events, k + 1, i, req.code);
    SpentRow(states[i], n, req.code);
    var j := ConsumedBy(env, states, events, i, n);
    ConsumedCode(env, states, events, i, n);
    EnrolledCode(env, states, events, j, states[i].enrollments[n].request.value, states[i].enrollments[n].response.value);
    if j < k { CodeEnrollsOnce(env, states, events, j, k, req.code); }
    if k < j { CodeEnrollsOnce(env, states, events, k, j, req.code); }
  }

  lemma SpentRow(db: Database, n: Id, code: string)
    requires CodeSpent(db, code) && n in db.enrollments && db.enrollments[n].code == code
    ensures db.enrollments[n].consumedAt != 0
  {}

  /** At most eight challenges per node are stored. */
  lemma FewChallengesAlways(env: Env, states: seq<Database>, events: seq<Event>, i: nat, n: Id)
    requires IsRun(env, states, events) && i < |states|
    ensures |ChallengesOf(states[i].challenges, n)| <= MAX_CHALLENGES
  {
    hide IsRun, References, TokensDrawn, SharingSound, Stored;
    InvAlways(env, states, events, i);
  }

  // The key and the instance.

  lemma NodeStepOf(env: Env, db: Database, op: Op, now: int, db': Database, n: Id)
    requires Inv(env, db) && Step(env, db, op, now, db') && n in db'.nodes
    ensures || (n in db.nodes && db'.nodes[n] == db.nodes[n])
            || (op.OnNode? && Commits(env, db, op, now, db') && NodeFate(db, op.node, now, db', n))
  {
    hide Inv, Commits, Statements, Legitimate, NodeFate;
    StepOutcome(env, db, op, now, db');
    if db' != db { NodeCommit(env, db, op, now, db', n); }
  }

  lemma NodeCommit(env: Env, db: Database, op: Op, now: int, db': Database, n: Id)
    requires Inv(env, db) && Legitimate(db, op, now) && Commits(env, db, op, now, db') && n in db'.nodes
    ensures (n in db.nodes && db'.nodes[n] == db.nodes[n]) || (op.OnNode? && NodeFate(db, op.node, now, db', n))
  {
    hide AccountStatements, NodeStatements, GrantStatements, Rebuild, Legitimate, NodeFate, NewNodeId, Stored;
    hide NodesSound, SharingSound, References;
    CommitShape(env, db, op, now, db');
    NewIds(db, op, now);
    match op
    case OnNode(o) => NodesOf(env, db, o, now, n); NodeFateFrame(db, o, now, Statements(env, db, op, now).db, db', n);
    case _ =>
  }

  lemma NodeFateFrame(db: Database, op: NodeOp, now: int, mid: Database, db': Database, n: Id)
    requires mid.nodes == db'.nodes && n in mid.nodes && NodeFate(db, op, now, mid, n)
    ensures NodeFate(db, op, now, db', n)
  {}

  lemma {:induction false} NodeStillThere(env: Env, states: seq<Database>, events: seq<Event>, i: nat, j: nat, n: Id)
    requires IsRun(env, states, events) && i <= j < |states| && n in states[i].nodes
    ensures n in states[j].nodes || Gone(states[j], n)
    decreases j - i
  {
    hide Step, Inv;
    InvAlways(env, states, events, i);
    NodeDrawn(env, states[i], n);
    if i < j {
      NodeStillThere(env, states, events, i, j - 1, n);
      InvAlways(env, states, events, j - 1);
      assert StepAt(env, states, events, j - 1);
      if n in states[j - 1].nodes { NodeDrawn(env, states[j - 1], n); }
      GoneStep(env, states[j - 1], events[j - 1].op, events[j - 1].now, states[j], n);
    }
  }

  lemma NodeDrawn(env: Env, db: Database, n: Id)
    requires Inv(env, db) && n in db.nodes
    ensures n in db.drawn
  {}

  /** A node's public key, once set, never changes, even across release and re-enrollment. */
  lemma {:induction false} PublicKeyForever(env: Env, states: seq<Database>, events: seq<Event>, i: nat, j: nat, n: Id)
    requires IsRun(env, states, events) && i <= j < |states| && n in states[i].nodes && n in states[j].nodes
    requires states[i].nodes[n].publicKey.Some?
    ensures states[j].nodes[n].publicKey == states[i].nodes[n].publicKey
    decreases j - i
  {
    hide Step, Inv, Commits, Authenticates, Administers;
    if i < j {
      InvAlways(env, states, events, j - 1);
      assert StepAt(env, states, events, j - 1);
      NodeStillThere(env, states, events, i, j - 1, n);
      GoneStep(env, states[j - 1], events[j - 1].op, events[j - 1].now, states[j], n);
      PublicKeyForever(env, states, events, i, j - 1, n);
      NodeStepOf(env, states[j - 1], events[j - 1].op, events[j - 1].now, states[j], n);
    }
  }

  /** In every state of every run a node has at most one session, and a token authenticates only for
      the instance on record. */
  lemma OneLiveInstance(env: Env, states: seq<Database>, events: seq<Event>, i: nat, n: Id, a: string, b: string, now: int)
    requires IsRun(env, states, events) && i < |states|
    ensures Authenticates(states[i], a, n, now) && Authenticates(states[i], b, n, now) ==> a == b
    ensures a in states[i].sessions && b in states[i].sessions && states[i].sessions[a].node == states[i].sessions[b].node ==> a == b
    ensures a in states[i].sessions && states[i].sessions[a].node == n ==> n in states[i].nodes && states[i].sessions[a].instance == states[i].nodes[n].instance
  {
    hide IsRun, TokensDrawn, SharingSound, Stored;
    InvAlways(env, states, events, i);
  }

  /** What a node's fate says about its instance. */
  ghost predicate InstanceMoves(db: Database, op: NodeOp, now: int, db': Database, n: Id)
    requires n in db.nodes
  {
    var x := db.nodes[n];
    || (x.state.Pending? && op.OpEnroll?)
    || LetGo(db, db', n)
    || (op.OpRecover? && Administers(db, op.actor, n) && x.state.IdentityConflict?)
    || (op.OpRenew? && x.leaseUntil <= now && x.publicKey == Some(op.challenge.publicKey))
  }

  lemma FateOfInstance(db: Database, op: NodeOp, now: int, db': Database, n: Id)
    requires n in db.nodes && n in db'.nodes && NodeFate(db, op, now, db', n)
    ensures db'.nodes[n].instance != db.nodes[n].instance ==> InstanceMoves(db, op, now, db', n)
  {
    hide Authenticates, Administers;
    if db'.nodes[n].state.Pending? && !db.nodes[n].state.Pending? { assert LetGo(db, db', n); }
    assert op.OpRelease? && Authenticates(db, op.token, n, now) ==> !db.nodes[n].state.Pending? by { AuthenticIsServing(db, op, now, n); }
  }

  lemma AuthenticIsServing(db: Database, op: NodeOp, now: int, n: Id)
    ensures op.OpRelease? && Authenticates(db, op.token, n, now) ==> Serving(db.nodes[n].state)
  {}

  predicate EndsFreeze(op: NodeOp, n: Id) { (op.OpRecover? && op.node == n) || (op.OpIssueEnrollment? && op.node == n) }

  lemma FateOfFreeze(db: Database, op: NodeOp, now: int, db': Database, n: Id)
    requires n in db.nodes && n in db'.nodes && NodeFate(db, op, now, db', n) && db.nodes[n].state.IdentityConflict?
    ensures db'.nodes[n].state.IdentityConflict? || (EndsFreeze(op, n) && Administers(db, op.actor, n))
  {
    hide Administers, Clone;
  }

  /** The recorded instance changes only when the node enrolls, is released or re-issued a code,
      when its owner recovers it from a conflict, or by a proven renewal after the lease has ended. */
  lemma InstanceChanges(env: Env, states: seq<Database>, events: seq<Event>, i: nat, n: Id)
    requires IsRun(env, states, events) && i < |events| && n in states[i].nodes && n in states[i + 1].nodes
    requires states[i + 1].nodes[n].instance != states[i].nodes[n].instance
    ensures CommitAt(env, states, events, i) && events[i].op.OnNode?
    ensures InstanceMoves(states[i], events[i].op.node, events[i].now, states[i + 1], n)
  {
    hide Step, Inv, Commits, NodeFate, InstanceMoves;
    InvAlways(env, states, events, i);
    assert StepAt(env, states, events, i);
    NodeStepOf(env, states[i], events[i].op, events[i].now, states[i + 1], n);
    FateOfInstance(states[i], events[i].op.node, events[i].now, states[i + 1], n);
  }

  /** A second instance that proves the key inside the lease freezes the node. */
  lemma CloneFreezes(env: Env, states: seq<Database>, events: seq<Event>, i: nat)
    requires IsRun(env, states, events) && i < |events| && CommitAt(env, states, events, i)
    requires events[i].op.OnNode? && events[i].op.node.OpRenew? && events[i].op.node.challenge.nodeId in states[i].nodes
    requires var x := states[i].nodes[events[i].op.node.challenge.nodeId];
             x.instance != events[i].op.node.challenge.instanceId && events[i].now < x.leaseUntil
    ensures var n := events[i].op.node.challenge.nodeId; n in states[i + 1].nodes && states[i + 1].nodes[n].state.IdentityConflict?
  {
    hide Step, Rebuild, Statements;
    var c, op := events[i].op.node.challenge, events[i].op;
    CommitShape(env, states[i], op, events[i].now, states[i + 1]);
    CloneCommit(env, states[i], op, events[i].now);
  }

  lemma CloneCommit(env: Env, db: Database, op: Op, now: int)
    requires op.OnNode? && op.node.OpRenew? && op.node.challenge.nodeId in db.nodes && Clone(db.nodes[op.node.challenge.nodeId], op.node.challenge.instanceId, now)
    ensures var tx, n := Statements(env, db, op, now), op.node.challenge.nodeId;
            tx.Commit? ==> n in tx.db.nodes && tx.db.nodes[n].state.IdentityConflict?
  {
    hide ChallengeProven, Minted, SessionsOfOthers, Spent;
  }

  /** While a node is frozen it has no session, no token authenticates it, and its policy admits nobody. */
  lemma FrozenIsSilent(env: Env, states: seq<Database>, events: seq<Event>, i: nat, n: Id)
    requires IsRun(env, states, events) && i < |states| && n in states[i].nodes && states[i].nodes[n].state.IdentityConflict?
    ensures forall k :: k in states[i].sessions ==> states[i].sessions[k].node != n
    ensures forall token, now :: !Authenticates(states[i], token, n, now)
    ensures n in states[i].policies && states[i].policies[n].body.Some? && states[i].policies[n].body.value.grants == []
  {
    hide IsRun, TokensDrawn, SharingSound, ValidPolicy, View;
    InvAlways(env, states, events, i);
    ViewAlways(env, states, events, i, n);
    IdleView(states[i], n);
  }

  /** Only its owner's recovery or a re-issued enrollment, or deletion, ends the freeze. */
  lemma LeavingTheFreeze(env: Env, states: seq<Database>, events: seq<Event>, i: nat, n: Id)
    requires IsRun(env, states, events) && i < |events| && n in states[i].nodes && states[i].nodes[n].state.IdentityConflict?
    ensures || n !in states[i + 1].nodes
            || states[i + 1].nodes[n].state.IdentityConflict?
            || (&& CommitAt(env, states, events, i) && events[i].op.OnNode?
                && EndsFreeze(events[i].op.node, n) && Administers(states[i], events[i].op.node.actor, n))
  {
    hide Step, Inv, Commits, NodeFate, Administers, EndsFreeze;
    if n in states[i + 1].nodes && states[i + 1].nodes[n] != states[i].nodes[n] {
      InvAlways(env, states, events, i);
      assert StepAt(env, states, events, i);
      NodeStepOf(env, states[i], events[i].op, events[i].now, states[i + 1], n);
      FateOfFreeze(states[i], events[i].op.node, events[i].now, states[i + 1], n);
    }
  }

  lemma FateOfReady(db: Database, op: NodeOp, now: int, db': Database, n: Id)
    requires n in db.nodes && n in db'.nodes && NodeFate(db, op, now, db', n) && !db.nodes[n].state.Ready? && db'.nodes[n].state.Ready?
    ensures op.OpAcknowledge? && AckBy(db, OnNode(op), now, n) && op.ack.state.AckApplied?
    ensures op.ack.usable && op.ack.revision == db.policies[n].desired && db.policies[n].body.Some? && HasLiveKey(db.policies[n].body.value, now)
  {
    hide Authenticates, Administers, WellFormedAck;
  }

  /** A node becomes ready only when it reports, under its live session, that it usably applied the desired
      revision, and that policy admits some key at that time. */
  lemma ReadyIsUsable(env: Env, states: seq<Database>, events: seq<Event>, i: nat, n: Id)
    requires IsRun(env, states, events) && i < |events| && n in states[i].nodes && n in states[i + 1].nodes
    requires !states[i].nodes[n].state.Ready? && states[i + 1].nodes[n].state.Ready?
    ensures n in states[i].policies && AppliedAt(env, states, events, i, n, states[i].policies[n].desired)
    ensures events[i].op.node.ack.usable && states[i].policies[n].body.Some? && HasLiveKey(states[i].policies[n].body.value, events[i].now)
  {
    hide Step, Inv, Commits, NodeFate, Authenticates, WellFormedAck, HasLiveKey;
    InvAlways(env, states, events, i);
    assert StepAt(env, states, events, i);
    NodeStepOf(env, states[i], events[i].op, events[i].now, states[i + 1], n);
    FateOfReady(states[i], events[i].op.node, events[i].now, states[i + 1], n);
  }
}
