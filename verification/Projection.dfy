/** The controller's transactions are moves of the policy protocol: what the protocol assumes of the
    controller holds of every step of every run of the database. */
module Projection {
  import opened Ids
  import opened Protocol
  import opened Tables
  import opened PolicyView
  import opened NodeTx
  import opened Transactions
  import opened Invariants
  import opened Effects
  import opened NodeEffects
  import opened Runs
  import opened Meaning
  import P = ControlProtocol

  ghost function RowOf(r: PolicyRow): P.Row
    requires r.body.Some?
  {
    P.Row(r.desired, r.received, r.applied, r.body.value)
  }

  lemma AckRecords(r: PolicyRow, a: Ack, now: int)
    requires r.body.Some? && AckOrder(r) && WellFormedAck(a) && AckedRow(r, a, now).Ok?
    ensures AckedRow(r, a, now).value.body == r.body
    ensures var r' := RowOf(AckedRow(r, a, now).value);
            if a.state.AckNack? then r' == RowOf(r) else P.Records(RowOf(r), r', a.revision, a.state.AckApplied?)
  {}

  lemma BodiesPresent(env: Env, db: Database, n: Id)
    requires Inv(env, db) && n in db.policies
    ensures db.policies[n].body.Some? && AckOrder(db.policies[n]) && db.policies[n].body.value.revision == db.policies[n].desired
    ensures db.policies[n].body.value.clusterId == env.clusterId && db.policies[n].body.value.nodeId == n
  {
    hide TablesSound, View, WithinLimits, DistinctGrants, DistinctKeys, RulesMatchGrants, ValidQoS;
    assert Materialised(env, db, n);
  }

  /** The acknowledgement columns stay, are cleared by a release, or record an authenticated report; the desired
      revision and the body move together and one at a time. */
  lemma StepProjects(env: Env, db: Database, op: Op, now: int, db': Database, n: Id)
    requires Inv(env, db) && Inv(env, db') && Step(env, db, op, now, db') && n in db.policies && n in db'.policies
    ensures db.policies[n].body.Some? && db'.policies[n].body.Some?
    ensures var r, r' := RowOf(db.policies[n]), RowOf(db'.policies[n]);
            && r'.body.clusterId == env.clusterId && r'.body.nodeId == n
            && if LetGo(db, db', n) then P.Releases(r, r')
               else
                 || r' == r
                 || P.Publishes(r, r')
                 || (AckBy(db, op, now, n) && !op.node.ack.state.AckNack? && P.Records(r, r', op.node.ack.revision, op.node.ack.state.AckApplied?))
  {
    hide Inv, Statements, Commits, Legitimate, View, Step, Authenticates, AckedRow, LetGo;
    BodiesPresent(env, db, n);
    BodiesPresent(env, db', n);
    RevisionStep(env, db, op, now, db', n);
    AckStepOf(env, db, op, now, db', n);
    if AckBy(db, op, now, n) { AckRecords(db.policies[n], op.node.ack, now); }
  }

  /** A node's first policy is revision 1, with nothing acknowledged. */
  lemma FirstPolicy(env: Env, db: Database, op: Op, now: int, db': Database, n: Id)
    requires Inv(env, db) && Step(env, db, op, now, db') && n !in db.policies && n in db'.policies
    ensures op.OnNode? && op.node.OpEnroll? && db'.policies[n].body.Some?
    ensures RowOf(db'.policies[n]).desired == 1 && RowOf(db'.policies[n]).received == 0 && RowOf(db'.policies[n]).applied == 0
  {
    hide TablesSound, Statements, Rebuild, Legitimate, View, RowFate, ShownTailnets, ValidPolicy;
    StepOutcome(env, db, op, now, db');
    var tx := Statements(env, db, op, now);
    RebuildShape(env, tx.db, tx.rebuild, now, db');
    RowCause(env, db, op, now, n);
    FirstRow(db, op, now, tx.db, tx.rebuild, n);
  }

  lemma FirstRow(db: Database, op: Op, now: int, mid: Database, rebuild: set<Id>, n: Id)
    requires n in mid.policies && n !in db.policies && RowFate(db, op, now, mid, rebuild, n)
    ensures op.OnNode? && op.node.OpEnroll? && mid.policies[n] == DEFAULT_POLICY && n in rebuild
  {}

  lemma SessionNeedsServing(env: Env, db: Database, token: string)
    requires Inv(env, db) && token in db.sessions
    ensures db.sessions[token].node in db.nodes && Serving(db.nodes[db.sessions[token].node].state)
  {}

  /** A session in force was minted, for this node, under its present registration, an hour before it expires: an
      acknowledgement that an earlier registration sent is never recorded. */
  lemma {:induction false} SessionIsPresent(env: Env, states: seq<Database>, events: seq<Event>, i: nat, token: string) returns (k: nat)
    requires IsRun(env, states, events) && i < |states| && token in states[i].sessions
    ensures k < i && CommitAt(env, states, events, k) && Mints(events[k].op, token, states[i].sessions[token].node)
    ensures SameRegistration(states, k + 1, i, states[i].sessions[token].node) && states[i].sessions[token].expiresAt == events[k].now + 3600
    decreases i
  {
    hide Step, Inv, Commits;
    assert i > 0;
    assert StepAt(env, states, events, i - 1);
    InvAlways(env, states, events, i);
    SessionNeedsServing(env, states[i], token);
    SessionStep(env, states[i - 1], events[i - 1].op, events[i - 1].now, states[i], token);
    if token in states[i - 1].sessions && states[i - 1].sessions[token] == states[i].sessions[token] {
      k := SessionIsPresent(env, states, events, i - 1, token);
    } else {
      k := i - 1;
    }
  }

  lemma SessionStep(env: Env, db: Database, op: Op, now: int, db': Database, token: string)
    requires Step(env, db, op, now, db') && token in db'.sessions
    ensures || (token in db.sessions && db'.sessions[token] == db.sessions[token])
            || (Commits(env, db, op, now, db') && Mints(op, token, db'.sessions[token].node) && db'.sessions[token].expiresAt == now + 3600)
  {
    hide Statements, Commits, Legitimate, Mints;
    StepOutcome(env, db, op, now, db');
    if db' != db { SessionCommit(env, db, op, now, db', token); }
  }

  lemma SessionCommit(env: Env, db: Database, op: Op, now: int, db': Database, token: string)
    requires Commits(env, db, op, now, db') && token in db'.sessions
    ensures || (token in db.sessions && db'.sessions[token] == db.sessions[token])
            || (Mints(op, token, db'.sessions[token].node) && db'.sessions[token].expiresAt == now + 3600)
  {
    hide Statements, Rebuild, Mints;
    CommitShape(env, db, op, now, db');
    SessionsOf(env, db, op, now, token);
  }

  /** In every state of every run, a stored token speaks for its node at exactly the times before an hour has passed since
      it was minted, as long as the node's owner is not paused. */
  lemma SessionSpeaks(env: Env, states: seq<Database>, events: seq<Event>, i: nat, token: string, t: int) returns (k: nat)
    requires IsRun(env, states, events) && i < |states| && token in states[i].sessions
    ensures k < i && CommitAt(env, states, events, k) && Mints(events[k].op, token, states[i].sessions[token].node)
    ensures var n := states[i].sessions[token].node;
            n in states[i].nodes && (SpeaksFor(states[i], token, n, t) <==> t < events[k].now + 3600 && UserOn(states[i], states[i].nodes[n].owner))
  {
    hide IsRun, Mints, CommitAt, Stored, SharingSound;
    InvAlways(env, states, events, i);
    k := SessionIsPresent(env, states, events, i, token);
    SessionNeedsServing(env, states[i], token);
  }
}
