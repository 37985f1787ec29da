/** Whole runs of the controller from an empty database: the invariant at every state, and
    what revisions mean over time. */
module Runs {
  import opened Ids
  import opened Protocol
  import opened Tables
  import opened PolicyView
  import opened NodeTx
  import opened Transactions
  import opened Invariants
  import opened Steps
  import opened Effects

  datatype Event = Event(op: Op, now: int)

  ghost predicate StepAt(env: Env, states: seq<Database>, events: seq<Event>, i: nat)
    requires i < |events| && i + 1 < |states|
  {
    Step(env, states[i], events[i].op, events[i].now, states[i + 1])
  }

  /** Any number of transactions, in any order, with any clock readings and any outcome. */
  ghost predicate IsRun(env: Env, states: seq<Database>, events: seq<Event>) {
    && |states| == |events| + 1 && states[0] == EMPTY
    && forall i :: 0 <= i < |events| ==> StepAt(env, states, events, i)
  }

  /** The step at `i` is a committed transaction. */
  ghost predicate CommitAt(env: Env, states: seq<Database>, events: seq<Event>, i: nat)
    requires i < |events| && i + 1 < |states|
  {
    Commits(env, states[i], events[i].op, events[i].now, states[i + 1])
  }

  lemma {:induction false} InvAlways(env: Env, states: seq<Database>, events: seq<Event>, i: nat)
    requires IsRun(env, states, events) && i < |states|
    ensures Inv(env, states[i])
    decreases i
  {
    hide Inv, Step;
    if i == 0 {
      EmptyIsSound(env);
    } else {
      InvAlways(env, states, events, i - 1);
      assert StepAt(env, states, events, i - 1);
      StepKeepsInv(env, states[i - 1], events[i - 1].op, events[i - 1].now, states[i]);
    }
  }

  /** After every transaction of any run, the policy stored for each enrolled node is the
      view of the tables, at the revision it carries. */
  lemma ViewAlways(env: Env, states: seq<Database>, events: seq<Event>, i: nat, n: Id)
    requires IsRun(env, states, events) && i < |states|
    ensures n in states[i].nodes && !states[i].nodes[n].state.Pending? ==> n in states[i].policies
    ensures n in states[i].policies ==> n in states[i].nodes && Materialised(env, states[i], n)
  {
    hide IsRun, Materialised, References, TokensDrawn, SharingSound;
    InvAlways(env, states, events, i);
  }

  // Identifiers are drawn once.

  /** The node's id was drawn and the node is gone. */
  predicate Gone(db: Database, n: Id) { n in db.drawn && n !in db.nodes }

  lemma NewIds(db: Database, op: Op, now: int)
    requires Legitimate(db, op, now) && db.nodes.Keys <= db.drawn
    ensures op.OnNode? ==> NewNodeId(db, op.node)
  {
    if op.OnNode? && op.node.OpCreateNode? { assert op.node.id in Draws(op); }
  }

  lemma CreatedIds(db: Database, op: Op, now: int, n: Id)
    requires Legitimate(db, op, now) && n in db.drawn
    ensures op.OnNode? && op.node.OpCreateNode? ==> op.node.id != n
  {
    if op.OnNode? && op.node.OpCreateNode? { assert op.node.id in Draws(op); }
  }

  /** A deleted node never comes back, and a policy goes only with its node. */
  lemma GoneStep(env: Env, db: Database, op: Op, now: int, db': Database, n: Id)
    requires Inv(env, db) && Step(env, db, op, now, db')
    ensures db.drawn <= db'.drawn
    ensures Gone(db, n) ==> Gone(db', n)
    ensures n in db.policies ==> n in db'.policies || Gone(db', n)
  {
    hide Inv, Statements, Commits, Legitimate, NewNodeId;
    StepOutcome(env, db, op, now, db');
    if db' != db { GoneCommit(env, db, op, now, db', n); }
  }

  lemma GoneCommit(env: Env, db: Database, op: Op, now: int, db': Database, n: Id)
    requires Inv(env, db) && Legitimate(db, op, now) && Commits(env, db, op, now, db')
    ensures db.drawn <= db'.drawn
    ensures Gone(db, n) ==> Gone(db', n)
    ensures n in db.policies ==> n in db'.policies || Gone(db', n)
  {
    hide Statements, Rebuild, Legitimate, NewNodeId, NodesSound, SharingSound, Stored, AccountStatements;
    hide GrantStatements, NodeStatements;
    var tx := Statements(env, db, op, now);
    CommitShape(env, db, op, now, db');
    KeysGrowOf(env, db, op, now);
    NewIds(db, op, now);
    if n in db.drawn { CreatedIds(db, op, now, n); }
    NodeKeysOf(env, db, op, now, n);
  }

  /** Only creation adds a node. */
  lemma NodeKeysOf(env: Env, db: Database, op: Op, now: int, n: Id)
    requires op.OnNode? ==> NewNodeId(db, op.node)
    ensures var tx := Statements(env, db, op, now);
            tx.Commit? && n in tx.db.nodes && n !in db.nodes ==> op.OnNode? && op.node.OpCreateNode? && op.node.id == n
  {
    hide AccountStatements, GrantStatements, NodeStatements;
    match op
    case OnNode(o) => NodesOf(env, db, o, now, n);
    case _ =>
  }

  // What a revision means.

  /** A step raises the desired revision by one exactly when the view changes or the
      registration is released; otherwise the stored body is the same. */
  lemma RevisionStep(env: Env, db: Database, op: Op, now: int, db': Database, n: Id)
    requires Inv(env, db) && Step(env, db, op, now, db') && n in db.policies && n in db'.policies
    ensures n in db.nodes && n in db'.nodes
    ensures db'.policies[n].desired == db.policies[n].desired + if View(db', n) != View(db, n) || LetGo(db, db', n) then 1 else 0
    ensures db'.policies[n].desired == db.policies[n].desired ==> db'.policies[n].body == db.policies[n].body
  {
    hide TablesSound, Statements, Commits, Legitimate, Materialised, View;
    StepKeepsInv(env, db, op, now, db');
    StepOutcome(env, db, op, now, db');
    if db' != db { RevisionCommit(env, db, op, now, db', n); }
  }

  lemma RevisionCommit(env: Env, db: Database, op: Op, now: int, db': Database, n: Id)
    requires Inv(env, db) && Legitimate(db, op, now) && Commits(env, db, op, now, db') && n in db.policies && n in db'.policies
    requires n in db.nodes && n in db'.nodes
    ensures db'.policies[n].desired == db.policies[n].desired + if View(db', n) != View(db, n) || LetGo(db, db', n) then 1 else 0
    ensures db'.policies[n].desired == db.policies[n].desired ==> db'.policies[n].body == db.policies[n].body
  {
    hide TablesSound, Statements, Rebuild, Legitimate, NewNodeId, View, RowFate, BuildRow, LetGo, References, RowsReady;
    var tx := Statements(env, db, op, now);
    RebuildShape(env, tx.db, tx.rebuild, now, db');
    StoredRowsReady(env, db);
    StatementsKeep(env, db, op, now);
    RowCause(env, db, op, now, n);
    ViewIgnoresStoredBodies(tx.db, db'.policies, n);
    assert LetGo(db, db', n) == LetGo(db, tx.db, n) by { LetGoFrame(db, tx.db, db'); }
    RevisionOfRow(env, db, op, now, tx.db, tx.rebuild, n, db'.policies[n]);
  }

  lemma LetGoFrame(db: Database, mid: Database, db': Database)
    requires mid.nodes == db'.nodes
    ensures forall n :: LetGo(db, db', n) == LetGo(db, mid, n)
  {}

  lemma RowCause(env: Env, db: Database, op: Op, now: int, n: Id)
    requires TablesSound(db) && Legitimate(db, op, now)
    ensures var tx := Statements(env, db, op, now);
            tx.Commit? && n in tx.db.policies ==> RowFate(db, op, now, tx.db, tx.rebuild, n)
  {
    hide Statements, RowFate, Legitimate, References, SharingSound;
    NewIds(db, op, now);
    RowsOf(env, db, op, now, n);
  }

  lemma RevisionOfRow(env: Env, db: Database, op: Op, now: int, mid: Database, rebuild: set<Id>, n: Id, row: PolicyRow)
    requires n in db.policies && n in db.nodes && n in mid.policies && n in mid.nodes
    requires Materialised(env, db, n) && RowFate(db, op, now, mid, rebuild, n)
    requires if n in rebuild then BuildRow(env, mid, n, now) == Ok(row) else row == mid.policies[n] && NeedsNoBuild(db, mid, n)
    ensures row.desired == db.policies[n].desired + if View(mid, n) != View(db, n) || LetGo(db, mid, n) then 1 else 0
    ensures row.desired == db.policies[n].desired ==> row.body == db.policies[n].body
  {
    hide View, AckedRow, Authenticates, ShownTailnets, ValidPolicy;
  }

  lemma {:induction false} PolicyLives(env: Env, states: seq<Database>, events: seq<Event>, i: nat, k: nat, n: Id)
    requires IsRun(env, states, events) && i <= k < |states| && n in states[i].policies
    ensures n in states[k].policies || Gone(states[k], n)
    decreases k - i
  {
    hide Step, Inv;
    if i < k {
      PolicyLives(env, states, events, i, k - 1, n);
      InvAlways(env, states, events, k - 1);
      assert StepAt(env, states, events, k - 1);
      GoneStep(env, states[k - 1], events[k - 1].op, events[k - 1].now, states[k], n);
    }
  }

  lemma PolicyHasNode(env: Env, db: Database, n: Id)
    requires Inv(env, db)
    ensures n in db.policies ==> !Gone(db, n)
  {}

  /** Over a whole run a node's revisions never fall, and one revision never names two bodies. */
  lemma {:induction false} RevisionNamesOneBody(env: Env, states: seq<Database>, events: seq<Event>, i: nat, j: nat, n: Id)
    requires IsRun(env, states, events) && i <= j < |states| && n in states[i].policies && n in states[j].policies
    ensures states[i].policies[n].desired <= states[j].policies[n].desired
    ensures states[i].policies[n].desired == states[j].policies[n].desired ==> states[i].policies[n].body == states[j].policies[n].body
    decreases j - i
  {
    hide Step, Inv, View, LetGo;
    if i < j {
      InvAlways(env, states, events, j - 1);
      InvAlways(env, states, events, j);
      assert StepAt(env, states, events, j - 1);
      PolicyLives(env, states, events, i, j - 1, n);
      GoneStep(env, states[j - 1], events[j - 1].op, events[j - 1].now, states[j], n);
      PolicyHasNode(env, states[j], n);
      RevisionNamesOneBody(env, states, events, i, j - 1, n);
      RevisionStep(env, states[j - 1], events[j - 1].op, events[j - 1].now, states[j], n);
    }
  }

  // Acknowledgements and removal.

  /** How the acknowledgement columns of a row move in one step. */
  ghost predicate AckStep(db: Database, op: Op, now: int, db': Database, n: Id)
    requires n in db'.policies
  {
    var r' := db'.policies[n];
    if n !in db.policies || LetGo(db, db', n) then
      r'.received == 0 && r'.applied == 0
    else
      var r := db.policies[n];
      || (r'.received == r.received && r'.applied == r.applied)
      || (AckBy(db, op, now, n) && AckedRow(r, op.node.ack, now) == Ok(r'))
  }

  lemma AckStepOf(env: Env, db: Database, op: Op, now: int, db': Database, n: Id)
    requires Inv(env, db) && Step(env, db, op, now, db') && n in db'.policies
    ensures AckStep(db, op, now, db', n)
    ensures db' != db ==> Commits(env, db, op, now, db')
  {
    hide TablesSound, Statements, Commits, Legitimate, Materialised, AckStep;
    StepOutcome(env, db, op, now, db');
    if db' != db { AckCommit(env, db, op, now, db', n); } else { AckIdle(db, op, now, n); }
  }

  lemma AckIdle(db: Database, op: Op, now: int, n: Id)
    requires n in db.policies
    ensures AckStep(db, op, now, db, n)
  {}

  lemma AckCommit(env: Env, db: Database, op: Op, now: int, db': Database, n: Id)
    requires Inv(env, db) && Legitimate(db, op, now) && Commits(env, db, op, now, db') && n in db'.policies
    ensures AckStep(db, op, now, db', n)
  {
    hide TablesSound, Statements, Rebuild, Legitimate, BuildRow, RowFate, AckStep;
    var tx := Statements(env, db, op, now);
    RebuildShape(env, tx.db, tx.rebuild, now, db');
    RowCause(env, db, op, now, n);
    LetGoFrame(db, tx.db, db');
    if n in tx.rebuild { BuildKeepsAcks(env, tx.db, n, now); }
    AckFate(db, op, now, tx.db, tx.rebuild, n, db');
  }

  lemma BuildKeepsAcks(env: Env, mid: Database, n: Id, now: int)
    requires n in mid.policies && BuildRow(env, mid, n, now).Ok?
    ensures BuildRow(env, mid, n, now).value.received == mid.policies[n].received
    ensures BuildRow(env, mid, n, now).value.applied == mid.policies[n].applied
  {
    hide View, ShownTailnets, ValidPolicy;
  }

  lemma AckFate(db: Database, op: Op, now: int, mid: Database, rebuild: set<Id>, n: Id, db': Database)
    requires n in mid.policies && n in db'.policies && RowFate(db, op, now, mid, rebuild, n) && LetGo(db, db', n) == LetGo(db, mid, n)
    requires db'.policies[n].received == mid.policies[n].received && db'.policies[n].applied == mid.policies[n].applied
    requires n !in rebuild ==> db'.policies[n] == mid.policies[n]
    ensures AckStep(db, op, now, db', n)
  {
    hide LetGo, AckedRow, Authenticates;
  }

  /** At step `k` node `n` reported, under its live session, that it applied revision `revision`. */
  ghost predicate AppliedAt(env: Env, states: seq<Database>, events: seq<Event>, k: nat, n: Id, revision: int)
    requires k < |events| && k + 1 < |states|
  {
    && CommitAt(env, states, events, k) && AckBy(states[k], events[k].op, events[k].now, n)
    && events[k].op.node.ack.state.AckApplied? && events[k].op.node.ack.revision == revision
  }

  /** The registration that was live at `k` is still live at `i`. */
  predicate SameRegistration(states: seq<Database>, k: nat, i: nat, n: Id)
    requires k <= i < |states|
  {
    forall m :: k <= m < i ==> !LetGo(states[m], states[m + 1], n)
  }

  /** The applied column is never ahead of the node: behind every positive value is a report of
      exactly that revision, made under the present registration. */
  lemma {:induction false} AppliedWasReported(env: Env, states: seq<Database>, events: seq<Event>, i: nat, n: Id) returns (k: nat)
    requires IsRun(env, states, events) && i < |states| && n in states[i].policies && states[i].policies[n].applied > 0
    ensures k < i && AppliedAt(env, states, events, k, n, states[i].policies[n].applied) && SameRegistration(states, k, i, n)
    decreases i
  {
    hide Step, Inv, Commits, Authenticates, WellFormedAck, LetGo;
    assert i > 0;
    InvAlways(env, states, events, i - 1);
    assert StepAt(env, states, events, i - 1);
    AckStepOf(env, states[i - 1], events[i - 1].op, events[i - 1].now, states[i], n);
    if n in states[i - 1].policies && states[i - 1].policies[n].applied == states[i].policies[n].applied {
      k := AppliedWasReported(env, states, events, i - 1, n);
    } else {
      k := i - 1;
    }
  }

  /** The transaction deletes node `n` or moves it to another domain while its control stream is open. */
  predicate RemovesConnected(op: Op, n: Id) {
    op.OnNode? && ((op.node.OpDeleteNode? && op.node.node == n && op.node.connected) || (op.node.OpChangeDomain? && op.node.node == n && op.node.connected))
  }

  lemma RemovalGuards(env: Env, db: Database, op: Op, now: int, n: Id)
    requires RemovesConnected(op, n) && n in db.nodes && !db.nodes[n].state.Pending?
    ensures Statements(env, db, op, now).Commit? ==> !db.nodes[n].enabled && UpToDate(db, n)
  {}

  /** A registered node with an open stream is deleted or moved only after its policy is empty and it
      has reported, under its present registration, that it applied exactly that empty policy. */
  lemma SafeRemoval(env: Env, states: seq<Database>, events: seq<Event>, i: nat, n: Id) returns (k: nat)
    requires IsRun(env, states, events) && i < |events| && CommitAt(env, states, events, i)
    requires RemovesConnected(events[i].op, n) && n in states[i].nodes && !states[i].nodes[n].state.Pending?
    ensures n in states[i].policies && states[i].policies[n].body.Some?
    ensures var row := states[i].policies[n]; row.body.value.revision == row.desired && row.body.value.grants == []
    ensures k < i && AppliedAt(env, states, events, k, n, states[i].policies[n].desired) && SameRegistration(states, k, i, n)
  {
    hide Step, Statements, TablesSound, AppliedAt, RemovesConnected, ValidPolicy, View;
    InvAlways(env, states, events, i);
    ViewAlways(env, states, events, i, n);
    RemovalGuards(env, states[i], events[i].op, events[i].now, n);
    IdleView(states[i], n);
    k := AppliedWasReported(env, states, events, i, n);
  }
}
