/** Controller and node together: any run of the database interleaved with any run of the node whose
    acknowledgements are what the controller receives is a run of the policy protocol on the real rows. */
module Joint {
  import opened Ids
  import opened Protocol
  import opened Tables
  import opened PolicyView
  import opened NodeTx
  import opened Transactions
  import opened Invariants
  import opened Steps
  import opened Effects
  import opened NodeEffects
  import opened Runs
  import opened Projection
  import Cache
  import P = ControlProtocol

  /** An acknowledgement as it is sent: under a session token. */
  datatype Sent = Sent(token: string, revision: int, applied: bool)

  /** The node: the registration and token it holds, its cache, its work, and what it has told the child and the controller. */
  datatype NodeSide = NodeSide(held: Option<nat>, last: nat, token: string, disk: Cache.Disk, work: P.Work,
                               handed: seq<int>, confirmed: set<int>, sent: set<Sent>)

  /** What happened so far: how many registrations the node had, every body published for it, and under which
      registration each of its tokens was minted. */
  datatype History = History(epoch: nat, bodies: map<int, Policy>, minted: map<string, nat>)

  datatype World = World(db: Database, node: NodeSide, past: History)

  const FRESH := NodeSide(None, 0, "", Cache.Disk(Cache.Absent, Cache.Absent), P.Idle, [], {}, {})
  const BEGINNING := History(0, map[], map[])

  datatype JointEvent =
    | Controller(op: Op, now: int)
    | Enrolled(token: string)        // the node stores the session it was enrolled with
    | Renewed(token: string)         // or the one its registration was renewed with
    | Node(step: P.Step)

  function MintedBy(op: Op): Option<string> {
    if op.OnNode? && op.node.OpEnroll? then Some(op.node.token)
    else if op.OnNode? && op.node.OpRenew? then Some(op.node.token) else None
  }

  /** How a database step on node `n` enters the history. */
  function Recorded(past: History, db: Database, op: Op, db': Database, n: Id): History {
    var epoch := if n in db'.policies && n !in db.policies then 1 else if LetGo(db, db', n) then past.epoch + 1 else past.epoch;
    var bodies := if n in db'.policies && db'.policies[n].body.Some? && (n in db.policies ==> db'.policies[n].desired != db.policies[n].desired)
                  then past.bodies[db'.policies[n].desired := db'.policies[n].body.value] else past.bodies;
    var minted := match MintedBy(op)
                  case Some(t) => if t in db'.sessions && db'.sessions[t].node == n then past.minted[t := epoch] else past.minted
                  case None => past.minted;
    History(epoch, bodies, minted)
  }

  /** Messages by the registration their token was minted under. */
  function Acks(sent: set<Sent>, minted: map<string, nat>): set<P.AckMessage> {
    set m | m in sent && m.token in minted :: P.AckMessage(minted[m.token], m.revision, m.applied)
  }

  predicate Published(w: World, n: Id) { n in w.db.policies && w.db.policies[n].body.Some? }

  /** The protocol state that the two machines are in. */
  ghost function SystemOf(w: World, n: Id): P.System
    requires Published(w, n)
  {
    P.System(RowOf(w.db.policies[n]), w.past.epoch, w.past.bodies, w.node.held, w.node.last, w.node.disk, w.node.work,
             w.node.handed, w.node.confirmed, Acks(w.node.sent, w.past.minted))
  }

  /** Steps of the node alone. */
  predicate OwnStep(step: P.Step) { !(step.Publish? || step.Release? || step.AckArrives? || step.Enroll?) }

  function SentBy(node: NodeSide, step: P.Step): set<Sent> {
    if step.SendReceived? && node.work.Stored? then node.sent + {Sent(node.token, node.work.p.revision, false)}
    else if step.SendApplied? && node.work.Confirmed? then node.sent + {Sent(node.token, node.work.p.revision, true)}
    else node.sent
  }

  function NodeAfter(node: NodeSide, step: P.Step, s: P.System): NodeSide {
    NodeSide(s.held, s.last, node.token, s.disk, s.work, s.handed, s.confirmed, SentBy(node, step))
  }

  /** The controller takes any transaction, but receives for this node only acknowledgements that the node sent. The
      node takes the steps of its code, and the sessions it is given; a registration it left does not come back. */
  ghost predicate JointStep(env: Env, cfg: P.Config, n: Id, w: World, e: JointEvent, w': World) {
    match e
    case Controller(op, now) =>
      && Step(env, w.db, op, now, w'.db) && w'.node == w.node && w'.past == Recorded(w.past, w.db, op, w'.db, n)
      && (AckBy(w.db, op, now, n) && !op.node.ack.state.AckNack? ==>
            Sent(op.node.token, op.node.ack.revision, op.node.ack.state.AckApplied?) in w.node.sent)
    case Enrolled(token) =>
      && Published(w, n) && w.node.held.None? && token in w.past.minted && w.node.last < w.past.minted[token]
      && w' == w.(node := w.node.(held := Some(w.past.minted[token]), last := w.past.minted[token], token := token, work := P.Idle))
    case Renewed(token) =>
      && token in w.past.minted && w.node.held == Some(w.past.minted[token])
      && w' == w.(node := w.node.(token := token))
    case Node(step) =>
      && Published(w, n) && OwnStep(step)
      && exists s :: P.Moves(cfg, SystemOf(w, n), step, s) && w' == w.(node := NodeAfter(w.node, step, s))
  }

  ghost predicate JointAt(env: Env, cfg: P.Config, n: Id, worlds: seq<World>, events: seq<JointEvent>, i: nat)
    requires i < |events| && i + 1 < |worlds|
  {
    JointStep(env, cfg, n, worlds[i], events[i], worlds[i + 1])
  }

  /** Database and node from the beginning, in any interleaving. */
  ghost predicate IsJointRun(env: Env, cfg: P.Config, n: Id, worlds: seq<World>, events: seq<JointEvent>) {
    && |worlds| == |events| + 1 && worlds[0] == World(EMPTY, FRESH, BEGINNING)
    && Cache.Faithful(cfg.codec) && cfg.clusterId == env.clusterId && cfg.nodeId == n
    && forall i :: 0 <= i < |events| ==> JointAt(env, cfg, n, worlds, events, i)
  }

  // The database's part is a run.

  lemma {:induction false} DatabaseRun(env: Env, cfg: P.Config, n: Id, worlds: seq<World>, events: seq<JointEvent>, i: nat)
      returns (states: seq<Database>, done: seq<Event>)
    requires IsJointRun(env, cfg, n, worlds, events) && i < |worlds|
    ensures IsRun(env, states, done) && states[|states| - 1] == worlds[i].db
    decreases i
  {
    hide Step, P.Moves, Cache.Faithful;
    if i == 0 {
      states, done := [EMPTY], [];
    } else {
      states, done := DatabaseRun(env, cfg, n, worlds, events, i - 1);
      assert JointAt(env, cfg, n, worlds, events, i - 1);
      if events[i - 1].Controller? {
        RunGrows(env, states, done, events[i - 1].op, events[i - 1].now, worlds[i].db);
        states, done := states + [worlds[i].db], done + [Event(events[i - 1].op, events[i - 1].now)];
      }
    }
  }

  lemma RunGrows(env: Env, states: seq<Database>, events: seq<Event>, op: Op, now: int, db': Database)
    requires IsRun(env, states, events) && Step(env, states[|states| - 1], op, now, db')
    ensures IsRun(env, states + [db'], events + [Event(op, now)])
  {
    hide Step;
    var s, e := states + [db'], events + [Event(op, now)];
    forall i | 0 <= i < |e| ensures StepAt(env, s, e, i) {
      if i < |events| { assert StepAt(env, states, events, i); }
    }
  }

  // What ties the two sides together.

  /** Every session of the node was minted under its present registration. */
  ghost predicate SessionsKnown(db: Database, past: History, n: Id) {
    forall k :: k in db.sessions && db.sessions[k].node == n ==> k in past.minted && past.minted[k] == past.epoch
  }

  /** Tokens were minted under registrations that exist. */
  ghost predicate EpochsBound(past: History) { forall k :: k in past.minted ==> past.minted[k] <= past.epoch }

  ghost predicate TokensKnown(w: World) {
    && w.past.minted.Keys <= w.db.drawn && EpochsBound(w.past)
    && (w.node.held.Some? ==> w.node.token in w.past.minted && w.node.held == Some(w.past.minted[w.node.token]))
    && (forall m :: m in w.node.sent ==> m.token in w.past.minted)
  }

  /** Before its first policy the node has done nothing. */
  ghost predicate NotYet(w: World, n: Id) {
    n !in w.db.policies ==> Gone(w.db, n) || (w.node == FRESH && w.past == BEGINNING)
  }

  ghost predicate Linked(env: Env, w: World, n: Id) {
    Inv(env, w.db) && SessionsKnown(w.db, w.past, n) && TokensKnown(w) && NotYet(w, n)
  }

  lemma FreshToken(db: Database, op: Op, now: int)
    requires Legitimate(db, op, now)
    ensures MintedBy(op).Some? ==> MintedBy(op).value !in db.drawn
  {
    if MintedBy(op).Some? { assert MintedBy(op).value in Draws(op); }
  }

  lemma MintsIsMintedBy(op: Op, token: string, n: Id)
    requires Mints(op, token, n)
    ensures MintedBy(op) == Some(token)
  {}

  lemma SessionsStayKnown(env: Env, db: Database, past: History, op: Op, now: int, db': Database, n: Id)
    requires Inv(env, db) && Inv(env, db') && Step(env, db, op, now, db') && SessionsKnown(db, past, n)
    requires n !in db.policies ==> Gone(db, n) || past == BEGINNING
    ensures SessionsKnown(db', Recorded(past, db, op, db', n), n)
  {
    hide Inv, Step, Mints, MintedBy;
    var after := Recorded(past, db, op, db', n);
    forall k | k in db'.sessions && db'.sessions[k].node == n ensures k in after.minted && after.minted[k] == after.epoch {
      SessionStep(env, db, op, now, db', k);
      SessionNeedsServing(env, db', k);
      if k in db.sessions && db'.sessions[k] == db.sessions[k] {
        SessionNeedsServing(env, db, k);
        ServingHasPolicy(env, db, n);
        MintedIsNew(env, db, op, now, db', k);
      } else {
        MintsIsMintedBy(op, k, n);
      }
    }
  }

  lemma ServingHasPolicy(env: Env, db: Database, n: Id)
    requires Inv(env, db) && n in db.nodes && Serving(db.nodes[n].state)
    ensures n in db.policies && !db.nodes[n].state.Pending?
  {}

  lemma MintedIsNew(env: Env, db: Database, op: Op, now: int, db': Database, k: string)
    requires Inv(env, db) && Step(env, db, op, now, db') && k in db.sessions
    ensures MintedBy(op) != Some(k)
  {
    hide Stored, NodesSound, SharingSound, References;
    FreshToken(db, op, now);
  }

  lemma MintedDrawn(env: Env, w: World, op: Op, now: int, db': Database, n: Id)
    requires Inv(env, w.db) && Inv(env, db') && Step(env, w.db, op, now, db') && w.past.minted.Keys <= w.db.drawn
    ensures Recorded(w.past, w.db, op, db', n).minted.Keys <= db'.drawn
    ensures forall k :: k in w.past.minted ==> k in Recorded(w.past, w.db, op, db', n).minted
                                               && Recorded(w.past, w.db, op, db', n).minted[k] == w.past.minted[k]
  {
    hide Stored, NodesSound, SharingSound, References;
    GoneStep(env, w.db, op, now, db', n);
    FreshToken(w.db, op, now);
  }

  lemma EpochsStayBound(w: World, op: Op, db': Database, n: Id)
    requires EpochsBound(w.past) && NotYet(w, n) && !(Gone(w.db, n) && n in db'.policies)
    ensures EpochsBound(Recorded(w.past, w.db, op, db', n))
  {}

  lemma ControllerKeepsLinked(env: Env, cfg: P.Config, n: Id, w: World, op: Op, now: int, w': World)
    requires Linked(env, w, n) && JointStep(env, cfg, n, w, Controller(op, now), w')
    ensures Linked(env, w', n)
  {
    hide Inv, Step, SessionsKnown, Recorded;
    StepKeepsInv(env, w.db, op, now, w'.db);
    SessionsStayKnown(env, w.db, w.past, op, now, w'.db, n);
    MintedDrawn(env, w, op, now, w'.db, n);
    GoneStep(env, w.db, op, now, w'.db, n);
    PolicyHasNode(env, w'.db, n);
    EpochsStayBound(w, op, w'.db, n);
    if n !in w'.db.policies && !Gone(w'.db, n) { StillNothing(env, w, op, now, w'.db, n); }
  }

  lemma StillNothing(env: Env, w: World, op: Op, now: int, db': Database, n: Id)
    requires Inv(env, w.db) && Inv(env, db') && n !in w.db.policies && n !in db'.policies && w.past == BEGINNING
    ensures Recorded(w.past, w.db, op, db', n) == BEGINNING
  {
    forall k | k in db'.sessions && db'.sessions[k].node == n ensures false {
      SessionNeedsServing(env, db', k);
      ServingHasPolicy(env, db', n);
    }
    if LetGo(w.db, db', n) { NotPendingHasPolicy(env, w.db, n); }
  }

  lemma NotPendingHasPolicy(env: Env, db: Database, n: Id)
    requires Inv(env, db) && n in db.nodes && !db.nodes[n].state.Pending?
    ensures n in db.policies
  {}

  lemma NodeKeepsLinked(env: Env, cfg: P.Config, n: Id, w: World, e: JointEvent, w': World)
    requires Linked(env, w, n) && JointStep(env, cfg, n, w, e, w') && !e.Controller?
    ensures Linked(env, w', n)
  {
    hide Inv, Cache.Save, Cache.Load;
  }

  lemma BeginningLinked(env: Env, n: Id)
    ensures Linked(env, World(EMPTY, FRESH, BEGINNING), n)
  {
    hide Inv;
    EmptyIsSound(env);
  }

  lemma {:induction false} LinkedAlways(env: Env, cfg: P.Config, n: Id, worlds: seq<World>, events: seq<JointEvent>, i: nat)
    requires IsJointRun(env, cfg, n, worlds, events) && i < |worlds|
    ensures Linked(env, worlds[i], n)
    decreases i
  {
    hide JointStep, Cache.Faithful, Linked;
    if i == 0 {
      BeginningLinked(env, n);
    } else {
      LinkedAlways(env, cfg, n, worlds, events, i - 1);
      assert JointAt(env, cfg, n, worlds, events, i - 1);
      if events[i - 1].Controller? {
        ControllerKeepsLinked(env, cfg, n, worlds[i - 1], events[i - 1].op, events[i - 1].now, worlds[i]);
      } else {
        NodeKeepsLinked(env, cfg, n, worlds[i - 1], events[i - 1], worlds[i]);
      }
    }
  }

  // The joint run is a run of the protocol.

  lemma AcksGrow(sent: set<Sent>, m: Sent, minted: map<string, nat>)
    requires m.token in minted
    ensures Acks(sent + {m}, minted) == Acks(sent, minted) + {P.AckMessage(minted[m.token], m.revision, m.applied)}
  {
    var more := Acks(sent + {m}, minted);
    assert m in sent + {m};
    forall a | a in Acks(sent, minted) ensures a in more {
      var k :| k in sent && k.token in minted && a == P.AckMessage(minted[k.token], k.revision, k.applied);
      assert k in sent + {m};
    }
  }

  lemma AcksStay(sent: set<Sent>, minted: map<string, nat>, minted': map<string, nat>)
    requires forall m :: m in sent ==> m.token in minted
    requires forall k :: k in minted ==> k in minted' && minted'[k] == minted[k]
    ensures Acks(sent, minted') == Acks(sent, minted)
  {}

  /** A transaction of the controller, seen from one node, is one step of the protocol or none. */
  lemma ControllerProjects(env: Env, cfg: P.Config, n: Id, w: World, op: Op, now: int, w': World) returns (step: Option<P.Step>)
    requires Linked(env, w, n) && Linked(env, w', n) && JointStep(env, cfg, n, w, Controller(op, now), w')
    requires n in w.db.policies && n in w'.db.policies && cfg.clusterId == env.clusterId && cfg.nodeId == n
    ensures Published(w, n) && Published(w', n)
    ensures if step.None? then SystemOf(w', n) == SystemOf(w, n) else P.Moves(cfg, SystemOf(w, n), step.value, SystemOf(w', n))
  {
    hide Inv, Step, LetGo, Authenticates, AckedRow, SessionsKnown, WellFormedAck;
    StepProjects(env, w.db, op, now, w'.db, n);
    MintedDrawn(env, w, op, now, w'.db, n);
    AcksStay(w.node.sent, w.past.minted, w'.past.minted);
    var r, r' := RowOf(w.db.policies[n]), RowOf(w'.db.policies[n]);
    if LetGo(w.db, w'.db, n) {
      step := Some(P.Release(r'));
    } else if r' == r {
      step := None;
    } else if P.Publishes(r, r') {
      step := Some(P.Publish(r'));
    } else {
      var a := P.AckMessage(w.past.epoch, op.node.ack.revision, op.node.ack.state.AckApplied?);
      SentIsAck(w, op, now, n);
      assert a in Acks(w.node.sent, w.past.minted);
      step := Some(P.AckArrives(a));
    }
  }

  /** An acknowledgement the controller accepts was sent under the present registration. */
  lemma SentIsAck(w: World, op: Op, now: int, n: Id)
    requires SessionsKnown(w.db, w.past, n) && AckBy(w.db, op, now, n)
    requires Sent(op.node.token, op.node.ack.revision, op.node.ack.state.AckApplied?) in w.node.sent
    ensures P.AckMessage(w.past.epoch, op.node.ack.revision, op.node.ack.state.AckApplied?) in Acks(w.node.sent, w.past.minted)
  {
    hide AckedRow, WellFormedAck;
  }

  lemma NodeProjects(env: Env, cfg: P.Config, n: Id, w: World, e: JointEvent, w': World) returns (step: Option<P.Step>)
    requires Linked(env, w, n) && JointStep(env, cfg, n, w, e, w') && !e.Controller?
    requires Published(w, n)
    ensures Published(w', n)
    ensures if step.None? then SystemOf(w', n) == SystemOf(w, n) else P.Moves(cfg, SystemOf(w, n), step.value, SystemOf(w', n))
  {
    hide Inv, Cache.Save, Cache.Load, SessionsKnown;
    match e
    case Enrolled(token) => step := Some(P.Enroll(w.past.minted[token]));
    case Renewed(_) => step := None;
    case Node(move) =>
      step := Some(move);
      if move.SendReceived? || move.SendApplied? {
        AcksGrow(w.node.sent, Sent(w.node.token, w.node.work.p.revision, move.SendApplied?), w.past.minted);
      }
  }

  lemma BeforeFirst(env: Env, w: World, op: Op, now: int, w': World, cfg: P.Config, n: Id)
    requires Linked(env, w, n) && Linked(env, w', n) && JointStep(env, cfg, n, w, Controller(op, now), w')
    requires n !in w.db.policies && n in w'.db.policies && cfg.clusterId == env.clusterId && cfg.nodeId == n
    ensures Published(w', n) && P.Initial(cfg, SystemOf(w', n))
  {
    hide Inv, Step, SessionsKnown;
    FirstPolicy(env, w.db, op, now, w'.db, n);
    BodiesPresent(env, w'.db, n);
    GoneStep(env, w.db, op, now, w'.db, n);
    PolicyHasNode(env, w'.db, n);
    assert Acks({}, w'.past.minted) == {};
  }

  lemma ProtocolGrows(cfg: P.Config, systems: seq<P.System>, steps: seq<P.Step>, step: P.Step, s: P.System)
    requires P.IsSystemRun(cfg, systems, steps) && P.Moves(cfg, systems[|systems| - 1], step, s)
    ensures P.IsSystemRun(cfg, systems + [s], steps + [step])
  {
    hide P.Moves, P.Initial, Cache.Faithful;
    var systems', steps' := systems + [s], steps + [step];
    forall i | 0 <= i < |steps'| ensures P.MovesAt(cfg, systems', steps', i) {
      if i < |steps| { assert P.MovesAt(cfg, systems, steps, i); }
    }
  }

  lemma EventProjects(env: Env, cfg: P.Config, n: Id, w: World, e: JointEvent, w': World) returns (step: Option<P.Step>)
    requires Linked(env, w, n) && Linked(env, w', n) && JointStep(env, cfg, n, w, e, w')
    requires n in w.db.policies && n in w'.db.policies && cfg.clusterId == env.clusterId && cfg.nodeId == n
    ensures Published(w, n) && Published(w', n)
    ensures if step.None? then SystemOf(w', n) == SystemOf(w, n) else P.Moves(cfg, SystemOf(w, n), step.value, SystemOf(w', n))
  {
    hide Inv, JointStep, P.Moves, SystemOf, SessionsKnown, TokensKnown, NotYet;
    if e.Controller? {
      step := ControllerProjects(env, cfg, n, w, e.op, e.now, w');
    } else {
      BodiesPresent(env, w.db, n);
      step := NodeProjects(env, cfg, n, w, e, w');
    }
  }

  lemma OnlyControllerPublishes(env: Env, cfg: P.Config, n: Id, w: World, e: JointEvent, w': World)
    requires JointStep(env, cfg, n, w, e, w') && n !in w.db.policies && n in w'.db.policies
    ensures e.Controller?
  {
    hide Step, P.Moves;
  }

  /** From its first policy on, what a node and the controller do together is a run of the policy protocol on the
      row that the database really holds. */
  lemma {:induction false} JointIsProtocolRun(env: Env, cfg: P.Config, n: Id, worlds: seq<World>, events: seq<JointEvent>, i: nat)
      returns (systems: seq<P.System>, steps: seq<P.Step>)
    requires IsJointRun(env, cfg, n, worlds, events) && i < |worlds| && n in worlds[i].db.policies
    ensures Published(worlds[i], n) && P.IsSystemRun(cfg, systems, steps)
    ensures systems != [] && systems[|systems| - 1] == SystemOf(worlds[i], n)
    decreases i
  {
    hide JointStep, P.Moves, P.Initial, Cache.Faithful, Linked, SystemOf;
    assert i > 0;
    var w, e, w' := worlds[i - 1], events[i - 1], worlds[i];
    assert JointAt(env, cfg, n, worlds, events, i - 1);
    LinkedAlways(env, cfg, n, worlds, events, i - 1);
    LinkedAlways(env, cfg, n, worlds, events, i);
    if n !in w.db.policies {
      OnlyControllerPublishes(env, cfg, n, w, e, w');
      BeforeFirst(env, w, e.op, e.now, w', cfg, n);
      systems, steps := [SystemOf(w', n)], [];
    } else {
      systems, steps := JointIsProtocolRun(env, cfg, n, worlds, events, i - 1);
      var step := EventProjects(env, cfg, n, w, e, w');
      if step.Some? {
        ProtocolGrows(cfg, systems, steps, step.value, SystemOf(w', n));
        systems, steps := systems + [SystemOf(w', n)], steps + [step.value];
      }
    }
  }

  // What that means for the stored row.

  /** While a node holds its current registration, the row in the database, the node's mark on disk and the
      revision that is desired are in order. */
  lemma StoredRowInOrder(env: Env, cfg: P.Config, n: Id, worlds: seq<World>, events: seq<JointEvent>, i: nat)
    requires IsJointRun(env, cfg, n, worlds, events) && i < |worlds| && n in worlds[i].db.policies
    requires worlds[i].node.held == Some(worlds[i].past.epoch)
    ensures var row := worlds[i].db.policies[n];
            0 <= row.applied <= row.received <= P.Mark(worlds[i].node.disk) <= row.desired
  {
    hide IsJointRun, P.IsSystemRun;
    var systems, steps := JointIsProtocolRun(env, cfg, n, worlds, events, i);
    P.OrderAcrossMachines(cfg, systems, steps, |systems| - 1);
  }

  /** A received revision in the database is on the node's disk, and an applied one was answered by the relay child. */
  lemma StoredRecordsAreTrue(env: Env, cfg: P.Config, n: Id, worlds: seq<World>, events: seq<JointEvent>, i: nat)
    requires IsJointRun(env, cfg, n, worlds, events) && i < |worlds| && n in worlds[i].db.policies
    requires worlds[i].node.held == Some(worlds[i].past.epoch)
    ensures var row, mark := worlds[i].db.policies[n], worlds[i].node.disk.watermark;
            && (row.received > 0 ==> mark.Good? && mark.value.revision >= row.received)
            && (row.applied > 0 ==> row.applied in worlds[i].node.confirmed)
  {
    hide IsJointRun, P.IsSystemRun;
    var systems, steps := JointIsProtocolRun(env, cfg, n, worlds, events, i);
    P.RecordsAreTrue(cfg, systems, steps, |systems| - 1);
  }

  /** In every interleaving, the revisions the relay child is told never decrease until the node leaves. */
  lemma ToldNeverFalls(env: Env, cfg: P.Config, n: Id, worlds: seq<World>, events: seq<JointEvent>, i: nat)
    requires IsJointRun(env, cfg, n, worlds, events) && i < |worlds| && n in worlds[i].db.policies
    ensures forall a, b :: 0 <= a < b < |worlds[i].node.handed| ==> worlds[i].node.handed[a] <= worlds[i].node.handed[b]
  {
    hide IsJointRun, P.IsSystemRun;
    var systems, steps := JointIsProtocolRun(env, cfg, n, worlds, events, i);
    P.NoResurrection(cfg, systems, steps, |systems| - 1);
  }

  /** What the node can load from its cache is a body that the controller stored for it at that revision. */
  lemma LoadedWasStored(env: Env, cfg: P.Config, n: Id, worlds: seq<World>, events: seq<JointEvent>, i: nat, now: int, f: Cache.Fate)
    requires IsJointRun(env, cfg, n, worlds, events) && i < |worlds| && n in worlds[i].db.policies
    requires Cache.Load(cfg.codec, worlds[i].node.disk, cfg.clusterId, cfg.nodeId, now, f).policy.Some?
    ensures P.IsPublished(worlds[i].past.bodies, Cache.Load(cfg.codec, worlds[i].node.disk, cfg.clusterId, cfg.nodeId, now, f).policy.value)
  {
    hide IsJointRun, P.IsSystemRun, Cache.Load;
    var systems, steps := JointIsProtocolRun(env, cfg, n, worlds, events, i);
    P.LoadedWasPublished(cfg, systems, steps, |systems| - 1, now, f);
  }

  /** When a node with an open stream is deleted or moved, and the machine still holds that registration, the last
      policy its relay child was told is the stored one, and that one admits nobody. */
  lemma RemovedNodeIsEmpty(env: Env, cfg: P.Config, n: Id, worlds: seq<World>, events: seq<JointEvent>, i: nat)
    requires IsJointRun(env, cfg, n, worlds, events) && i < |events| && events[i].Controller?
    requires Commits(env, worlds[i].db, events[i].op, events[i].now, worlds[i + 1].db) && RemovesConnected(events[i].op, n)
    requires n in worlds[i].db.nodes && !worlds[i].db.nodes[n].state.Pending?
    requires worlds[i].node.held == Some(worlds[i].past.epoch)
    ensures Published(worlds[i], n)
    ensures var told, row := worlds[i].node.handed, worlds[i].db.policies[n];
            told != [] && told[|told| - 1] == row.desired == row.body.value.revision && row.body.value.grants == []
  {
    hide JointAt, Cache.Faithful, P.IsSystemRun, Statements, View, ValidPolicy, SessionsKnown, TokensKnown, NotYet;
    LinkedAlways(env, cfg, n, worlds, events, i);
    NotPendingHasPolicy(env, worlds[i].db, n);
    RemovalGuards(env, worlds[i].db, events[i].op, events[i].now, n);
    EmptiedPolicy(env, worlds[i].db, n);
    var systems, steps := JointIsProtocolRun(env, cfg, n, worlds, events, i);
    P.AppliedIsLastTold(cfg, systems, steps, |systems| - 1);
  }

  lemma EmptiedPolicy(env: Env, db: Database, n: Id)
    requires Inv(env, db) && n in db.policies && n in db.nodes && !db.nodes[n].enabled
    ensures db.policies[n].body.Some? && db.policies[n].body.value.grants == [] && db.policies[n].body.value.revision == db.policies[n].desired
  {
    hide TablesSound, View, ValidPolicy;
    IdleView(db, n);
    assert Materialised(env, db, n);
  }
}
