/** The control stream over a run of the database: the transactions are the commits that the stream protocol
    reacts to, so what a quiet stream sent last is the revision that the database stores. */
module StreamRuns {
  import opened Ids
  import opened Tables
  import opened PolicyView
  import opened Transactions
  import opened Invariants
  import opened Steps
  import opened Effects
  import opened Runs
  import opened Projection
  import opened Notices
  import W = WakeUps

  /** The database, and the streams of one node. */
  datatype State = State(db: Database, hub: W.Hub)

  const CLOSED := W.Hub(0, 0, 0, map[], None)

  datatype StreamEvent = Transaction(op: Op, now: int) | Stream(move: W.Move)

  function StoredRevision(db: Database, n: Id): int { if n in db.policies then db.policies[n].desired else 0 }

  /** After a transaction the streams are as they were, but the notification it announces is owed. */
  function Owed(hub: W.Hub, notice: Notice, n: Id, committed: int): W.Hub {
    hub.(committed := committed,
         wakes := hub.wakes + if notice.WakesAll? || notice == Wakes(n) then 1 else 0,
         closes := hub.closes + if notice == Closes(n) then 1 else 0)
  }

  /** A transaction that takes effect owes its notification; one that changes nothing may have been rolled back and
      owe none. The handlers move by themselves while the node has a policy. */
  ghost predicate StreamStep(env: Env, n: Id, s: State, e: StreamEvent, s': State) {
    match e
    case Transaction(op, now) =>
      && Step(env, s.db, op, now, s'.db)
      && ((s'.db == s.db && s'.hub == s.hub)
          || s'.hub == Owed(s.hub, if n in s.db.policies then NoticeOf(s.db, op, now) else Silent, n, StoredRevision(s'.db, n)))
    case Stream(move) =>
      s'.db == s.db && n in s.db.policies && !move.Commit? && !move.CommitRelease? && W.Steps(s.hub, move, s'.hub)
  }

  ghost predicate StreamStepAt(env: Env, n: Id, states: seq<State>, events: seq<StreamEvent>, i: nat)
    requires i < |events| && i + 1 < |states|
  {
    StreamStep(env, n, states[i], events[i], states[i + 1])
  }

  ghost predicate IsStreamRun(env: Env, n: Id, states: seq<State>, events: seq<StreamEvent>) {
    && |states| == |events| + 1 && states[0] == State(EMPTY, CLOSED)
    && forall i :: 0 <= i < |events| ==> StreamStepAt(env, n, states, events, i)
  }

  /** The hub's revision is the stored one, and before the first policy there are no streams. */
  ghost predicate Aligned(env: Env, n: Id, s: State) {
    && Inv(env, s.db)
    && (n in s.db.policies ==> s.hub.committed == s.db.policies[n].desired)
    && (n !in s.db.policies ==> Gone(s.db, n) || s.hub == CLOSED)
  }

  /** What a transaction does is a commit of the stream protocol, or nothing. */
  lemma TransactionMoves(env: Env, n: Id, s: State, op: Op, now: int, s': State) returns (move: Option<W.Move>)
    requires Aligned(env, n, s) && StreamStep(env, n, s, Transaction(op, now), s') && n in s.db.policies && n in s'.db.policies
    ensures s'.hub.committed == s'.db.policies[n].desired
    ensures if move.None? then s'.hub == s.hub else W.Steps(s.hub, move.value, s'.hub)
  {
    hide Inv, Step, NoticeOf, LetGo, View, Commits;
    RevisionStep(env, s.db, op, now, s'.db, n);
    StepKeepsInv(env, s.db, op, now, s'.db);
    BodiesPresent(env, s.db, n);
    BodiesPresent(env, s'.db, n);
    var changes := s'.db.policies[n].desired != s.db.policies[n].desired;
    if changes { ChangesAreAnnounced(env, s.db, op, now, s'.db, n); }
    var notice := NoticeOf(s.db, op, now);
    move := if s'.hub == s.hub then None else if notice == Closes(n) then Some(W.CommitRelease(changes)) else Some(W.Commit(changes));
  }

  lemma StepAligns(env: Env, n: Id, s: State, e: StreamEvent, s': State) returns (move: Option<W.Move>)
    requires Aligned(env, n, s) && StreamStep(env, n, s, e, s')
    ensures Aligned(env, n, s')
    ensures n in s.db.policies && n in s'.db.policies ==> if move.None? then s'.hub == s.hub else W.Steps(s.hub, move.value, s'.hub)
    ensures n !in s.db.policies && n in s'.db.policies ==> s'.hub == CLOSED.(committed := 1)
  {
    hide Inv, Step, NoticeOf;
    move := None;
    match e
    case Transaction(op, now) =>
      StepKeepsInv(env, s.db, op, now, s'.db);
      GoneStep(env, s.db, op, now, s'.db, n);
      PolicyHasNode(env, s'.db, n);
      if n in s'.db.policies {
        if n in s.db.policies {
          move := TransactionMoves(env, n, s, op, now, s');
        } else {
          FirstPolicy(env, s.db, op, now, s'.db, n);
        }
      }
    case Stream(m) =>
      move := Some(m);
  }

  lemma HubGrows(hubs: seq<W.Hub>, moves: seq<W.Move>, move: W.Move, hub: W.Hub)
    requires W.IsHubRun(hubs, moves) && W.Steps(hubs[|hubs| - 1], move, hub)
    ensures W.IsHubRun(hubs + [hub], moves + [move])
  {
    hide W.Steps;
  }

  /** From the node's first policy on, its streams make a run of the stream protocol whose committed revision is
      always the one the database stores. */
  lemma {:induction false} StreamsFollowDatabase(env: Env, n: Id, states: seq<State>, events: seq<StreamEvent>, i: nat)
      returns (hubs: seq<W.Hub>, moves: seq<W.Move>)
    requires IsStreamRun(env, n, states, events) && i < |states|
    ensures Aligned(env, n, states[i])
    ensures n in states[i].db.policies ==> W.IsHubRun(hubs, moves) && hubs != [] && hubs[|hubs| - 1] == states[i].hub
    decreases i
  {
    hide StreamStep, Inv, W.Steps;
    if i == 0 {
      EmptyIsSound(env);
      hubs, moves := [], [];
    } else {
      hubs, moves := StreamsFollowDatabase(env, n, states, events, i - 1);
      assert StreamStepAt(env, n, states, events, i - 1);
      var move := StepAligns(env, n, states[i - 1], events[i - 1], states[i]);
      if n in states[i].db.policies {
        if n !in states[i - 1].db.policies {
          hubs, moves := [states[i].hub], [];
        } else if move.Some? {
          HubGrows(hubs, moves, move.value, states[i].hub);
          hubs, moves := hubs + [states[i].hub], moves + [move.value];
        }
      }
    }
  }

  /** When no notification is outstanding and the registered handler waits with no signal, the last revision it sent
      is the one stored for the node; a handler between reading and sending holds that revision or will read again. */
  lemma QuietStreamIsCurrent(env: Env, n: Id, states: seq<State>, events: seq<StreamEvent>, i: nat)
    requires IsStreamRun(env, n, states, events) && i < |states| && n in states[i].db.policies
    requires states[i].hub.live.Some? && states[i].hub.wakes == 0 && states[i].hub.closes == 0
    ensures states[i].hub.live.value in states[i].hub.handlers
    ensures var c, stored := states[i].hub.handlers[states[i].hub.live.value], states[i].db.policies[n].desired;
            && !c.done
            && ((c.place.FirstWrite? || c.place.ReWrite?) && !c.full ==> c.place.read == stored)
            && (c.place.Waiting? && !c.full ==> c.sent != [] && c.sent[|c.sent| - 1] == stored)
  {
    hide IsStreamRun, Inv, W.IsHubRun;
    var hubs, moves := StreamsFollowDatabase(env, n, states, events, i);
    W.NoLostWakeUp(hubs, moves, |hubs| - 1);
  }
}
