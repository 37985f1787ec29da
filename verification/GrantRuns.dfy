/** Sharing grants over whole runs: consent by both sides, and optimistic concurrency. */
module GrantRuns {
  import opened Ids
  import opened Tables
  import opened PolicyView
  import opened AccountTx
  import opened GrantTx
  import opened NodeTx
  import opened Transactions
  import opened Invariants
  import opened Effects
  import opened Runs
  import opened Meaning

  lemma GrantStepOf(env: Env, db: Database, op: Op, now: int, db': Database, p: Pair)
    requires Step(env, db, op, now, db') && p in db'.grants
    ensures (db' == db && p in db.grants) || (Commits(env, db, op, now, db') && GrantFate(db, op, now, db', p))
  {
    hide Statements, Commits, Legitimate, GrantFate;
    StepOutcome(env, db, op, now, db');
    if db' != db { GrantCommit(env, db, op, now, db', p); }
  }

  lemma GrantCommit(env: Env, db: Database, op: Op, now: int, db': Database, p: Pair)
    requires Commits(env, db, op, now, db') && p in db'.grants
    ensures GrantFate(db, op, now, db', p)
  {
    hide Statements, Rebuild, GrantFate;
    CommitShape(env, db, op, now, db');
    GrantsOf(env, db, op, now, p);
    FateFrame(db, op, now, Statements(env, db, op, now).db, db', p);
  }

  lemma FateFrame(db: Database, op: Op, now: int, mid: Database, db': Database, p: Pair)
    requires mid.grants == db'.grants && mid.nodes == db'.nodes && p in mid.grants && GrantFate(db, op, now, mid, p)
    ensures GrantFate(db, op, now, db', p)
  {
    hide Authenticates, ActiveActor, RequireOwner, DerivedState;
  }

  // Two-party consent.

  /** Step `k` is a request for `p`, authorised for the tailnet's owner, that wrote revision `revision`. */
  ghost predicate AskedAt(env: Env, states: seq<Database>, events: seq<Event>, k: nat, p: Pair, revision: int)
    requires k < |events| && k + 1 < |states|
  {
    && CommitAt(env, states, events, k) && Asked(states[k], events[k].op, events[k].now, states[k + 1], p)
    && states[k + 1].grants[p].revision == revision
  }

  /** Step `k` is action `a` on the grant of `p`, authorised for the owner that `a` belongs to at that time. */
  ghost predicate ActedAt(env: Env, states: seq<Database>, events: seq<Event>, k: nat, p: Pair, a: Action, revision: int)
    requires k < |events| && k + 1 < |states|
  {
    && CommitAt(env, states, events, k) && Acted(states[k], events[k].op, events[k].now, states[k + 1], p)
    && events[k].op.grant.action == a && states[k + 1].grants[p].revision == revision
  }

  /** Giving up a registration revokes the node's grants, so a live grant is newer. */
  lemma LiveGrantKept(env: Env, states: seq<Database>, events: seq<Event>, i: nat, p: Pair)
    requires IsRun(env, states, events) && 0 < i < |states| && p in states[i].grants && Live(states[i].grants[p].state)
    ensures !LetGo(states[i - 1], states[i], p.node)
  {
    hide IsRun, References, TokensDrawn, SharingSound, Stored;
    InvAlways(env, states, events, i);
  }

  /** Where a grant that is requested was requested. */
  lemma {:induction false} RequestOf(env: Env, states: seq<Database>, events: seq<Event>, i: nat, p: Pair) returns (r: nat)
    requires IsRun(env, states, events) && i < |states| && p in states[i].grants && states[i].grants[p].state.Requested?
    ensures r < i && AskedAt(env, states, events, r, p, states[i].grants[p].revision) && SameRegistration(states, r, i, p.node)
    decreases i
  {
    hide Step, Commits, Authenticates, ActiveActor, RequireOwner, LetGo;
    assert i > 0;
    assert StepAt(env, states, events, i - 1);
    LiveGrantKept(env, states, events, i, p);
    GrantStepOf(env, states[i - 1], events[i - 1].op, events[i - 1].now, states[i], p);
    if p in states[i - 1].grants && states[i - 1].grants[p] == states[i].grants[p] {
      r := RequestOf(env, states, events, i - 1, p);
    } else {
      r := i - 1;
    }
  }

  /** Where a grant that the node's side approved was requested and approved. */
  lemma {:induction false} ApprovalOf(env: Env, states: seq<Database>, events: seq<Event>, i: nat, p: Pair) returns (r: nat, a: nat)
    requires IsRun(env, states, events) && i < |states| && p in states[i].grants && states[i].grants[p].state.OwnerApproved?
    ensures r < a < i && SameRegistration(states, r, i, p.node)
    ensures AskedAt(env, states, events, r, p, states[i].grants[p].revision - 1)
    ensures ActedAt(env, states, events, a, p, Approve, states[i].grants[p].revision)
    decreases i
  {
    hide Step, Commits, Authenticates, ActiveActor, RequireOwner, LetGo;
    assert i > 0;
    assert StepAt(env, states, events, i - 1);
    LiveGrantKept(env, states, events, i, p);
    GrantStepOf(env, states[i - 1], events[i - 1].op, events[i - 1].now, states[i], p);
    if p in states[i - 1].grants && states[i - 1].grants[p] == states[i].grants[p] {
      r, a := ApprovalOf(env, states, events, i - 1, p);
    } else {
      r := RequestOf(env, states, events, i - 1, p);
      a := i - 1;
    }
  }

  /** The consent behind revision `revision` of the grant of `p`: one request while both sides had
      one owner, or a request, an approval for the node's owner and a confirmation for the
      tailnet's owner, in this order and as consecutive revisions. Either way the node has not
      given up its registration since the request. */
  ghost predicate Consented(env: Env, states: seq<Database>, events: seq<Event>, i: nat, p: Pair, revision: int, r: nat, a: nat, c: nat)
    requires |states| == |events| + 1 && i < |states|
  {
    && r < i && SameRegistration(states, r, i, p.node)
    && (|| (AskedAt(env, states, events, r, p, revision) && states[r].nodes[p.node].owner == states[r].tailnets[p.tailnet].owner
            && ActsFor(states[r], events[r].op.grant.actor, states[r].tailnets[p.tailnet].owner))
        || (r < a < c < i && AskedAt(env, states, events, r, p, revision - 2)
            && ActedAt(env, states, events, a, p, Approve, revision - 1) && ActedAt(env, states, events, c, p, Confirm, revision)
            && ActsFor(states[r], events[r].op.grant.actor, states[r].tailnets[p.tailnet].owner)
            && ActsFor(states[a], events[a].op.grant.actor, states[a].nodes[p.node].owner)
            && ActsFor(states[c], events[c].op.grant.actor, states[c].tailnets[p.tailnet].owner)))
  }

  /** In every state of every run, an active grant has consent in its present round. */
  lemma {:induction false} ActiveIsConsented(env: Env, states: seq<Database>, events: seq<Event>, i: nat, p: Pair) returns (r: nat, a: nat, c: nat)
    requires IsRun(env, states, events) && i < |states| && p in states[i].grants && states[i].grants[p].state.Active?
    ensures Consented(env, states, events, i, p, states[i].grants[p].revision, r, a, c)
    decreases i
  {
    hide Step, Commits, Authenticates, ActsFor, MayAct, NodeOn, TailnetOn, Lapsed, LetGo;
    assert i > 0;
    r, a, c := i - 1, 0, i - 1;
    assert StepAt(env, states, events, i - 1);
    LiveGrantKept(env, states, events, i, p);
    GrantStepOf(env, states[i - 1], events[i - 1].op, events[i - 1].now, states[i], p);
    if Asked(states[i - 1], events[i - 1].op, events[i - 1].now, states[i], p) && states[i] != states[i - 1] {
    } else if p in states[i - 1].grants && states[i - 1].grants[p].state.Active? && states[i - 1].grants[p].revision == states[i].grants[p].revision {
      r, a, c := ActiveIsConsented(env, states, events, i - 1, p);
    } else {
      r, a := ApprovalOf(env, states, events, i - 1, p);
      c := i - 1;
      SideOf(states[a], events[a].op.grant.actor, Approve, p);
      SideOf(states[c], events[c].op.grant.actor, Confirm, p);
    }
  }

  lemma SideOf(db: Database, actor: Actor, a: Action, p: Pair)
    requires MayAct(db, actor, a, p)
    ensures p.node in db.nodes && p.tailnet in db.tailnets
    ensures ActsFor(db, actor, if a == Approve || a == Reject || a == Revoke then db.nodes[p.node].owner else db.tailnets[p.tailnet].owner)
  {
    hide Known, Speaks;
  }

  // Optimistic concurrency.

  /** A write of the grant states the revision it saw, and is the only one that does. */
  ghost predicate WritesGrant(env: Env, states: seq<Database>, events: seq<Event>, k: nat, p: Pair, expected: int)
    requires k < |events| && k + 1 < |states|
  {
    && CommitAt(env, states, events, k) && events[k].op.OnGrant?
    && (|| (Asked(states[k], events[k].op, events[k].now, states[k + 1], p) && events[k].op.grant.expected == expected)
        || (Acted(states[k], events[k].op, events[k].now, states[k + 1], p) && events[k].op.grant.expected == expected))
  }

  predicate TailnetGone(db: Database, t: Id) { t in db.drawn && t !in db.tailnets }

  lemma GoneTailnetCommit(env: Env, db: Database, op: Op, now: int, db': Database, p: Pair)
    requires Inv(env, db) && Legitimate(db, op, now) && Commits(env, db, op, now, db')
    ensures TailnetGone(db, p.tailnet) ==> TailnetGone(db', p.tailnet)
    ensures p in db.grants ==> p in db'.grants || Gone(db', p.node) || TailnetGone(db', p.tailnet)
  {
    hide Statements, Rebuild, Legitimate, NodesSound, SharingSound, Stored;
    CommitShape(env, db, op, now, db');
    GrantKeysOf(env, db, op, now, p);
  }

  lemma GrantKeysOf(env: Env, db: Database, op: Op, now: int, p: Pair)
    requires Legitimate(db, op, now)
    ensures var tx := Statements(env, db, op, now);
            tx.Commit? ==>
              && db.drawn <= tx.db.drawn
              && (p in db.grants ==> p in tx.db.grants || p.node !in tx.db.nodes || p.tailnet !in tx.db.tailnets)
              && (p.tailnet in tx.db.tailnets && p.tailnet !in db.tailnets ==> p.tailnet !in db.drawn)
  {
    hide AccountStatements, GrantStatements, NodeStatements, IsToken;
    if op.OnAccount? && op.account.OpAddTailnet? { assert op.account.id in Draws(op); }
  }

  lemma GrantKeyStep(env: Env, db: Database, op: Op, now: int, db': Database, p: Pair)
    requires Inv(env, db) && Step(env, db, op, now, db')
    ensures Gone(db, p.node) ==> Gone(db', p.node)
    ensures TailnetGone(db, p.tailnet) ==> TailnetGone(db', p.tailnet)
    ensures p in db.grants ==> p in db'.grants || Gone(db', p.node) || TailnetGone(db', p.tailnet)
  {
    hide Inv, Statements, Commits, Legitimate;
    GoneStep(env, db, op, now, db', p.node);
    StepOutcome(env, db, op, now, db');
    if db' != db { GoneTailnetCommit(env, db, op, now, db', p); }
  }

  lemma {:induction false} GrantLives(env: Env, states: seq<Database>, events: seq<Event>, i: nat, k: nat, p: Pair)
    requires IsRun(env, states, events) && i <= k < |states| && p in states[i].grants
    ensures p in states[k].grants || Gone(states[k], p.node) || TailnetGone(states[k], p.tailnet)
    decreases k - i
  {
    hide Step, Inv;
    if i < k {
      GrantLives(env, states, events, i, k - 1, p);
      InvAlways(env, states, events, k - 1);
      assert StepAt(env, states, events, k - 1);
      GrantKeyStep(env, states[k - 1], events[k - 1].op, events[k - 1].now, states[k], p);
    }
  }

  lemma GrantHasEnds(env: Env, db: Database, p: Pair)
    requires Inv(env, db)
    ensures p in db.grants ==> p.node in db.nodes && p.tailnet in db.tailnets
  {}

  /** A step leaves a grant's state, deadline and id alone, or raises its revision by exactly one. */
  lemma GrantRevisionStep(env: Env, db: Database, op: Op, now: int, db': Database, p: Pair)
    requires Step(env, db, op, now, db') && p in db.grants && p in db'.grants
    ensures db'.grants[p].id == db.grants[p].id
    ensures || db'.grants[p].revision == db.grants[p].revision + 1
            || (db'.grants[p].revision == db.grants[p].revision && db'.grants[p] == db.grants[p].(lastControl := db'.grants[p].lastControl))
  {
    hide Step, Commits, Authenticates, ActiveActor, RequireOwner, LetGo;
    GrantStepOf(env, db, op, now, db', p);
  }

  /** Over a run a grant's revision never falls, and one revision never names two states or deadlines. */
  lemma {:induction false} GrantRevisionNamesOneState(env: Env, states: seq<Database>, events: seq<Event>, i: nat, j: nat, p: Pair)
    requires IsRun(env, states, events) && i <= j < |states| && p in states[i].grants && p in states[j].grants
    ensures states[i].grants[p].id == states[j].grants[p].id && states[i].grants[p].revision <= states[j].grants[p].revision
    ensures states[i].grants[p].revision == states[j].grants[p].revision ==>
              states[i].grants[p].state == states[j].grants[p].state && states[i].grants[p].explicitUntil == states[j].grants[p].explicitUntil
    decreases j - i
  {
    hide Step, Inv;
    if i < j {
      InvAlways(env, states, events, j - 1);
      InvAlways(env, states, events, j);
      assert StepAt(env, states, events, j - 1);
      GrantLives(env, states, events, i, j - 1, p);
      GrantKeyStep(env, states[j - 1], events[j - 1].op, events[j - 1].now, states[j], p);
      GrantHasEnds(env, states[j], p);
      GrantRevisionNamesOneState(env, states, events, i, j - 1, p);
      GrantRevisionStep(env, states[j - 1], events[j - 1].op, events[j - 1].now, states[j], p);
    }
  }

  lemma WriteRaises(env: Env, states: seq<Database>, events: seq<Event>, k: nat, p: Pair, expected: int)
    requires |states| == |events| + 1 && k < |events| && WritesGrant(env, states, events, k, p, expected)
    ensures p in states[k + 1].grants && states[k + 1].grants[p].revision == expected + 1
    ensures p.node in states[k].nodes && p.tailnet in states[k].tailnets
    ensures if p in states[k].grants then states[k].grants[p].revision == expected else expected == 0
  {
    hide Commits, ActiveActor, RequireOwner, DerivedState;
  }

  /** Of any number of requests and actions on a grant that expect one revision, at most one takes effect. */
  lemma OneWriterPerRevision(env: Env, states: seq<Database>, events: seq<Event>, i: nat, j: nat, p: Pair, expected: int, expected': int)
    requires IsRun(env, states, events) && i < j < |events|
    requires WritesGrant(env, states, events, i, p, expected) && WritesGrant(env, states, events, j, p, expected')
    ensures expected < expected'
  {
    hide Step, WritesGrant;
    WriteRaises(env, states, events, i, p, expected);
    WriteRaises(env, states, events, j, p, expected');
    GrantLives(env, states, events, i + 1, j, p);
    GrantRevisionNamesOneState(env, states, events, i + 1, j, p);
  }

  lemma OneGrantPerId(db: Database, id: Id, p: Pair, q: Pair)
    requires GrantsSound(db.grants) && HasGrant(db, id, p) && HasGrant(db, id, q)
    ensures p == q
  {}

  /** Repeating an action that took effect returns the same grant and writes nothing, for as long
      as nothing else changed the grant and the actor keeps its authority. */
  lemma RetryChangesNothing(env: Env, states: seq<Database>, events: seq<Event>, k: nat, j: nat, p: Pair, a: Action, now: int)
    requires IsRun(env, states, events) && k < j < |states| && p in states[k + 1].grants && p in states[j].grants
    requires ActedAt(env, states, events, k, p, a, states[j].grants[p].revision)
    requires DerivedState(states[j].grants[p], now) == states[j].grants[p].state
    requires p.node in states[j].nodes && p.tailnet in states[j].tailnets
    requires MayAct(states[j], events[k].op.grant.actor, a, p)
    ensures var o := events[k].op.grant;
            ApplyGrantAction(states[j], o.actor, o.grantId, o.expected, a, now) == Keep
  {
    hide Step, Commits, ActiveActor, RequireOwner, TokensDrawn, NodesSound, Stored, References, Known, Speaks, MayAct;
    InvAlways(env, states, events, j);
    Actions(states[j], events[k].op.grant.actor, a, p, now);
    GrantRevisionNamesOneState(env, states, events, k + 1, j, p);
    var o, db := events[k].op.grant, states[j];
    assert HasGrant(db, o.grantId, p);
    var q :| HasGrant(db, o.grantId, q) && ApplyGrantAction(db, o.actor, o.grantId, o.expected, a, now) == ActOnPair(db, o.actor, q, o.expected, a, now);
    OneGrantPerId(db, o.grantId, p, q);
  }

  /** Step `k` moves the grant on, by whatever operation. */
  ghost predicate MovesOn(states: seq<Database>, k: nat, p: Pair)
    requires k + 1 < |states|
  {
    p in states[k].grants && p in states[k + 1].grants && states[k + 1].grants[p].revision != states[k].grants[p].revision
  }

  /** Two moves since a revision was read put the grant at least two revisions on. */
  lemma TwoMovesSince(env: Env, states: seq<Database>, events: seq<Event>, i: nat, k: nat, l: nat, j: nat, p: Pair)
    requires IsRun(env, states, events) && i <= k < l < j < |states| && p in states[i].grants && p in states[j].grants
    requires MovesOn(states, k, p) && MovesOn(states, l, p)
    ensures states[j].grants[p].revision >= states[i].grants[p].revision + 2 && states[j].grants[p].id == states[i].grants[p].id
  {
    hide Step;
    assert StepAt(env, states, events, k) && StepAt(env, states, events, l);
    GrantRevisionNamesOneState(env, states, events, i, k, p);
    GrantRevisionStep(env, states[k], events[k].op, events[k].now, states[k + 1], p);
    GrantRevisionNamesOneState(env, states, events, k + 1, l, p);
    GrantRevisionStep(env, states[l], events[l].op, events[l].now, states[l + 1], p);
    GrantRevisionNamesOneState(env, states, events, l + 1, j, p);
  }

  /** An action that was prepared when the grant was at some revision, and arrives after two or more moves, is
      refused whoever sends it and whatever it asks for. */
  lemma StaleActionNeverLands(env: Env, states: seq<Database>, events: seq<Event>, i: nat, k: nat, l: nat, j: nat, p: Pair,
                              actor: Actor, expected: nat, a: Action, now: int)
    requires IsRun(env, states, events) && i <= k < l < j < |states| && p in states[i].grants && p in states[j].grants
    requires MovesOn(states, k, p) && MovesOn(states, l, p) && expected == states[i].grants[p].revision
    ensures ApplyGrantAction(states[j], actor, states[i].grants[p].id, expected, a, now).Abort?
  {
    hide Step, MovesOn, ActiveActor, RequireOwner, ResourcesEnabled, DerivedState;
    TwoMovesSince(env, states, events, i, k, l, j, p);
    InvAlways(env, states, events, j);
    StaleRefused(env, states[j], actor, p, expected, a, now);
  }

  lemma StaleRefused(env: Env, db: Database, actor: Actor, p: Pair, expected: nat, a: Action, now: int)
    requires Inv(env, db) && p in db.grants && expected + 2 <= db.grants[p].revision
    ensures ApplyGrantAction(db, actor, db.grants[p].id, expected, a, now).Abort?
  {
    hide Stored, TokensDrawn, NodesSound, ActiveActor, RequireOwner, ResourcesEnabled, DerivedState;
    var id := db.grants[p].id;
    forall q | HasGrant(db, id, q) ensures ActOnPair(db, actor, q, expected, a, now).Abort? {
      assert HasGrant(db, id, p);
      OneGrantPerId(db, id, p, q);
    }
  }

  /** The same for a request: it neither opens a round nor passes as a repetition. */
  lemma StaleRequestNeverLands(env: Env, states: seq<Database>, events: seq<Event>, i: nat, k: nat, l: nat, j: nat, p: Pair,
                               actor: Actor, expected: nat, until: int, id: Id, now: int)
    requires IsRun(env, states, events) && i <= k < l < j < |states| && p in states[i].grants && p in states[j].grants
    requires MovesOn(states, k, p) && MovesOn(states, l, p) && expected == states[i].grants[p].revision
    ensures RequestGrant(states[j], actor, p, expected, until, id, now).Abort?
  {
    hide Step, MovesOn, ActiveActor, RequireOwner, ResourcesEnabled, DerivedState;
    TwoMovesSince(env, states, events, i, k, l, j, p);
  }
}
