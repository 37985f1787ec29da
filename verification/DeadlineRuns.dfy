/** Deadlines over whole runs: an admission is prolonged only by an identity listing, a
    heartbeat or a new activation, never by pausing, resuming, rebuilding or editing. */
module DeadlineRuns {
  import opened Ids
  import opened Protocol
  import opened Identity
  import opened Tables
  import opened PolicyView
  import opened NodeTx
  import opened Transactions
  import opened Invariants
  import opened Effects
  import opened IdentityEffects
  import opened Runs
  import opened GrantRuns
  import opened IdentityRuns
  import opened Admission

  /** Step `m` may move a deadline of the grant of `p`: it publishes the tailnet's identity, is a
      heartbeat of the node, requests or confirms this grant, or changes the retentions. */
  ghost predicate Renews(env: Env, states: seq<Database>, events: seq<Event>, m: nat, p: Pair)
    requires m < |events| && m + 1 < |states|
  {
    var db, op, now := states[m], events[m].op, events[m].now;
    && CommitAt(env, states, events, m)
    && (|| Publishes(op, p.tailnet)
        || (op.OnNode? && op.node.OpHeartbeat? && Authenticates(db, op.node.token, p.node, now))
        || (op.OnGrant? && op.grant.OpRequestGrant? && op.grant.pair == p)
        || (Acted(db, op, now, states[m + 1], p) && op.grant.action.Confirm?)
        || (op.OnAccount? && op.account.OpSetRetentions?))
  }

  ghost predicate Undisturbed(env: Env, states: seq<Database>, events: seq<Event>, i: nat, j: nat, p: Pair)
    requires |states| == |events| + 1 && i <= j < |states|
  {
    forall m :: i <= m < j ==> !Renews(env, states, events, m, p)
  }

  lemma ActiveStep(env: Env, states: seq<Database>, events: seq<Event>, m: nat, p: Pair)
    requires IsRun(env, states, events) && m < |events| && !Renews(env, states, events, m, p)
    requires p in states[m + 1].grants && states[m + 1].grants[p].state.Active?
    ensures p in states[m].grants && states[m + 1].grants[p] == states[m].grants[p]
  {
    hide Step, Commits, Authenticates, ActiveActor, RequireOwner, LetGo, Publishes;
    assert StepAt(env, states, events, m);
    GrantStepOf(env, states[m], events[m].op, events[m].now, states[m + 1], p);
  }

  /** A grant that is active is, however often it was hidden meanwhile, the grant it was. */
  lemma {:induction false} GrantUndisturbed(env: Env, states: seq<Database>, events: seq<Event>, i: nat, j: nat, p: Pair)
    requires IsRun(env, states, events) && i <= j < |states| && Undisturbed(env, states, events, i, j, p)
    requires p in states[j].grants && states[j].grants[p].state.Active?
    ensures p in states[i].grants && states[j].grants[p] == states[i].grants[p]
    decreases j - i
  {
    hide Step, Renews;
    if i < j {
      ActiveStep(env, states, events, j - 1, p);
      GrantUndisturbed(env, states, events, i, j - 1, p);
    }
  }

  lemma SnapshotStep(env: Env, states: seq<Database>, events: seq<Event>, m: nat, p: Pair)
    requires IsRun(env, states, events) && m < |events| && !Renews(env, states, events, m, p)
    requires p.tailnet in states[m + 1].snapshots
    ensures p.tailnet in states[m].snapshots && states[m + 1].snapshots[p.tailnet].lastSuccess == states[m].snapshots[p.tailnet].lastSuccess
    ensures states[m + 1].snapshots[p.tailnet].keys == states[m].snapshots[p.tailnet].keys || states[m + 1].snapshots[p.tailnet].keys == []
  {
    hide Step, Commits, Authenticates, Publishes, Deletes;
    assert StepAt(env, states, events, m);
    StepOutcome(env, states[m], events[m].op, events[m].now, states[m + 1]);
    if states[m + 1] != states[m] { IdentityStep(env, states[m], events[m].op, events[m].now, states[m + 1], p.tailnet); }
  }

  lemma {:induction false} SnapshotUndisturbed(env: Env, states: seq<Database>, events: seq<Event>, i: nat, j: nat, p: Pair)
    requires IsRun(env, states, events) && i <= j < |states| && Undisturbed(env, states, events, i, j, p)
    requires p.tailnet in states[j].snapshots
    ensures p.tailnet in states[i].snapshots && states[j].snapshots[p.tailnet].lastSuccess == states[i].snapshots[p.tailnet].lastSuccess
    ensures states[j].snapshots[p.tailnet].keys == states[i].snapshots[p.tailnet].keys || states[j].snapshots[p.tailnet].keys == []
    decreases j - i
  {
    hide Step, Renews;
    if i < j {
      SnapshotStep(env, states, events, j - 1, p);
      SnapshotUndisturbed(env, states, events, i, j - 1, p);
    }
  }

  lemma RetentionsOf(env: Env, db: Database, op: Op, now: int, db': Database)
    requires Commits(env, db, op, now, db') && !(op.OnAccount? && op.account.OpSetRetentions?)
    ensures db'.retentions == db.retentions
  {
    hide AccountStatements, NodeStatements, GrantStatements, Rebuild;
    CommitShape(env, db, op, now, db');
  }

  lemma {:induction false} RetentionsUndisturbed(env: Env, states: seq<Database>, events: seq<Event>, i: nat, j: nat, p: Pair)
    requires IsRun(env, states, events) && i <= j < |states| && Undisturbed(env, states, events, i, j, p)
    ensures states[j].retentions == states[i].retentions
    decreases j - i
  {
    hide Step, Commits, Authenticates, Publishes;
    if i < j {
      RetentionsUndisturbed(env, states, events, i, j - 1, p);
      assert !Renews(env, states, events, j - 1, p);
      assert StepAt(env, states, events, j - 1);
      StepOutcome(env, states[j - 1], events[j - 1].op, events[j - 1].now, states[j]);
      if states[j] != states[j - 1] { RetentionsOf(env, states[j - 1], events[j - 1].op, events[j - 1].now, states[j]); }
    }
  }

  lemma {:induction false} UnconflictedSubset(all: map<Id, Snapshot>, ks: seq<DeviceKey>, k: DeviceKey)
    ensures k in UnconflictedKeys(all, ks) ==> k in ks
  {
    if ks != [] { UnconflictedSubset(all, ks[..|ks| - 1], k); }
  }

  /** The entry that a stored policy holds for a tailnet is the entry of that grant, with the deadlines the tables give. */
  lemma StoredEntry(env: Env, db: Database, n: Id, a: nat)
    requires n in db.nodes && n in db.policies && Materialised(env, db, n) && a < |db.policies[n].body.value.grants|
    ensures var x := db.policies[n].body.value.grants[a];
            GrantShown(db, Pair(n, x.tailnetId)) && x == GrantEntry(db, Pair(n, x.tailnetId)) && EntrySays(db, n, x)
  {
    hide ValidPolicy, UnconflictedKeys, EntrySays, Admitted;
    var ts := Sorted(ShownTailnets(db, n));
    var x := db.policies[n].body.value.grants[a];
    assert x == GrantEntries(db, n, ts)[a];
    assert ts[a] in ts;
    AdmittedIsShown(db, n, ts[a]);
    EntryMeans(db, n, ts[a]);
  }

  lemma SameEntry(env: Env, states: seq<Database>, events: seq<Event>, i: nat, j: nat, p: Pair)
    requires IsRun(env, states, events) && i <= j < |states| && Undisturbed(env, states, events, i, j, p)
    requires GrantShown(states[i], p) && GrantShown(states[j], p)
    ensures GrantEntry(states[j], p) == GrantEntry(states[i], p).(keys := GrantEntry(states[j], p).keys)
    ensures forall k :: k in GrantEntry(states[j], p).keys ==> k in states[i].snapshots[p.tailnet].keys
  {
    hide Step, Renews;
    GrantUndisturbed(env, states, events, i, j, p);
    SnapshotUndisturbed(env, states, events, i, j, p);
    RetentionsUndisturbed(env, states, events, i, j, p);
    forall k | k in GrantEntry(states[j], p).keys ensures k in states[i].snapshots[p.tailnet].keys {
      UnconflictedSubset(states[j].snapshots, states[j].snapshots[p.tailnet].keys, k);
    }
  }

  /** Between two states of a run with nothing in between that renews the grant, the policies stored for
      the node give every key that is in both the same deadline, whatever was paused, resumed,
      transferred, edited or rebuilt on the way, and even if the grant was hidden meanwhile. */
  lemma DeadlinesKept(env: Env, states: seq<Database>, events: seq<Event>, i: nat, j: nat, n: Id, a: nat, b: nat, k: DeviceKey, l: DeviceKey)
    requires IsRun(env, states, events) && i <= j < |states| && n in states[i].policies && n in states[j].policies
    requires states[i].policies[n].body.Some? && a < |states[i].policies[n].body.value.grants|
    requires states[j].policies[n].body.Some? && b < |states[j].policies[n].body.value.grants|
    requires var x, y := states[i].policies[n].body.value.grants[a], states[j].policies[n].body.value.grants[b];
             x.tailnetId == y.tailnetId && k in x.keys && l in y.keys && k.nodePublic == l.nodePublic
    requires Undisturbed(env, states, events, i, j, Pair(n, states[i].policies[n].body.value.grants[a].tailnetId))
    ensures EarliestDeadline(states[i].policies[n].body.value.grants[a], k) == EarliestDeadline(states[j].policies[n].body.value.grants[b], l)
  {
    hide Step, Renews, Undisturbed, ValidPolicy, References, TokensDrawn, NodesSound, View, UnconflictedKeys;
    var x, y := states[i].policies[n].body.value.grants[a], states[j].policies[n].body.value.grants[b];
    var p := Pair(n, x.tailnetId);
    InvAlways(env, states, events, i);
    ViewAlways(env, states, events, i, n);
    ViewAlways(env, states, events, j, n);
    StoredEntry(env, states[i], n, a);
    StoredEntry(env, states[j], n, b);
    SameEntry(env, states, events, i, j, p);
    UnconflictedSubset(states[i].snapshots, states[i].snapshots[p.tailnet].keys, k);
    OneKeyPerPublic(states[i].snapshots[p.tailnet].keys, k, l);
  }

  lemma OneKeyPerPublic(ks: seq<DeviceKey>, k: DeviceKey, l: DeviceKey)
    requires DistinctKeys(ks) && k in ks && l in ks && k.nodePublic == l.nodePublic
    ensures k == l
  {}

  // The identity clock.

  /** The last complete listing of a tailnet never moves back. */
  lemma {:induction false} IdentityNeverBack(env: Env, states: seq<Database>, events: seq<Event>, i: nat, j: nat, t: Id)
    requires IsRun(env, states, events) && i <= j < |states| && t in states[i].snapshots && t in states[j].snapshots
    ensures states[i].snapshots[t].lastSuccess <= states[j].snapshots[t].lastSuccess
    decreases j - i
  {
    hide Step, Inv, Commits, TailnetGone, Publishes, Deletes;
    if i < j {
      InvAlways(env, states, events, j);
      SnapshotStillThere(env, states, events, i, j - 1, j, t);
      IdentityNeverBack(env, states, events, i, j - 1, t);
      assert StepAt(env, states, events, j - 1);
      StepOutcome(env, states[j - 1], events[j - 1].op, events[j - 1].now, states[j]);
      if states[j] != states[j - 1] { IdentityStep(env, states[j - 1], events[j - 1].op, events[j - 1].now, states[j], t); }
    }
  }

  lemma SnapshotStillThere(env: Env, states: seq<Database>, events: seq<Event>, i: nat, m: nat, j: nat, t: Id)
    requires IsRun(env, states, events) && i <= m <= j < |states| && t in states[i].snapshots && t in states[j].snapshots
    ensures t in states[m].snapshots
  {
    hide Step, Inv, TailnetGone;
    SnapshotLives(env, states, events, i, m, t);
    if TailnetGone(states[m], t) {
      InvAlways(env, states, events, j);
      GoneForGood(env, states, events, m, j, t);
      GoneHasNoSnapshot(env, states[j], t);
    }
  }

  lemma GoneHasNoSnapshot(env: Env, db: Database, t: Id)
    requires Inv(env, db) && TailnetGone(db, t)
    ensures t !in db.snapshots
  {}

  lemma {:induction false} SnapshotLives(env: Env, states: seq<Database>, events: seq<Event>, i: nat, k: nat, t: Id)
    requires IsRun(env, states, events) && i <= k < |states| && t in states[i].snapshots
    ensures t in states[k].snapshots || TailnetGone(states[k], t)
    decreases k - i
  {
    hide Step, Inv, TailnetGone, Commits;
    if i < k {
      SnapshotLives(env, states, events, i, k - 1, t);
      InvAlways(env, states, events, k - 1);
      assert StepAt(env, states, events, k - 1);
      GrantKeyStep(env, states[k - 1], events[k - 1].op, events[k - 1].now, states[k], Pair("", t));
      if t in states[k - 1].snapshots { SnapshotGoes(env, states[k - 1], events[k - 1].op, events[k - 1].now, states[k], t); }
    }
  }

  lemma SnapshotGoes(env: Env, db: Database, op: Op, now: int, db': Database, t: Id)
    requires Inv(env, db) && Step(env, db, op, now, db') && t in db.snapshots
    ensures t in db'.snapshots || TailnetGone(db', t)
  {
    hide Inv, Commits, Statements, Legitimate;
    CredentialHasTailnet(env, db, t);
    TailnetDrawn(env, db, t);
    GoneStep(env, db, op, now, db', t);
    StepOutcome(env, db, op, now, db');
    if db' != db { IdentityStep(env, db, op, now, db', t); }
  }
}
