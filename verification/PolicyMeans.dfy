/** What stored policies say in every state of every run, whom they admit until when, and what is left of a paused
    user, tailnet or node (internal/control/policy.go). */
module PolicyMeans {
  import opened Ids
  import opened Protocol
  import opened Tables
  import opened PolicyView
  import opened Invariants
  import opened NodeTx
  import opened Transactions
  import opened Steps
  import opened Effects
  import opened Runs
  import opened GrantRuns
  import opened Notices
  import opened Meaning
  import opened Admission

  lemma ViewMeans(env: Env, db: Database, n: Id)
    requires n in db.nodes && n in db.policies && Materialised(env, db, n)
    ensures PolicySays(env, db, n, db.policies[n].body.value)
  {
    hide ValidPolicy, PolicySays, View;
    HeaderMeans(env, db, n);
    ContentMeans(env, db, n, db.policies[n].body.value);
  }

  lemma HeaderMeans(env: Env, db: Database, n: Id)
    requires n in db.nodes && n in db.policies && Materialised(env, db, n)
    ensures var p := db.policies[n].body.value;
            p.clusterId == env.clusterId && p.nodeId == n && p.revision == db.policies[n].desired
  {
    hide View, WithinLimits, DistinctGrants, DistinctKeys, RulesMatchGrants, ValidQoS;
  }

  /** In every state of every run, each stored policy lists exactly the tailnets that are to be admitted at its node,
      in order, and every deadline, key, rule and budget in it is the one the tables give. */
  lemma StoredPolicySays(env: Env, states: seq<Database>, events: seq<Event>, i: nat, n: Id)
    requires IsRun(env, states, events) && i < |states| && n in states[i].policies
    ensures states[i].policies[n].body.Some? && PolicySays(env, states[i], n, states[i].policies[n].body.value)
  {
    hide IsRun, PolicySays, View, ValidPolicy;
    ViewAlways(env, states, events, i, n);
    ViewMeans(env, states[i], n);
  }

  // What follows for admission.

  /** An explicit deadline is unset or a positive time. */
  lemma {:induction false} ExplicitDeadlines(env: Env, states: seq<Database>, events: seq<Event>, i: nat, p: Pair)
    requires IsRun(env, states, events) && i < |states| && p in states[i].grants
    ensures states[i].grants[p].explicitUntil >= 0
    decreases i
  {
    hide Step, Commits, SpeaksFor, Known, Speaks, LetGo, Authenticates;
    assert i > 0;
    assert StepAt(env, states, events, i - 1);
    GrantStepOf(env, states[i - 1], events[i - 1].op, events[i - 1].now, states[i], p);
    TimePositive(env, states[i - 1], events[i - 1].op, events[i - 1].now, states[i]);
    if p in states[i - 1].grants { ExplicitDeadlines(env, states, events, i - 1, p); }
  }

  lemma TimePositive(env: Env, db: Database, op: Op, now: int, db': Database)
    requires Step(env, db, op, now, db')
    ensures now > 0
  {
    hide Apply;
  }

  /** Every clock that bounds the admission of a key of this tailnet at this node is still running. */
  predicate WithinDeadlines(db: Database, n: Id, t: Id, k: DeviceKey, now: int) {
    && t in db.snapshots && Pair(n, t) in db.grants
    && now < db.snapshots[t].lastSuccess + db.retentions.identity
    && now < db.grants[Pair(n, t)].lastControl + db.retentions.control
    && (db.grants[Pair(n, t)].explicitUntil != 0 ==> now < db.grants[Pair(n, t)].explicitUntil)
    && (k.notAfter != ZERO_TIME ==> now < k.notAfter)
  }

  /** The policy lists the key under a deadline that has not come. */
  ghost predicate Admits(p: Policy, t: Id, k: DeviceKey, now: int) {
    exists a :: 0 <= a < |p.grants| && p.grants[a].tailnetId == t && k in p.grants[a].keys && now < EarliestDeadline(p.grants[a], k)
  }

  /** In every state of every run, a node's stored policy admits a device for a tailnet at a time exactly if the tailnet is
      to be admitted there, the device is its own, and neither the identity retention, nor the control
      retention, nor the grant's deadline, nor the key's expiry has passed. */
  lemma AdmissionExactly(env: Env, states: seq<Database>, events: seq<Event>, i: nat, n: Id, t: Id, k: DeviceKey, now: int)
    requires IsRun(env, states, events) && i < |states| && n in states[i].policies
    ensures states[i].policies[n].body.Some?
    ensures Admits(states[i].policies[n].body.value, t, k, now) <==>
              Admitted(states[i], n, t) && OwnKey(states[i], t, k) && WithinDeadlines(states[i], n, t, k, now)
  {
    hide IsRun, Admitted, OwnKey, InListingOrder, RuleSays, SharingSound, EarliestDeadline;
    StoredPolicySays(env, states, events, i, n);
    var db, p := states[i], states[i].policies[n].body.value;
    PositiveRetentions(env, states, events, i);
    forall a | 0 <= a < |p.grants| && p.grants[a].tailnetId == t && k in p.grants[a].keys
      ensures now < EarliestDeadline(p.grants[a], k) <==> WithinDeadlines(db, n, t, k, now)
    {
      AdmittedHas(db, n, t);
      ExplicitDeadlines(env, states, events, i, Pair(n, t));
      DeadlineMeans(db, n, p.grants[a], k, now);
    }
    if Admitted(db, n, t) && OwnKey(db, t, k) {
      var a :| 0 <= a < |p.grants| && p.grants[a].tailnetId == t;
      assert EntrySays(db, n, p.grants[a]);
    }
  }

  lemma AdmittedHas(db: Database, n: Id, t: Id)
    requires Admitted(db, n, t)
    ensures t in db.snapshots && Pair(n, t) in db.grants && db.grants[Pair(n, t)].lastControl > 0
  {}

  lemma PositiveRetentions(env: Env, states: seq<Database>, events: seq<Event>, i: nat)
    requires IsRun(env, states, events) && i < |states|
    ensures states[i].retentions.identity > 0 && states[i].retentions.control > 0
  {
    hide IsRun, Stored, References, TokensDrawn, NodesSound;
    InvAlways(env, states, events, i);
  }

  lemma DeadlineMeans(db: Database, n: Id, x: GrantPolicy, k: DeviceKey, now: int)
    requires Admitted(db, n, x.tailnetId) && EntrySays(db, n, x) && db.retentions.control > 0
    requires db.grants[Pair(n, x.tailnetId)].explicitUntil >= 0
    ensures now < EarliestDeadline(x, k) <==> WithinDeadlines(db, n, x.tailnetId, k, now)
  {
    hide EarliestDeadline, OwnKey, InListingOrder;
    var until := EarliestDeadline(x, k);
    assert x.controlUntil in OtherDeadlines(x, k) && x.explicitUntil in OtherDeadlines(x, k) && k.notAfter in OtherDeadlines(x, k);
    if WithinDeadlines(db, n, x.tailnetId, k, now) { assert BoundsDeadlines(x, k, now + 1); }
  }

  // What pausing does.

  /** Nothing of the user's is relayed: its nodes admit nobody and authenticate nobody, and its tailnets are listed nowhere. */
  ghost predicate Silenced(db: Database, u: Id) {
    && (forall n :: n in db.policies && n in db.nodes && db.nodes[n].owner == u ==> db.policies[n].body.Some? && db.policies[n].body.value.grants == [])
    && (forall n, token, now :: n in db.nodes && db.nodes[n].owner == u ==> !SpeaksFor(db, token, n, now))
    && (forall t :: t in db.tailnets && db.tailnets[t].owner == u ==> Unlisted(db, t))
  }

  ghost predicate ListedIn(p: Policy, t: Id) { exists a :: 0 <= a < |p.grants| && p.grants[a].tailnetId == t }

  /** No stored policy lists the tailnet. */
  ghost predicate Unlisted(db: Database, t: Id) {
    forall n :: n in db.policies ==> db.policies[n].body.Some? && !ListedIn(db.policies[n].body.value, t)
  }

  lemma StoredSays(env: Env, db: Database, n: Id)
    requires Inv(env, db) && n in db.policies
    ensures n in db.nodes && db.policies[n].body.Some? && PolicySays(env, db, n, db.policies[n].body.value)
  {
    hide TablesSound, PolicySays, View, ValidPolicy;
    assert Materialised(env, db, n);
    ViewMeans(env, db, n);
  }

  lemma OffNodeIsEmpty(env: Env, db: Database, n: Id)
    requires Inv(env, db) && n in db.policies && !NodeOn(db, n)
    ensures db.policies[n].body.Some? && db.policies[n].body.value.grants == []
  {
    hide Inv, PolicySays, NodeOn;
    StoredSays(env, db, n);
    if |db.policies[n].body.value.grants| > 0 { ListingNeedsNode(env, db, n, db.policies[n].body.value); }
  }

  /** The node's policy, if it has one, admits nobody. */
  ghost predicate Emptied(db: Database, n: Id) {
    n in db.policies ==> db.policies[n].body.Some? && db.policies[n].body.value.grants == []
  }

  lemma OffNode(env: Env, db: Database, n: Id)
    requires Inv(env, db) && !NodeOn(db, n)
    ensures Emptied(db, n)
  {
    hide Inv, NodeOn;
    if n in db.policies { OffNodeIsEmpty(env, db, n); }
  }

  lemma ListingNeedsNode(env: Env, db: Database, n: Id, p: Policy)
    requires PolicySays(env, db, n, p) && |p.grants| > 0
    ensures NodeOn(db, n)
  {
    assert EntrySays(db, n, p.grants[0]);
  }

  lemma OffTailnetIsUnlisted(env: Env, db: Database, t: Id)
    requires Inv(env, db) && !TailnetOn(db, t)
    ensures Unlisted(db, t)
  {
    hide Inv, RuleSays, OwnKey, InListingOrder;
    forall n | n in db.policies ensures db.policies[n].body.Some? && !ListedIn(db.policies[n].body.value, t) {
      StoredSays(env, db, n);
      var p := db.policies[n].body.value;
      forall a | 0 <= a < |p.grants| ensures p.grants[a].tailnetId != t { assert EntrySays(db, n, p.grants[a]); }
    }
  }

  lemma OffUserIsSilenced(env: Env, db: Database, u: Id)
    requires Inv(env, db) && !UserOn(db, u)
    ensures Silenced(db, u)
  {
    hide Inv, Unlisted;
    forall n | n in db.policies && n in db.nodes && db.nodes[n].owner == u ensures db.policies[n].body.Some? && db.policies[n].body.value.grants == [] {
      OffNodeIsEmpty(env, db, n);
    }
    forall t | t in db.tailnets && db.tailnets[t].owner == u ensures Unlisted(db, t) { OffTailnetIsUnlisted(env, db, t); }
  }

  /** In every state of every run, nothing of a paused or unknown user is relayed. */
  lemma PausedIsSilent(env: Env, states: seq<Database>, events: seq<Event>, i: nat, u: Id)
    requires IsRun(env, states, events) && i < |states| && !UserOn(states[i], u)
    ensures Silenced(states[i], u)
  {
    hide IsRun, Inv, Silenced;
    InvAlways(env, states, events, i);
    OffUserIsSilenced(env, states[i], u);
  }

  /** A body that a step writes carries the time of that step. */
  lemma BodyIsDated(env: Env, db: Database, op: Op, now: int, db': Database, n: Id)
    requires Inv(env, db) && Step(env, db, op, now, db') && n in db'.policies && db'.policies[n].body.Some?
    requires n in db.policies ==> db'.policies[n].body != db.policies[n].body
    ensures db'.policies[n].body.value.generatedAt == now
  {
    hide TablesSound, Statements, Legitimate, Rebuild, View, Covered, Materialised, RowsReady, BuildRow;
    StepOutcome(env, db, op, now, db');
    StoredRowsReady(env, db);
    StatementsKeep(env, db, op, now);
    var tx := Statements(env, db, op, now);
    RebuildShape(env, tx.db, tx.rebuild, now, db');
    if n !in tx.rebuild {
      Untouched(env, db, tx.db, tx.rebuild, n);
    } else {
      RowCause(env, db, op, now, n);
      BuiltBody(env, db, op, now, tx.db, tx.rebuild, n, db'.policies[n]);
    }
  }

  lemma BuiltBody(env: Env, db: Database, op: Op, now: int, mid: Database, rebuild: set<Id>, n: Id, row: PolicyRow)
    requires n in mid.policies && n in rebuild && RowFate(db, op, now, mid, rebuild, n) && BuildRow(env, mid, n, now) == Ok(row)
    requires row.body.Some? && (n in db.policies ==> row.body != db.policies[n].body)
    ensures row.body.value.generatedAt == now
  {
    hide View, AckedRow, Authenticates, ShownTailnets, ValidPolicy, LetGo;
  }
}
