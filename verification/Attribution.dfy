/** Keys belong to one tailnet, and the tables never make a policy that validation refuses
    for anything but its size. */
module Attribution {
  import opened Ids
  import opened Protocol
  import opened Identity
  import opened Tables
  import opened PolicyView
  import opened AccountTx
  import opened GrantTx
  import opened NodeTx
  import opened Transactions
  import opened Invariants
  import opened Steps
  import opened GrantKeeps
  import opened NodeKeeps
  import opened Runs
  import opened DeadlineRuns

  lemma {:induction false} UnconflictedOnly(all: map<Id, Snapshot>, ks: seq<DeviceKey>, k: DeviceKey)
    ensures k in UnconflictedKeys(all, ks) ==> k in ks && !Conflicted(all, k.nodePublic)
  {
    if ks != [] { UnconflictedOnly(all, ks[..|ks| - 1], k); }
  }

  lemma OneHolder(all: map<Id, Snapshot>, s: Id, t: Id, k: DeviceKey, l: DeviceKey)
    requires s in all && t in all && k in UnconflictedKeys(all, all[s].keys) && l in UnconflictedKeys(all, all[t].keys)
    requires k.nodePublic == l.nodePublic
    ensures s == t
  {
    UnconflictedOnly(all, all[s].keys, k);
    UnconflictedOnly(all, all[t].keys, l);
    assert Holds(all, s, k.nodePublic) && Holds(all, t, k.nodePublic);
  }

  /** In every state of every run, the policies stored for all nodes together attribute a key to one tailnet only. */
  lemma KeysHaveOneTailnet(env: Env, states: seq<Database>, events: seq<Event>, i: nat, m: Id, n: Id, a: nat, b: nat, k: DeviceKey, l: DeviceKey)
    requires IsRun(env, states, events) && i < |states| && m in states[i].policies && n in states[i].policies
    requires states[i].policies[m].body.Some? && a < |states[i].policies[m].body.value.grants| && k in states[i].policies[m].body.value.grants[a].keys
    requires states[i].policies[n].body.Some? && b < |states[i].policies[n].body.value.grants| && l in states[i].policies[n].body.value.grants[b].keys
    requires k.nodePublic == l.nodePublic
    ensures states[i].policies[m].body.value.grants[a].tailnetId == states[i].policies[n].body.value.grants[b].tailnetId
  {
    hide Step, ValidPolicy, View;
    var db := states[i];
    ViewAlways(env, states, events, i, m);
    ViewAlways(env, states, events, i, n);
    StoredEntry(env, db, m, a);
    StoredEntry(env, db, n, b);
    OneHolder(db.snapshots, db.policies[m].body.value.grants[a].tailnetId, db.policies[n].body.value.grants[b].tailnetId, k, l);
  }

  // What can refuse a build.

  ghost predicate SharesNoKey(a: seq<DeviceKey>, b: seq<DeviceKey>) {
    forall k, l :: k in a && l in b ==> k.nodePublic != l.nodePublic
  }

  lemma DistinctConcat(a: seq<DeviceKey>, b: seq<DeviceKey>)
    requires DistinctKeys(a) && DistinctKeys(b) && SharesNoKey(a, b)
    ensures DistinctKeys(a + b)
  {
    forall i, j | 0 <= i < j < |a + b| ensures (a + b)[i].nodePublic != (a + b)[j].nodePublic {
      if i < |a| <= j { assert a[i] in a && b[j - |a|] in b; }
    }
  }

  lemma {:induction false} UnconflictedDistinct(all: map<Id, Snapshot>, ks: seq<DeviceKey>)
    requires DistinctKeys(ks)
    ensures DistinctKeys(UnconflictedKeys(all, ks))
  {
    if ks != [] {
      var init, last := ks[..|ks| - 1], ks[|ks| - 1];
      UnconflictedDistinct(all, init);
      if !Conflicted(all, last.nodePublic) {
        forall k, l | k in UnconflictedKeys(all, init) && l in [last] ensures k.nodePublic != l.nodePublic {
          UnconflictedOnly(all, init, k);
        }
        DistinctConcat(UnconflictedKeys(all, init), [last]);
      }
    }
  }

  /** The grants entry by entry: each one's keys are distinct and no two share one. */
  ghost predicate KeysApart(gs: seq<GrantPolicy>) {
    && (forall i :: 0 <= i < |gs| ==> DistinctKeys(gs[i].keys))
    && (forall i, j :: 0 <= i < j < |gs| ==> SharesNoKey(gs[i].keys, gs[j].keys))
  }

  lemma {:induction false} KeyHasGrant(gs: seq<GrantPolicy>, k: DeviceKey)
    requires k in AllKeys(gs)
    ensures exists i :: 0 <= i < |gs| && k in gs[i].keys
  {
    if k in gs[|gs| - 1].keys {
    } else {
      KeyHasGrant(gs[..|gs| - 1], k);
      var i :| 0 <= i < |gs| - 1 && k in gs[..|gs| - 1][i].keys;
      assert k in gs[i].keys;
    }
  }

  lemma {:induction false} ApartDistinct(gs: seq<GrantPolicy>)
    requires KeysApart(gs)
    ensures DistinctKeys(AllKeys(gs))
  {
    if gs != [] {
      var init, last := gs[..|gs| - 1], gs[|gs| - 1];
      assert KeysApart(init) by {
        assert forall i :: 0 <= i < |init| ==> init[i] == gs[i];
      }
      ApartDistinct(init);
      forall k, l | k in AllKeys(init) && l in last.keys ensures k.nodePublic != l.nodePublic {
        KeyHasGrant(init, k);
        var i :| 0 <= i < |init| && k in init[i].keys;
        assert SharesNoKey(gs[i].keys, gs[|gs| - 1].keys);
      }
      DistinctConcat(AllKeys(init), last.keys);
    }
  }

  lemma ShownGrants(db: Database, n: Id, ts: seq<Id>)
    requires SharingSound(db) && TokensDrawn(db) && PairRefs(db.nodes.Keys, db.tailnets.Keys, db.grants.Keys) && Increasing(ts)
    requires forall t :: t in ts ==> GrantShown(db, Pair(n, t))
    ensures |GrantEntries(db, n, ts)| == |ts|
    ensures forall i :: 0 <= i < |ts| ==> ValidGrant(GrantEntries(db, n, ts)[i])
    ensures DistinctGrants(GrantEntries(db, n, ts))
  {
    var gs := GrantEntries(db, n, ts);
    forall i | 0 <= i < |ts| ensures ValidGrant(gs[i]) {
      assert ts[i] in ts;
      TokensAreValidIds(ts[i]);
      TokensAreValidIds(gs[i].grantId);
    }
    forall i, j | 0 <= i < j < |ts| ensures gs[i].tailnetId != gs[j].tailnetId && gs[i].grantId != gs[j].grantId {
      assert ts[i] in ts && ts[j] in ts;
      LessTotal(ts[i], ts[i]);
    }
  }

  lemma ShownKeys(db: Database, n: Id, ts: seq<Id>)
    requires SnapshotsSound(db.snapshots) && Increasing(ts)
    requires forall t :: t in ts ==> GrantShown(db, Pair(n, t))
    ensures DistinctKeys(AllKeys(GrantEntries(db, n, ts)))
  {
    var gs := GrantEntries(db, n, ts);
    forall i | 0 <= i < |ts| ensures DistinctKeys(gs[i].keys) {
      assert ts[i] in ts;
      UnconflictedDistinct(db.snapshots, db.snapshots[ts[i]].keys);
    }
    forall i, j | 0 <= i < j < |ts| ensures SharesNoKey(gs[i].keys, gs[j].keys) {
      assert ts[i] in ts && ts[j] in ts;
      LessTotal(ts[i], ts[i]);
      forall k, l | k in gs[i].keys && l in gs[j].keys ensures k.nodePublic != l.nodePublic {
        if k.nodePublic == l.nodePublic { OneHolder(db.snapshots, ts[i], ts[j], k, l); }
      }
    }
    ApartDistinct(gs);
  }

  lemma ShownRules(db: Database, n: Id, ts: seq<Id>)
    requires RulesValid(db.rules) && TokensDrawn(db) && n in db.nodes && Increasing(ts)
    requires forall t :: t in ts ==> t in db.tailnets
    ensures |RuleEntries(db, n, ts)| == |ts|
    ensures forall i :: 0 <= i < |ts| ==> ValidTailnetQoS(RuleEntries(db, n, ts)[i])
    ensures DistinctTailnets(RuleEntries(db, n, ts))
  {
    forall i | 0 <= i < |ts| ensures ValidTailnetQoS(RuleEntries(db, n, ts)[i]) {
      assert ts[i] in ts;
      TokensAreValidIds(ts[i]);
    }
    forall i, j | 0 <= i < j < |ts| ensures RuleEntries(db, n, ts)[i].tailnetId != RuleEntries(db, n, ts)[j].tailnetId {
      LessTotal(ts[i], ts[i]);
    }
  }

  lemma ShownMatch(db: Database, n: Id, ts: seq<Id>)
    requires n in db.nodes && (forall t :: t in ts ==> t in db.tailnets) && forall t :: t in ts ==> GrantShown(db, Pair(n, t))
    ensures RuleTailnets(RuleEntries(db, n, ts)) == GrantTailnets(GrantEntries(db, n, ts))
  {
    var rs, gs := RuleEntries(db, n, ts), GrantEntries(db, n, ts);
    forall i | 0 <= i < |ts| ensures rs[i].tailnetId == ts[i] && gs[i].tailnetId == ts[i] { assert ts[i] in ts; }
    forall t | t in RuleTailnets(rs) ensures t in GrantTailnets(gs) { var i :| 0 <= i < |rs| && t == rs[i].tailnetId; assert gs[i].tailnetId == t; }
    forall t | t in GrantTailnets(gs) ensures t in RuleTailnets(rs) { var i :| 0 <= i < |gs| && t == gs[i].tailnetId; assert rs[i].tailnetId == t; }
  }

  /** From sound tables, validation refuses a freshly built policy only for its size. */
  lemma OnlySizeRefuses(env: Env, db: Database, n: Id, now: int)
    requires TablesSound(db) && n in db.policies && ValidId(env.clusterId) && now > 0 && 0 <= db.policies[n].desired
    ensures n in db.nodes
    ensures var p := PolicyWith(env, n, db.policies[n].desired + 1, now, View(db, n));
            ValidPolicy(p, env.clusterId, n) <==> WithinLimits(p)
  {
    hide GrantEntries, RuleEntries, NodesSound, AllKeys, DistinctKeys, DistinctGrants, DistinctTailnets, RuleTailnets;
    hide GrantTailnets;
    var ts := Sorted(ShownTailnets(db, n));
    forall t | t in ts ensures t in db.tailnets && GrantShown(db, Pair(n, t)) {}
    TokensAreValidIds(n);
    ShownGrants(db, n, ts);
    ShownKeys(db, n, ts);
    ShownRules(db, n, ts);
    ShownMatch(db, n, ts);
    var p := PolicyWith(env, n, db.policies[n].desired + 1, now, View(db, n));
    assert p.grants == GrantEntries(db, n, ts) && p.qos.tailnets == RuleEntries(db, n, ts);
    assert Budget(db.policies[n]) == QoSPolicy(p.qos.budgetBps, p.qos.ownerWeight, p.qos.sharedWeight, p.qos.sharedMaxBps, []);
    assert ValidBudget(p.qos);
  }

  /** The build's guard against an owner-group rule on a foreign tailnet never fires. */
  lemma ForeignRuleUnreachable(db: Database, p: Pair)
    requires TablesSound(db)
    ensures !ForeignOwnerRule(db, p)
  {}

  /** Why a build can be refused: the revision counter is at its end, a stored or new policy is
      too large to encode, the clock is behind the policy it would replace, or the new policy exceeds the count limits. */
  ghost predicate Refusal(env: Env, db: Database, n: Id, now: int)
    requires n in db.nodes && n in db.policies
  {
    var row, content := db.policies[n], View(db, n);
    var p := PolicyWith(env, n, row.desired + 1, now, content);
    || row.desired >= MAX_INT64
    || (row.body.Some? && !env.fits(row.body.value))
    || ((row.body.Some? ==> ContentOf(row.body.value) != content)
        && ((row.body.Some? && now < row.body.value.generatedAt) || !WithinLimits(p) || !env.fits(p)))
  }

  lemma BuildRefused(env: Env, db: Database, n: Id, now: int)
    requires TablesSound(db) && n in db.policies && ReadyToBuild(env, db.policies[n], n) && ValidId(env.clusterId) && now > 0
    ensures n in db.nodes && (BuildRow(env, db, n, now).Err? <==> Refusal(env, db, n, now))
  {
    hide View, TablesSound, WithinLimits, ValidPolicy, ForeignOwnerRule;
    TableFacts(db, n);
    forall t ensures !ForeignOwnerRule(db, Pair(n, t)) { ForeignRuleUnreachable(db, Pair(n, t)); }
    OnlySizeRefuses(env, db, n, now);
  }

  lemma TableFacts(db: Database, n: Id)
    requires TablesSound(db) && n in db.policies
    ensures n in db.nodes && db.nodes[n].owner in db.users && ValidRetentions(db.retentions)
  {}

  // Which nodes a transaction rebuilds.

  /** The operation names a node directly, which may be one that never enrolled. */
  predicate NamesNode(op: Op, n: Id) {
    op.OnGrant? && ((op.grant.OpSetQoS? && op.grant.node == n) || (op.grant.OpBuildPolicy? && op.grant.node == n))
  }

  lemma AccountRebuilds(db: Database, op: AccountOp, now: int)
    ensures var tx := AccountStatements(db, op, now); tx.Commit? ==> tx.rebuild <= tx.db.policies.Keys
  {
    hide ActiveActor, HasAdmin, OwnsNodes, ApiIdTaken, DemotedRules, RequireOwner;
  }

  lemma PastPendingPolicy(db: Database, n: Id)
    requires TablesSound(db) && n in db.nodes && !db.nodes[n].state.Pending?
    ensures n in db.policies
  {}

  lemma NodeRebuilds(env: Env, db: Database, op: NodeOp, now: int, n: Id)
    requires TablesSound(db)
    ensures var tx := NodeStatements(env, db, op, now); tx.Commit? && n in tx.rebuild ==> n in tx.db.policies
  {
    hide TablesSound, EnrollNode, RenewSession, IssueEnrollment, ReleaseNode, Released, ActiveActor, RequireOwner, ChallengesOf;
    hide FreshChallenges, CodeOpen, DomainTaken, FirstFree, UsedRegions, AckedRow, ValidInstance, SessionsOfOthers, ChallengesOfOthers;
    if n in db.nodes && !db.nodes[n].state.Pending? { PastPendingPolicy(db, n); }
    match op
    case OpEnroll(req, token) => EnrollRebuilds(env, db, req, token, now, n);
    case OpRenew(c, s, token) => RenewRebuilds(env, db, c, s, token, now, n);
    case OpIssueEnrollment(a, m, code) => IssueRebuilds(db, a, m, code, now);
    case OpRelease(token) => ReleaseRebuilds(db, token, now);
    case _ =>
  }

  lemma EnrollRebuilds(env: Env, db: Database, req: EnrollmentRequest, token: string, now: int, n: Id)
    ensures var tx := EnrollNode(env, db, req, token, now); tx.Commit? && n in tx.rebuild ==> n in tx.db.policies
  {
    hide EnrollNode, Minted, Spent, NewSession, ChallengeProven;
    EnrollEffect(env, db, req, token, now);
  }

  lemma RenewRebuilds(env: Env, db: Database, c: Challenge, signature: string, token: string, now: int, n: Id)
    requires TablesSound(db)
    ensures var tx := RenewSession(env, db, c, signature, token, now); tx.Commit? && n in tx.rebuild ==> n in tx.db.policies
  {
    hide RenewSession, TablesSound, Clone;
    RenewEffect(env, db, c, signature, token, now);
    if n in db.nodes && !db.nodes[n].state.Pending? { PastPendingPolicy(db, n); }
  }

  lemma IssueRebuilds(db: Database, actor: Actor, m: Id, code: string, now: int)
    ensures var tx := IssueEnrollment(db, actor, m, code, now); tx.Commit? ==> tx.rebuild <= tx.db.policies.Keys
  {
    hide Released, WithEnrollment, ActiveActor, RequireOwner;
  }

  lemma ReleaseRebuilds(db: Database, token: string, now: int)
    ensures var tx := ReleaseNode(db, token, now); tx.Commit? ==> tx.rebuild <= tx.db.policies.Keys
  {
    hide Released, Authenticates;
  }

  lemma GrantRebuilds(db: Database, op: GrantOp, now: int, n: Id)
    requires TablesSound(db)
    ensures var tx := GrantStatements(db, op, now); tx.Commit? && n in tx.rebuild && n !in tx.db.policies ==> NamesNode(OnGrant(op), n)
  {
    hide TablesSound, RequestGrant, ApplyGrantAction, ActOnPair, ActiveActor, RequireOwner, InsertRules, RulesOfOthers, ValidQoS;
    match op
    case OpRequestGrant(a, p, e, until, id) =>
      RequestEffect(db, a, p, e, until, id, now);
      if RequestGrant(db, a, p, e, until, id, now).Commit? { PastPendingPolicy(db, p.node); }
    case OpGrantAction(a, g, e, act) =>
      if ApplyGrantAction(db, a, g, e, act, now).Commit? {
        var p := ActionByPair(db, a, g, e, act, now);
        ActionEffect(db, a, p, e, act, now);
        LiveOnRegistered(db, p, act, now);
        PastPendingPolicy(db, p.node);
      }
    case _ =>
  }

  lemma LiveOnRegistered(db: Database, p: Pair, a: Action, now: int)
    requires TablesSound(db) && p in db.grants && p.node in db.nodes && Allowed(a, DerivedState(db.grants[p], now))
    ensures !db.nodes[p.node].state.Pending?
  {}

  lemma RebuildsHavePolicies(env: Env, db: Database, op: Op, now: int, n: Id)
    requires TablesSound(db)
    ensures var tx := Statements(env, db, op, now); tx.Commit? && n in tx.rebuild && n !in tx.db.policies ==> NamesNode(op, n)
  {
    hide TablesSound, AccountStatements, NodeStatements, GrantStatements;
    match op
    case OnAccount(a) => AccountRebuilds(db, a, now);
    case OnNode(o) => NodeRebuilds(env, db, o, now, n);
    case OnGrant(g) => GrantRebuilds(db, g, now, n);
  }

  /** A policy was refused for its size, the clock or the revision counter. */
  ghost predicate Refused(env: Env, mid: Database, ns: set<Id>, n: Id, now: int) {
    n in ns && n in mid.nodes && n in mid.policies && Refusal(env, mid, n, now)
  }

  /** A bandwidth edit or a rebuild was asked for a node that never enrolled. */
  predicate NeverEnrolled(mid: Database, op: Op, n: Id) { NamesNode(op, n) && n !in mid.policies }

  lemma FailureShows(env: Env, mid: Database, ns: set<Id>, n: Id, now: int)
    requires n in ns && BuildRow(env, mid, n, now).Err?
    ensures Rebuild(env, mid, ns, now).Err?
  {
    hide BuildRow;
    assert n in Sorted(FailingBuilds(env, mid, ns, now));
  }

  lemma NamedIsRebuilt(env: Env, db: Database, op: Op, now: int, n: Id)
    requires NamesNode(op, n) && Statements(env, db, op, now).Commit?
    ensures n in Statements(env, db, op, now).rebuild
  {
    hide ActiveActor, RequireOwner, InsertRules, RulesOfOthers, ValidQoS, RuleAllowed;
  }

  lemma NoRowNoBuild(env: Env, mid: Database, n: Id, now: int)
    requires n !in mid.policies
    ensures BuildRow(env, mid, n, now).Err?
  {}

  /** A transaction of any run whose statements succeed is rolled back for exactly two causes: a policy it has to
      rebuild is refused, or it is a bandwidth edit or a rebuild of a node that never enrolled. */
  lemma RollbackCauses(env: Env, states: seq<Database>, events: seq<Event>, i: nat)
    requires IsRun(env, states, events) && i < |events| && ValidId(env.clusterId)
    ensures var tx := Statements(env, states[i], events[i].op, events[i].now);
            tx.Commit? ==>
              (Rebuild(env, tx.db, tx.rebuild, events[i].now).Err? <==>
                 || (exists n :: Refused(env, tx.db, tx.rebuild, n, events[i].now))
                 || (exists n :: NeverEnrolled(tx.db, events[i].op, n)))
  {
    hide Statements, TablesSound, Refusal, Covered, BuildRow, Legitimate, Apply, References, NamesNode;
    var db, op, now := states[i], events[i].op, events[i].now;
    InvAlways(env, states, events, i);
    StoredRowsReady(env, db);
    assert StepAt(env, states, events, i);
    StatementsKeep(env, db, op, now);
    var tx := Statements(env, db, op, now);
    if tx.Commit? && Rebuild(env, tx.db, tx.rebuild, now).Err? {
      var bad := Sorted(FailingBuilds(env, tx.db, tx.rebuild, now));
      assert bad[0] in bad;
      if bad[0] in tx.db.policies {
        CoveredReady(env, db, tx.db, tx.rebuild, bad[0]);
        TimeIsPositive(db, op, now);
        BuildRefused(env, tx.db, bad[0], now);
        assert Refused(env, tx.db, tx.rebuild, bad[0], now);
      } else {
        RebuildsHavePolicies(env, db, op, now, bad[0]);
        assert NeverEnrolled(tx.db, op, bad[0]);
      }
    }
    if tx.Commit? {
      TimeIsPositive(db, op, now);
      forall n | Refused(env, tx.db, tx.rebuild, n, now) ensures Rebuild(env, tx.db, tx.rebuild, now).Err? {
        CoveredReady(env, db, tx.db, tx.rebuild, n);
        BuildRefused(env, tx.db, n, now);
        FailureShows(env, tx.db, tx.rebuild, n, now);
      }
      forall n | NeverEnrolled(tx.db, op, n) ensures Rebuild(env, tx.db, tx.rebuild, now).Err? {
        NamedIsRebuilt(env, db, op, now, n);
        NoRowNoBuild(env, tx.db, n, now);
        FailureShows(env, tx.db, tx.rebuild, n, now);
      }
    }
  }

  /** Through every edit and transfer of every run, no policy is ever built over an owner-group rule on a
      foreign tailnet. */
  lemma OwnerRulesStayHome(env: Env, states: seq<Database>, events: seq<Event>, i: nat, p: Pair)
    requires IsRun(env, states, events) && i < |events|
    ensures !ForeignOwnerRule(states[i], p)
    ensures var tx := Statements(env, states[i], events[i].op, events[i].now); tx.Commit? ==> !ForeignOwnerRule(tx.db, p)
  {
    hide Statements, TablesSound, Covered, Legitimate, Apply, References, ForeignOwnerRule;
    InvAlways(env, states, events, i);
    StoredRowsReady(env, states[i]);
    assert StepAt(env, states, events, i);
    StatementsKeep(env, states[i], events[i].op, events[i].now);
    ForeignRuleUnreachable(states[i], p);
    var tx := Statements(env, states[i], events[i].op, events[i].now);
    if tx.Commit? { ForeignRuleUnreachable(tx.db, p); }
  }

  lemma TimeIsPositive(db: Database, op: Op, now: int)
    requires Legitimate(db, op, now)
    ensures now > 0
  {}

  lemma CoveredReady(env: Env, db: Database, mid: Database, ns: set<Id>, n: Id)
    requires Covered(env, db, mid, ns) && n in ns && n in mid.policies
    ensures ReadyToBuild(env, mid.policies[n], n)
  {}
}
