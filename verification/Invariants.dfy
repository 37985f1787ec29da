/** What every committed state satisfies: the schema's references, the facts that make it
    right for some transactions not to rebuild, and the materialised view itself. */
module Invariants {
  import opened Ids
  import opened Protocol
  import opened Identity
  import opened Tables
  import opened PolicyView
  import opened NodeTx

  // Each fact names the tables it reads, so a transaction that leaves them alone leaves it alone.

  /** Foreign keys. */
  ghost predicate TailnetOwners(users: set<Id>, tailnets: map<Id, Tailnet>) {
    forall t :: t in tailnets ==> tailnets[t].owner in users
  }

  ghost predicate NodeOwners(users: set<Id>, nodes: map<Id, Node>) {
    forall n :: n in nodes ==> nodes[n].owner in users
  }

  ghost predicate SessionRefs(nodes: set<Id>, sessions: map<string, SessionRow>) {
    forall k :: k in sessions ==> sessions[k].node in nodes
  }

  ghost predicate ChallengeRefs(nodes: set<Id>, challenges: map<string, ChallengeRow>) {
    forall k :: k in challenges ==> challenges[k].node in nodes
  }

  ghost predicate PairRefs(nodes: set<Id>, tailnets: set<Id>, pairs: set<Pair>) {
    forall p :: p in pairs ==> p.node in nodes && p.tailnet in tailnets
  }

  ghost predicate References(db: Database) {
    && TailnetOwners(db.users.Keys, db.tailnets) && NodeOwners(db.users.Keys, db.nodes)
    && db.policies.Keys <= db.nodes.Keys && db.enrollments.Keys <= db.nodes.Keys
    && db.credentials.Keys <= db.tailnets.Keys && db.snapshots.Keys <= db.tailnets.Keys
    && PairRefs(db.nodes.Keys, db.tailnets.Keys, db.grants.Keys) && PairRefs(db.nodes.Keys, db.tailnets.Keys, db.rules.Keys)
    && SessionRefs(db.nodes.Keys, db.sessions) && ChallengeRefs(db.nodes.Keys, db.challenges)
  }

  ghost predicate AllTokens(drawn: set<string>) { forall x :: x in drawn ==> IsToken(x) }

  ghost predicate CodesDrawn(drawn: set<string>, enrollments: map<Id, Enrollment>) {
    forall n :: n in enrollments ==> enrollments[n].code in drawn
  }

  ghost predicate GrantIdsDrawn(drawn: set<string>, grants: map<Pair, Grant>) {
    forall p :: p in grants ==> grants[p].id in drawn
  }

  /** Every random value in the tables was drawn, so a new one collides with none. */
  ghost predicate TokensDrawn(db: Database) {
    && AllTokens(db.drawn)
    && db.users.Keys <= db.drawn && db.tailnets.Keys <= db.drawn && db.nodes.Keys <= db.drawn
    && db.sessions.Keys <= db.drawn && db.challenges.Keys <= db.drawn
    && CodesDrawn(db.drawn, db.enrollments) && GrantIdsDrawn(db.drawn, db.grants)
  }

  /** A node waiting for its domain is disabled. */
  ghost predicate DomainPendingDisabled(nodes: map<Id, Node>) {
    forall n :: n in nodes && nodes[n].state.DomainPending? ==> !nodes[n].enabled
  }

  /** A node past `pending` has a key and a policy. */
  ghost predicate PastPending(nodes: map<Id, Node>, policies: set<Id>) {
    forall n :: n in nodes && !nodes[n].state.Pending? ==> n in policies && nodes[n].publicKey.Some?
  }

  /** A pending node has no consent left. */
  ghost predicate PendingRevoked(nodes: map<Id, Node>, grants: map<Pair, Grant>) {
    forall p :: p in grants && p.node in nodes && nodes[p.node].state.Pending? ==> grants[p].state.Revoked?
  }

  ghost predicate NodesDistinct(nodes: map<Id, Node>) {
    && (forall n :: n in nodes ==> FIRST_REGION <= nodes[n].region <= LAST_REGION)
    && (forall m, n :: m in nodes && n in nodes && m != n ==>
          nodes[m].region != nodes[n].region && nodes[m].domain != nodes[n].domain)
  }

  /** A session belongs to the recorded instance of a serving node. */
  ghost predicate SessionsCurrent(sessions: map<string, SessionRow>, nodes: map<Id, Node>) {
    forall k :: k in sessions && sessions[k].node in nodes ==>
      Serving(nodes[sessions[k].node].state) && sessions[k].instance == nodes[sessions[k].node].instance
  }

  ghost predicate OneSession(sessions: map<string, SessionRow>) {
    forall k, l :: k in sessions && l in sessions && sessions[k].node == sessions[l].node ==> k == l
  }

  ghost predicate FewChallenges(challenges: map<string, ChallengeRow>) {
    && (forall n :: |ChallengesOf(challenges, n)| <= MAX_CHALLENGES)
    && (forall k :: k in challenges ==> challenges[k].payload.nonce == k)
  }

  ghost predicate SnapshotsSound(snapshots: map<Id, Snapshot>) {
    forall t :: t in snapshots ==> DistinctKeys(snapshots[t].keys) && snapshots[t].lastSuccess > 0
  }

  /** Without a credential a tailnet has no keys. */
  ghost predicate CredentialsSound(credentials: map<Id, Credential>, snapshots: map<Id, Snapshot>) {
    && (forall t :: t in credentials ==> credentials[t].revision >= 1 && credentials[t].refreshSeq >= 0)
    && (forall t :: t in credentials && credentials[t].status.Missing? && t in snapshots ==> snapshots[t].keys == [])
  }

  predicate ValidRule(r: Rule) { r.group in {Owner, Shared} && ValidWeight(r.weight) && ValidCeiling(r.maxBps) }

  /** An owner-group rule exists only where node and tailnet have one owner. */
  ghost predicate OwnerRulesHome(rules: map<Pair, Rule>, nodes: map<Id, Node>, tailnets: map<Id, Tailnet>) {
    forall p :: p in rules && rules[p].group.Owner? && p.node in nodes && p.tailnet in tailnets ==>
      tailnets[p.tailnet].owner == nodes[p.node].owner
  }

  ghost predicate RulesValid(rules: map<Pair, Rule>) { forall p :: p in rules ==> ValidRule(rules[p]) }

  function Budget(row: PolicyRow): QoSPolicy {
    QoSPolicy(row.budgetBps, row.ownerWeight, row.sharedWeight, row.sharedMaxBps, [])
  }

  ghost predicate BudgetsValid(policies: map<Id, PolicyRow>) {
    forall n :: n in policies ==> ValidBudget(Budget(policies[n]))
  }

  ghost predicate GrantsSound(grants: map<Pair, Grant>) {
    && (forall p :: p in grants ==> grants[p].revision >= 1 && !grants[p].state.Expired?)
    && (forall p, q :: p in grants && q in grants && grants[p].id == grants[q].id ==> p == q)
  }

  ghost predicate NodesSound(db: Database) {
    && DomainPendingDisabled(db.nodes) && PastPending(db.nodes, db.policies.Keys) && PendingRevoked(db.nodes, db.grants)
    && NodesDistinct(db.nodes) && SessionsCurrent(db.sessions, db.nodes) && OneSession(db.sessions) && FewChallenges(db.challenges)
  }

  ghost predicate SharingSound(db: Database) {
    && ValidRetentions(db.retentions) && SnapshotsSound(db.snapshots) && CredentialsSound(db.credentials, db.snapshots)
    && RulesValid(db.rules) && OwnerRulesHome(db.rules, db.nodes, db.tailnets) && BudgetsValid(db.policies) && GrantsSound(db.grants)
  }

  /** Everything but the stored policies. */
  ghost predicate TablesSound(db: Database) {
    References(db) && TokensDrawn(db) && NodesSound(db) && SharingSound(db)
  }

  ghost predicate AckOrder(row: PolicyRow) { 0 <= row.applied <= row.received <= row.desired }

  /** The stored policy of node `n` is what the tables say, at its own revision. */
  ghost predicate Materialised(env: Env, db: Database, n: Id)
    requires n in db.nodes && n in db.policies
  {
    var row := db.policies[n];
    && AckOrder(row) && row.desired >= 1
    && row.body.Some? && ValidPolicy(row.body.value, env.clusterId, n) && env.fits(row.body.value)
    && row.body.value.revision == row.desired
    && ContentOf(row.body.value) == View(db, n)
  }

  ghost predicate Stored(env: Env, db: Database) {
    forall n :: n in db.policies ==> n in db.nodes && Materialised(env, db, n)
  }

  ghost predicate Inv(env: Env, db: Database) {
    TablesSound(db) && Stored(env, db)
  }

  // When a view does not change.

  ghost predicate SameBudget(a: PolicyRow, b: PolicyRow) { Budget(a) == Budget(b) }

  /** What a grant's entry depends on outside the node's own rows. */
  ghost predicate SameTailnet(db: Database, mid: Database, t: Id) {
    && t in db.tailnets && t in mid.tailnets
    && db.tailnets[t].owner == mid.tailnets[t].owner && db.tailnets[t].enabled == mid.tailnets[t].enabled
    && UserEnabled(db, db.tailnets[t].owner) == UserEnabled(mid, db.tailnets[t].owner)
  }

  ghost predicate SameOwnRows(db: Database, mid: Database, n: Id) {
    && (forall p: Pair :: p.node == n ==> (p in db.grants <==> p in mid.grants))
    && (forall p: Pair :: p.node == n ==> (p in db.rules <==> p in mid.rules))
    && (forall p :: p in db.grants && p.node == n ==> db.grants[p] == mid.grants[p] && SameTailnet(db, mid, p.tailnet))
    && (forall p :: p in db.rules && p.node == n ==> db.rules[p] == mid.rules[p])
  }

  lemma ShownFrame(db: Database, mid: Database, n: Id)
    requires n in db.nodes && n in mid.nodes
    requires NodeServes(db, n) == NodeServes(mid, n)
    requires mid.snapshots == db.snapshots && SameOwnRows(db, mid, n)
    ensures ShownTailnets(mid, n) == ShownTailnets(db, n)
  {
    assert forall p :: p in db.grants && p.node == n ==> (GrantShown(mid, p) <==> GrantShown(db, p));
    forall t ensures t in ShownTailnets(mid, n) <==> t in ShownTailnets(db, n) {
      if t in ShownTailnets(mid, n) { assert Pair(n, t) in mid.grants && Pair(n, t) in db.grants; }
      if t in ShownTailnets(db, n) { assert Pair(n, t) in db.grants && Pair(n, t) in mid.grants; }
    }
  }

  lemma ViewFrame(db: Database, mid: Database, n: Id)
    requires n in db.nodes && n in mid.nodes && n in db.policies && n in mid.policies
    requires NodeServes(db, n) == NodeServes(mid, n) && db.nodes[n].owner == mid.nodes[n].owner
    requires mid.retentions == db.retentions && mid.snapshots == db.snapshots
    requires SameOwnRows(db, mid, n) && SameBudget(db.policies[n], mid.policies[n])
    ensures View(mid, n) == View(db, n)
  {
    ShownFrame(db, mid, n);
    var ts := Sorted(ShownTailnets(db, n));
    forall i | 0 <= i < |ts|
      ensures GrantEntries(mid, n, ts)[i] == GrantEntries(db, n, ts)[i] && RuleEntries(mid, n, ts)[i] == RuleEntries(db, n, ts)[i]
    {
      assert ts[i] in ts;
      assert Pair(n, ts[i]) in db.grants;
      assert (Pair(n, ts[i]) in db.rules) == (Pair(n, ts[i]) in mid.rules);
    }
    assert GrantEntries(mid, n, ts) == GrantEntries(db, n, ts);
    assert RuleEntries(mid, n, ts) == RuleEntries(db, n, ts);
  }

  /** A node that does not serve has no grants in its policy, whatever the other tables say. */
  lemma IdleView(db: Database, n: Id)
    requires n in db.nodes && n in db.policies && !NodeServes(db, n)
    ensures View(db, n) == Content([], Budget(db.policies[n]))
  {
    assert ShownTailnets(db, n) == {};
  }

  /** The tables a view reads besides the node's own row are the same. */
  lemma UntouchedTables(db: Database, mid: Database, n: Id)
    requires References(db) && n in db.nodes && n in mid.nodes && n in db.policies && n in mid.policies
    requires mid.users == db.users && mid.tailnets == db.tailnets && mid.snapshots == db.snapshots && mid.retentions == db.retentions
    requires forall p: Pair :: p.node == n ==> (p in db.grants <==> p in mid.grants) && (p in db.rules <==> p in mid.rules)
    requires forall p: Pair :: p.node == n && p in db.grants ==> mid.grants[p] == db.grants[p]
    requires forall p: Pair :: p.node == n && p in db.rules ==> mid.rules[p] == db.rules[p]
    requires NodeServes(db, n) == NodeServes(mid, n) && db.nodes[n].owner == mid.nodes[n].owner
    requires SameBudget(db.policies[n], mid.policies[n])
    ensures View(mid, n) == View(db, n)
  {
    ViewFrame(db, mid, n);
  }

  // From statements to a committed state.

  /** Node `n`'s row may wait for a rebuild: its body is the old one or has been dropped. */
  ghost predicate ReadyToBuild(env: Env, row: PolicyRow, n: Id) {
    && AckOrder(row)
    && (row.body.Some? ==> ValidPolicy(row.body.value, env.clusterId, n) && row.body.value.revision == row.desired)
  }

  /** Node `n` is not rebuilt and needs none: only acknowledgement columns may differ. */
  ghost predicate NeedsNoBuild(db: Database, mid: Database, n: Id)
    requires n in mid.policies
  {
    && n in db.policies && n in db.nodes && n in mid.nodes
    && AckOrder(mid.policies[n])
    && mid.policies[n].desired == db.policies[n].desired && mid.policies[n].body == db.policies[n].body
    && View(mid, n) == View(db, n)
  }

  /** The rebuild set covers every node whose view the statements may have changed. */
  ghost predicate Covered(env: Env, db: Database, mid: Database, ns: set<Id>) {
    forall n :: n in mid.policies ==> if n in ns then ReadyToBuild(env, mid.policies[n], n) else NeedsNoBuild(db, mid, n)
  }

  ghost predicate RowsReady(env: Env, policies: map<Id, PolicyRow>) {
    forall n :: n in policies ==> ReadyToBuild(env, policies[n], n)
  }

  lemma StoredRowsReady(env: Env, db: Database)
    requires Stored(env, db)
    ensures RowsReady(env, db.policies)
  {
    forall n | n in db.policies ensures ReadyToBuild(env, db.policies[n], n) { assert Materialised(env, db, n); }
  }

  lemma ViewIgnoresStoredBodies(mid: Database, policies: map<Id, PolicyRow>, n: Id)
    requires n in mid.nodes && n in mid.policies && n in policies && SameBudget(mid.policies[n], policies[n])
    ensures View(mid.(policies := policies), n) == View(mid, n)
  {
    assert ShownTailnets(mid.(policies := policies), n) == ShownTailnets(mid, n);
    var ts := Sorted(ShownTailnets(mid, n));
    assert GrantEntries(mid.(policies := policies), n, ts) == GrantEntries(mid, n, ts);
    assert RuleEntries(mid.(policies := policies), n, ts) == RuleEntries(mid, n, ts);
  }

  /** What a successful rebuild leaves: the same tables with every covered policy materialised. */
  lemma RebuildShape(env: Env, mid: Database, ns: set<Id>, now: int, db': Database)
    requires Rebuild(env, mid, ns, now) == Ok(db')
    ensures db' == mid.(policies := db'.policies) && db'.policies.Keys == mid.policies.Keys
    ensures forall n :: n in ns ==> BuildRow(env, mid, n, now).Ok? && n in db'.policies && db'.policies[n] == BuildRow(env, mid, n, now).value
    ensures forall n :: n in db'.policies && n !in ns ==> db'.policies[n] == mid.policies[n]
    ensures forall n :: n in db'.policies ==> SameBudget(mid.policies[n], db'.policies[n])
  {
    var bad := Sorted(FailingBuilds(env, mid, ns, now));
    forall n | n in ns ensures BuildRow(env, mid, n, now).Ok? && n in mid.policies {
      assert n !in bad;
    }
  }

  lemma TablesIgnoreStoredBodies(mid: Database, policies: map<Id, PolicyRow>)
    requires TablesSound(mid) && policies.Keys == mid.policies.Keys
    requires forall n :: n in policies ==> SameBudget(mid.policies[n], policies[n])
    ensures TablesSound(mid.(policies := policies))
  {
    forall n | n in policies ensures ValidBudget(Budget(policies[n])) { assert SameBudget(mid.policies[n], policies[n]); }
  }

  lemma BuildMaterialises(env: Env, mid: Database, policies: map<Id, PolicyRow>, n: Id, now: int)
    requires n in mid.nodes && n in mid.policies && n in policies
    requires ReadyToBuild(env, mid.policies[n], n) && BuildRow(env, mid, n, now) == Ok(policies[n])
    ensures Materialised(env, mid.(policies := policies), n)
  {
    ViewIgnoresStoredBodies(mid, policies, n);
  }

  lemma RebuildEstablishes(env: Env, db: Database, mid: Database, ns: set<Id>, now: int, db': Database)
    requires Inv(env, db) && TablesSound(mid) && Covered(env, db, mid, ns)
    requires Rebuild(env, mid, ns, now) == Ok(db')
    ensures Inv(env, db')
  {
    RebuildShape(env, mid, ns, now, db');
    TablesIgnoreStoredBodies(mid, db'.policies);
    forall n | n in db'.policies ensures Materialised(env, db', n) {
      assert n in mid.policies && n in mid.nodes;
      if n in ns {
        BuildMaterialises(env, mid, db'.policies, n, now);
      } else {
        assert Materialised(env, db, n);
        ViewIgnoresStoredBodies(mid, db'.policies, n);
      }
    }
  }
}
