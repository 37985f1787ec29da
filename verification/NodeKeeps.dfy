/** Node transactions keep the invariant; those that skip the rebuild are right to. */
module NodeKeeps {
  import opened Ids
  import opened Tables
  import opened NodeTx
  import opened Invariants
  import opened GrantKeeps

  // Challenges.

  lemma FewerChallenges(challenges: map<string, ChallengeRow>, left: map<string, ChallengeRow>)
    requires FewChallenges(challenges)
    requires forall k :: k in left ==> k in challenges && left[k].node == challenges[k].node && left[k].payload == challenges[k].payload
    ensures FewChallenges(left)
  {
    forall n ensures |ChallengesOf(left, n)| <= MAX_CHALLENGES {
      SubsetSize(ChallengesOf(left, n), ChallengesOf(challenges, n));
    }
  }

  lemma {:induction false} SubsetSize<T>(a: set<T>, b: set<T>)
    requires a <= b
    ensures |a| <= |b|
  {
    assert b == a + (b - a);
  }

  lemma ChallengeInserted(left: map<string, ChallengeRow>, row: ChallengeRow, nonce: string, m: Id)
    requires nonce !in left
    ensures ChallengesOf(left[nonce := row], m) == if m == row.node then ChallengesOf(left, m) + {nonce} else ChallengesOf(left, m)
  {}

  /** Issuing prunes first and refuses at the limit, so a node never has more than eight. */
  lemma OneMoreChallenge(left: map<string, ChallengeRow>, row: ChallengeRow, nonce: string)
    requires FewChallenges(left) && |ChallengesOf(left, row.node)| < MAX_CHALLENGES && row.payload.nonce == nonce && nonce !in left
    ensures FewChallenges(left[nonce := row])
  {
    var all := left[nonce := row];
    forall m ensures |ChallengesOf(all, m)| <= MAX_CHALLENGES {
      ChallengeInserted(left, row, nonce, m);
    }
  }

  lemma ChallengesDropped(db: Database, n: Id)
    requires FewChallenges(db.challenges) && ChallengeRefs(db.nodes.Keys, db.challenges)
    ensures FewChallenges(ChallengesOfOthers(db, n)) && ChallengeRefs(db.nodes.Keys, ChallengesOfOthers(db, n))
    ensures ChallengesOfOthers(db, n).Keys <= db.challenges.Keys
  {
    FewerChallenges(db.challenges, ChallengesOfOthers(db, n));
  }

  lemma ChallengeSpent(db: Database, nonce: string, now: int)
    requires FewChallenges(db.challenges) && ChallengeRefs(db.nodes.Keys, db.challenges)
    ensures FewChallenges(Spent(db.challenges, nonce, now)) && ChallengeRefs(db.nodes.Keys, Spent(db.challenges, nonce, now))
    ensures Spent(db.challenges, nonce, now).Keys == db.challenges.Keys
  {
    FewerChallenges(db.challenges, Spent(db.challenges, nonce, now));
  }

  lemma ChallengesWrittenTables(db: Database, challenges: map<string, ChallengeRow>, drawn: set<string>)
    requires TablesSound(db) && FewChallenges(challenges) && ChallengeRefs(db.nodes.Keys, challenges)
    requires db.drawn <= drawn && AllTokens(drawn) && challenges.Keys <= drawn
    ensures TablesSound(db.(challenges := challenges, drawn := drawn))
  {}

  lemma NewChallengeEffect(env: Env, db: Database, purpose: Purpose, n: Id, domain: string, key: string, instance: string, nonce: string, now: int)
    requires FewChallenges(db.challenges) && ChallengeRefs(db.nodes.Keys, db.challenges) && n in db.nodes && nonce !in db.challenges
    ensures var tx := NewChallenge(env, db, purpose, n, domain, key, instance, nonce, now);
            tx.Commit? ==>
              && tx.db == db.(challenges := tx.db.challenges, drawn := db.drawn + {nonce}) && tx.rebuild == {}
              && FewChallenges(tx.db.challenges) && ChallengeRefs(db.nodes.Keys, tx.db.challenges)
              && tx.db.challenges.Keys <= db.challenges.Keys + {nonce}
  {
    var left := FreshChallenges(db, n, now);
    FewerChallenges(db.challenges, left);
    var tx := NewChallenge(env, db, purpose, n, domain, key, instance, nonce, now);
    if tx.Commit? {
      OneMoreChallenge(left, tx.db.challenges[nonce], nonce);
    }
  }

  lemma NewChallengeTables(env: Env, db: Database, purpose: Purpose, n: Id, domain: string, key: string, instance: string, nonce: string, now: int)
    requires TablesSound(db) && n in db.nodes && IsToken(nonce) && nonce !in db.drawn
    ensures var tx := NewChallenge(env, db, purpose, n, domain, key, instance, nonce, now); tx.Commit? ==> TablesSound(tx.db)
  {
    NewChallengeEffect(env, db, purpose, n, domain, key, instance, nonce, now);
    var tx := NewChallenge(env, db, purpose, n, domain, key, instance, nonce, now);
    if tx.Commit? {
      ChallengesWrittenTables(db, tx.db.challenges, tx.db.drawn);
    }
  }

  // Node rows.

  /** A rewritten node row keeps owner and region, and its domain stays its own. */
  ghost predicate RowFits(nodes: map<Id, Node>, n: Id, row: Node, policies: set<Id>, grants: map<Pair, Grant>) {
    && n in nodes && row.owner == nodes[n].owner && row.region == nodes[n].region
    && (forall m :: m in nodes && m != n ==> nodes[m].domain != row.domain)
    && (row.state.DomainPending? ==> !row.enabled)
    && (!row.state.Pending? ==> n in policies && row.publicKey.Some?)
    && (row.state.Pending? ==> forall p :: p in grants && p.node == n ==> grants[p].state.Revoked?)
  }

  lemma RowWritten(users: set<Id>, nodes: map<Id, Node>, n: Id, row: Node, policies: set<Id>, policies': set<Id>,
                   grants: map<Pair, Grant>, rules: map<Pair, Rule>, tailnets: map<Id, Tailnet>)
    requires RowFits(nodes, n, row, policies', grants) && policies <= policies'
    requires NodeOwners(users, nodes) && DomainPendingDisabled(nodes) && PastPending(nodes, policies) && NodesDistinct(nodes) && OwnerRulesHome(rules, nodes, tailnets)
    requires forall p :: p in grants && p.node in nodes && p.node != n && nodes[p.node].state.Pending? ==> grants[p].state.Revoked?
    ensures var nodes' := nodes[n := row];
            && nodes'.Keys == nodes.Keys && NodeOwners(users, nodes') && DomainPendingDisabled(nodes') && PastPending(nodes', policies')
            && PendingRevoked(nodes', grants) && NodesDistinct(nodes') && OwnerRulesHome(rules, nodes', tailnets)
  {}

  lemma SessionsClosed(db: Database, n: Id, row: Node)
    requires OneSession(db.sessions) && SessionsCurrent(db.sessions, db.nodes) && SessionRefs(db.nodes.Keys, db.sessions) && n in db.nodes
    ensures var sessions := SessionsOfOthers(db, n);
            && OneSession(sessions) && SessionsCurrent(sessions, db.nodes[n := row]) && SessionRefs(db.nodes.Keys, sessions)
            && sessions.Keys <= db.sessions.Keys && SessionsCurrent(sessions, db.nodes)
  {}

  lemma SessionMinted(db: Database, s: NodeSession, row: Node)
    requires OneSession(db.sessions) && SessionsCurrent(db.sessions, db.nodes) && SessionRefs(db.nodes.Keys, db.sessions) && s.nodeId in db.nodes
    requires Serving(row.state) && row.instance == s.instanceId
    ensures var sessions := Minted(db, s);
            && OneSession(sessions) && SessionsCurrent(sessions, db.nodes[s.nodeId := row]) && SessionRefs(db.nodes.Keys, sessions)
            && sessions.Keys <= db.sessions.Keys + {s.token}
  {}

  /** A row that keeps serving with the same instance leaves the sessions current. */
  lemma SessionsStayCurrent(sessions: map<string, SessionRow>, nodes: map<Id, Node>, n: Id, row: Node)
    requires SessionsCurrent(sessions, nodes) && n in nodes && row.instance == nodes[n].instance && (Serving(nodes[n].state) ==> Serving(row.state))
    ensures SessionsCurrent(sessions, nodes[n := row])
  {}

  /** The tables after node `n`'s row, sessions and challenges are rewritten. */
  lemma NodeWrittenTables(db: Database, mid: Database, n: Id, row: Node)
    requires TablesSound(db)
    requires mid == db.(nodes := db.nodes[n := row], sessions := mid.sessions, challenges := mid.challenges,
                        enrollments := mid.enrollments, policies := mid.policies, grants := mid.grants, drawn := mid.drawn)
    requires RowFits(db.nodes, n, row, mid.policies.Keys, mid.grants)
    requires OneSession(mid.sessions) && SessionsCurrent(mid.sessions, mid.nodes) && SessionRefs(db.nodes.Keys, mid.sessions)
    requires FewChallenges(mid.challenges) && ChallengeRefs(db.nodes.Keys, mid.challenges)
    requires mid.enrollments.Keys <= db.nodes.Keys && CodesDrawn(mid.drawn, mid.enrollments)
    requires db.policies.Keys <= mid.policies.Keys <= db.nodes.Keys && BudgetsValid(mid.policies)
    requires mid.grants.Keys == db.grants.Keys && GrantsSound(mid.grants) && GrantIdsDrawn(mid.drawn, mid.grants)
    requires forall p :: p in db.grants && p.node != n ==> mid.grants[p] == db.grants[p]
    requires db.drawn <= mid.drawn && AllTokens(mid.drawn) && mid.sessions.Keys <= mid.drawn && mid.challenges.Keys <= mid.drawn
    ensures TablesSound(mid)
  {
    RowWritten(db.users.Keys, db.nodes, n, row, db.policies.Keys, mid.policies.Keys, mid.grants, db.rules, db.tailnets);
  }

  /** Only the row of `n` and per-node bookkeeping changed. */
  lemma BookkeepingOnly(db: Database, mid: Database, n: Id)
    requires n in db.nodes && n in mid.nodes && mid.nodes == db.nodes[n := mid.nodes[n]]
    requires mid.users == db.users && mid.tailnets == db.tailnets && mid.snapshots == db.snapshots && mid.retentions == db.retentions
    requires mid.rules == db.rules && mid.grants.Keys == db.grants.Keys
    requires forall p :: p in db.grants && p.node != n ==> mid.grants[p] == db.grants[p]
    requires forall m :: m in mid.policies && m != n ==> m in db.policies && mid.policies[m] == db.policies[m]
    ensures OtherNodesSame(db, mid, n)
  {}

  lemma SameDomainFits(nodes: map<Id, Node>, n: Id, row: Node, policies: set<Id>, grants: map<Pair, Grant>)
    requires NodesDistinct(nodes) && n in nodes && row.domain == nodes[n].domain && row.owner == nodes[n].owner && row.region == nodes[n].region
    requires !row.state.Pending? && n in policies && row.publicKey.Some? && (row.state.DomainPending? ==> !row.enabled)
    ensures RowFits(nodes, n, row, policies, grants)
  {}

  lemma DrawnGrows(drawn: set<string>, x: string, enrollments: map<Id, Enrollment>, grants: map<Pair, Grant>)
    requires AllTokens(drawn) && IsToken(x) && CodesDrawn(drawn, enrollments) && GrantIdsDrawn(drawn, grants)
    ensures AllTokens(drawn + {x}) && CodesDrawn(drawn + {x}, enrollments) && GrantIdsDrawn(drawn + {x}, grants)
  {}

  lemma CodeKept(drawn: set<string>, enrollments: map<Id, Enrollment>, n: Id, e: Enrollment)
    requires CodesDrawn(drawn, enrollments) && e.code in drawn
    ensures CodesDrawn(drawn, enrollments[n := e])
  {}

  lemma FirstPolicyBudget(policies: map<Id, PolicyRow>, n: Id)
    requires BudgetsValid(policies)
    ensures BudgetsValid(policies[n := DEFAULT_POLICY])
  {}

  // The transactions.

  lemma CreateNodeTables(db: Database, actor: Actor, id: Id, code: string, domain: string, now: int)
    requires TablesSound(db) && IsToken(id) && id !in db.drawn && IsToken(code) && code !in db.drawn && id != code
    ensures var tx := CreateNode(db, actor, id, code, domain, now); tx.Commit? ==> TablesSound(tx.db)
  {
    var tx := CreateNode(db, actor, id, code, domain, now);
    if tx.Commit? {
      var row := tx.db.nodes[id];
      var mid := db.(nodes := db.nodes[id := row], drawn := db.drawn + {id});
      NewNodeRows(db, id, row);
      assert TablesSound(mid);
      EnrollmentTables(mid, id, code, now);
    }
  }

  lemma NewNodeDistinct(nodes: map<Id, Node>, id: Id, row: Node)
    requires NodesDistinct(nodes) && FIRST_REGION <= row.region <= LAST_REGION
    requires forall n :: n in nodes ==> nodes[n].region != row.region && nodes[n].domain != row.domain
    ensures NodesDistinct(nodes[id := row])
  {}

  lemma NewNodeUnreferenced(db: Database, id: Id, row: Node)
    requires References(db) && id !in db.nodes && row.owner in db.users
    ensures References(db.(nodes := db.nodes[id := row]))
  {}

  lemma NewNodePending(db: Database, id: Id, row: Node)
    requires References(db) && NodesSound(db) && id !in db.nodes && row.state.Pending?
    requires OwnerRulesHome(db.rules, db.nodes, db.tailnets)
    ensures DomainPendingDisabled(db.nodes[id := row]) && PastPending(db.nodes[id := row], db.policies.Keys)
    ensures PendingRevoked(db.nodes[id := row], db.grants) && SessionsCurrent(db.sessions, db.nodes[id := row])
    ensures OwnerRulesHome(db.rules, db.nodes[id := row], db.tailnets)
  {
    hide NodesDistinct, FewChallenges, OneSession, NodeOwners, TailnetOwners, ChallengeRefs;
  }

  lemma NewNodeRows(db: Database, id: Id, row: Node)
    requires TablesSound(db) && IsToken(id) && id !in db.drawn
    requires row.owner in db.users && row.state.Pending? && FIRST_REGION <= row.region <= LAST_REGION
    requires forall n :: n in db.nodes ==> db.nodes[n].region != row.region && db.nodes[n].domain != row.domain
    ensures TablesSound(db.(nodes := db.nodes[id := row], drawn := db.drawn + {id}))
  {
    NewNodeDistinct(db.nodes, id, row);
    NewNodeUnreferenced(db, id, row);
    NewNodePending(db, id, row);
    DrawnGrows(db.drawn, id, db.enrollments, db.grants);
    hide NodesDistinct, FewChallenges, OneSession, PastPending, PendingRevoked, SessionsCurrent, OwnerRulesHome;
    hide DomainPendingDisabled;
    hide SnapshotsSound, CredentialsSound, RulesValid, BudgetsValid, GrantsSound, PairRefs, NodeOwners, TailnetOwners;
    hide SessionRefs, ChallengeRefs, CodesDrawn, GrantIdsDrawn, AllTokens;
  }

  lemma RowUnchangedFits(db: Database, n: Id)
    requires NodesSound(db) && n in db.nodes
    ensures RowFits(db.nodes, n, db.nodes[n], db.policies.Keys, db.grants)
  {
    hide FewChallenges, OneSession, SessionsCurrent;
  }

  lemma EnrollmentTables(db: Database, n: Id, code: string, now: int)
    requires TablesSound(db) && n in db.nodes && IsToken(code)
    ensures TablesSound(WithEnrollment(db, n, code, now))
  {
    hide NodesDistinct, FewChallenges, OneSession, PastPending, PendingRevoked, SessionsCurrent, OwnerRulesHome;
    hide DomainPendingDisabled, RowFits;
    hide SnapshotsSound, CredentialsSound, RulesValid, BudgetsValid, GrantsSound, PairRefs, NodeOwners, TailnetOwners;
    hide SessionRefs, ChallengeRefs, CodesDrawn, GrantIdsDrawn, AllTokens;
    ChallengesDropped(db, n);
    DrawnGrows(db.drawn, code, db.enrollments, db.grants);
    var mid := WithEnrollment(db, n, code, now);
    CodeKept(mid.drawn, db.enrollments, n, mid.enrollments[n]);
    RowUnchangedFits(db, n);
    assert mid.nodes == db.nodes;
    NodeWrittenTables(db, mid, n, db.nodes[n]);
  }

  lemma RevokedGrantsSound(db: Database, n: Id)
    requires GrantsSound(db.grants) && GrantIdsDrawn(db.drawn, db.grants)
    ensures var grants := RevokedGrants(db, n);
            && GrantsSound(grants) && GrantIdsDrawn(db.drawn, grants) && grants.Keys == db.grants.Keys
            && (forall p :: p in grants && p.node == n ==> grants[p].state.Revoked?)
            && (forall p :: p in grants && p.node != n ==> grants[p] == db.grants[p])
  {}

  lemma ReleasedRowFits(db: Database, n: Id)
    requires NodesDistinct(db.nodes) && n in db.nodes
    ensures RowFits(db.nodes, n, Released(db, n).nodes[n], db.policies.Keys, RevokedGrants(db, n))
  {}

  lemma CodesKeptWithout(drawn: set<string>, enrollments: map<Id, Enrollment>, n: Id)
    requires CodesDrawn(drawn, enrollments)
    ensures CodesDrawn(drawn, enrollments - {n})
  {}

  lemma ReleasedTables(db: Database, n: Id)
    requires TablesSound(db) && n in db.nodes
    ensures TablesSound(Released(db, n))
  {
    hide NodesDistinct, FewChallenges, OneSession, PastPending, PendingRevoked, SessionsCurrent, OwnerRulesHome;
    hide DomainPendingDisabled, RowFits;
    hide SnapshotsSound, CredentialsSound, RulesValid, BudgetsValid, GrantsSound, PairRefs, NodeOwners, TailnetOwners;
    hide SessionRefs, ChallengeRefs, CodesDrawn, GrantIdsDrawn, AllTokens;
    var mid := Released(db, n);
    RevokedGrantsSound(db, n);
    SessionsClosed(db, n, mid.nodes[n]);
    ChallengesDropped(db, n);
    CodesKeptWithout(db.drawn, db.enrollments, n);
    if n in db.policies { SameBudgetValid(db.policies, n, mid.policies[n]); }
    ReleasedRowFits(db, n);
    NodeWrittenTables(db, mid, n, mid.nodes[n]);
  }

  lemma IssueEnrollmentTables(db: Database, actor: Actor, n: Id, code: string, now: int)
    requires TablesSound(db) && IsToken(code)
    ensures var tx := IssueEnrollment(db, actor, n, code, now); tx.Commit? ==> TablesSound(tx.db)
  {
    hide TablesSound, Released, WithEnrollment;
    if n in db.nodes {
      EnrollmentTables(db, n, code, now);
      ReleasedTables(db, n);
      ReleasedKeepsNode(db, n);
      EnrollmentTables(Released(db, n), n, code, now);
    }
  }

  lemma ReleasedKeepsNode(db: Database, n: Id)
    requires n in db.nodes
    ensures n in Released(db, n).nodes
  {}

  lemma ReleaseNodeTables(db: Database, token: string, now: int)
    requires TablesSound(db)
    ensures var tx := ReleaseNode(db, token, now); tx.Commit? ==> TablesSound(tx.db)
  {
    hide TablesSound, Released;
    if token in db.sessions && db.sessions[token].node in db.nodes { ReleasedTables(db, db.sessions[token].node); }
  }

  lemma EnrollmentChallengeTables(env: Env, db: Database, code: string, key: string, instance: string, nonce: string, now: int)
    requires TablesSound(db) && IsToken(nonce) && nonce !in db.drawn
    ensures var tx := EnrollmentChallenge(env, db, code, key, instance, nonce, now); tx.Commit? ==> TablesSound(tx.db)
  {
    hide TablesSound, NewChallenge;
    var tx := EnrollmentChallenge(env, db, code, key, instance, nonce, now);
    if tx.Commit? {
      var n :| CodeOpen(db, n, code, key, now) && tx == NewChallenge(env, db, ForEnroll, n, db.nodes[n].domain, key, instance, nonce, now);
      NewChallengeTables(env, db, ForEnroll, n, db.nodes[n].domain, key, instance, nonce, now);
    }
  }

  lemma SessionChallengeTables(env: Env, db: Database, n: Id, instance: string, nonce: string, now: int)
    requires TablesSound(db) && IsToken(nonce) && nonce !in db.drawn
    ensures var tx := SessionChallenge(env, db, n, instance, nonce, now); tx.Commit? ==> TablesSound(tx.db)
  {
    hide TablesSound, NewChallenge;
    if n in db.nodes && db.nodes[n].publicKey.Some? {
      var purpose := if db.nodes[n].state.DomainPending? then ForDomainChange else ForSession;
      NewChallengeTables(env, db, purpose, n, db.nodes[n].domain, db.nodes[n].publicKey.value, instance, nonce, now);
    }
  }

  /** What an enrollment writes: the node bound to the proven key and instance, its policy row, one session, the consumed code. */
  lemma EnrollEffect(env: Env, db: Database, req: EnrollmentRequest, token: string, now: int)
    ensures var tx, c, n := EnrollNode(env, db, req, token, now), req.challenge, req.challenge.nodeId;
            tx.Commit? ==>
              && ChallengeProven(env, db, c, req.signature, ForEnroll, now) && EnrollmentFits(db, c) && n in db.enrollments
              && db.enrollments[n].code == req.code && db.enrollments[n].consumedAt == 0 && tx.rebuild == {n}
              && n in tx.db.nodes && n in tx.db.enrollments
              && tx.db.nodes[n] == db.nodes[n].(publicKey := Some(c.publicKey), instance := c.instanceId, state := Registered,
                                                leaseUntil := now + LEASE_SECONDS, domainVerifiedAt := now)
              && tx.db.enrollments[n] == db.enrollments[n].(consumedAt := now, request := Some(req), response := Some(NewSession(env, n, c.instanceId, token, now)))
              && tx.db.policies == (if n in db.policies then db.policies else db.policies[n := DEFAULT_POLICY])
              && tx.db == db.(nodes := db.nodes[n := tx.db.nodes[n]], policies := tx.db.policies, challenges := Spent(db.challenges, c.nonce, now),
                              sessions := Minted(db, NewSession(env, n, c.instanceId, token, now)),
                              enrollments := db.enrollments[n := tx.db.enrollments[n]], drawn := db.drawn + {token})
  {}

  lemma EnrollmentCodeDrawn(db: Database, n: Id)
    requires TokensDrawn(db) && n in db.enrollments
    ensures db.enrollments[n].code in db.drawn
  {}

  lemma EnrollTables(env: Env, db: Database, req: EnrollmentRequest, token: string, now: int)
    requires TablesSound(db) && IsToken(token) && token !in db.drawn
    ensures var tx := EnrollNode(env, db, req, token, now); tx.Commit? ==> TablesSound(tx.db)
  {
    hide NodesDistinct, FewChallenges, OneSession, PastPending, PendingRevoked, SessionsCurrent, OwnerRulesHome;
    hide DomainPendingDisabled, RowFits;
    hide SnapshotsSound, CredentialsSound, RulesValid, BudgetsValid, GrantsSound, PairRefs, NodeOwners, TailnetOwners;
    hide SessionRefs, ChallengeRefs, CodesDrawn, GrantIdsDrawn, AllTokens;
    hide EnrollNode, ChallengeProven, Minted, Spent;
    var tx, c, n := EnrollNode(env, db, req, token, now), req.challenge, req.challenge.nodeId;
    EnrollEffect(env, db, req, token, now);
    if tx.Commit? {
      var row := tx.db.nodes[n];
      SessionMinted(db, NewSession(env, n, c.instanceId, token, now), row);
      ChallengeSpent(db, c.nonce, now);
      DrawnGrows(db.drawn, token, db.enrollments, db.grants);
      assert db.enrollments[n].code in tx.db.drawn by { EnrollmentCodeDrawn(db, n); }
      CodeKept(tx.db.drawn, db.enrollments, n, tx.db.enrollments[n]);
      FirstPolicyBudget(db.policies, n);
      SameDomainFits(db.nodes, n, row, tx.db.policies.Keys, tx.db.grants);
      NodeWrittenTables(db, tx.db, n, row);
    }
  }

  /** What a renewal writes: either the clone conflict, or the renewed row with one session. */
  lemma RenewEffect(env: Env, db: Database, c: Challenge, signature: string, token: string, now: int)
    ensures var tx, n := RenewSession(env, db, c, signature, token, now), c.nodeId;
            tx.Commit? ==>
              && ChallengeProven(env, db, c, signature, c.purpose, now) && RenewalFits(db, c) && n in tx.db.nodes
              && tx.db == db.(nodes := db.nodes[n := tx.db.nodes[n]], challenges := Spent(db.challenges, c.nonce, now), sessions := tx.db.sessions, drawn := tx.db.drawn)
              && if Clone(db.nodes[n], c.instanceId, now) then
                   && tx.db.nodes[n] == db.nodes[n].(state := IdentityConflict) && tx.db.sessions == SessionsOfOthers(db, n) && tx.db.drawn == db.drawn && tx.rebuild == {n}
                 else
                   && tx.db.nodes[n] == db.nodes[n].(instance := c.instanceId, leaseUntil := now + LEASE_SECONDS,
                                                     state := tx.db.nodes[n].state, domainVerifiedAt := tx.db.nodes[n].domainVerifiedAt)
                   && tx.db.nodes[n].state == (if db.nodes[n].state.DomainPending? then Registered else db.nodes[n].state)
                   && tx.db.nodes[n] == RenewedNode(db.nodes[n], c, now)
                   && tx.db.sessions == Minted(db, NewSession(env, n, c.instanceId, token, now)) && tx.db.drawn == db.drawn + {token} && tx.rebuild == {}
  {}

  lemma PastPendingRow(db: Database, n: Id)
    requires NodesSound(db) && n in db.nodes && !db.nodes[n].state.Pending?
    ensures n in db.policies && db.nodes[n].publicKey.Some? && (db.nodes[n].state.DomainPending? ==> !db.nodes[n].enabled)
  {
    hide NodesDistinct, FewChallenges, OneSession, PendingRevoked, SessionsCurrent;
  }

  lemma RenewTables(env: Env, db: Database, c: Challenge, signature: string, token: string, now: int)
    requires TablesSound(db) && IsToken(token) && token !in db.drawn
    ensures var tx := RenewSession(env, db, c, signature, token, now); tx.Commit? ==> TablesSound(tx.db)
  {
    hide NodesDistinct, FewChallenges, OneSession, PastPending, PendingRevoked, SessionsCurrent, OwnerRulesHome;
    hide DomainPendingDisabled, RowFits;
    hide SnapshotsSound, CredentialsSound, RulesValid, BudgetsValid, GrantsSound, PairRefs, NodeOwners, TailnetOwners;
    hide SessionRefs, ChallengeRefs, CodesDrawn, GrantIdsDrawn, AllTokens;
    hide RenewSession, ChallengeProven, Minted, Spent;
    var tx, n := RenewSession(env, db, c, signature, token, now), c.nodeId;
    RenewEffect(env, db, c, signature, token, now);
    if tx.Commit? { PastPendingRow(db, n); }
    if tx.Commit? {
      var row := tx.db.nodes[n];
      ChallengeSpent(db, c.nonce, now);
      DrawnGrows(db.drawn, token, db.enrollments, db.grants);
      SameDomainFits(db.nodes, n, row, db.policies.Keys, db.grants);
      if Clone(db.nodes[n], c.instanceId, now) {
        SessionsClosed(db, n, row);
      } else {
        SessionMinted(db, NewSession(env, n, c.instanceId, token, now), row);
      }
      NodeWrittenTables(db, tx.db, n, row);
    }
  }

  lemma RecoverTables(db: Database, actor: Actor, n: Id, instance: string, now: int)
    requires TablesSound(db)
    ensures var tx := RecoverInstance(db, actor, n, instance, now); tx.Commit? ==> TablesSound(tx.db)
  {
    var tx := RecoverInstance(db, actor, n, instance, now);
    if tx.Commit? {
      SessionsClosed(db, n, tx.db.nodes[n]);
      ChallengesDropped(db, n);
      NodeWrittenTables(db, tx.db, n, tx.db.nodes[n]);
    }
  }

  lemma ConfirmedGrantsSound(db: Database, n: Id, now: int)
    requires GrantsSound(db.grants) && GrantIdsDrawn(db.drawn, db.grants) && PendingRevoked(db.nodes, db.grants)
    ensures var grants := ConfirmedGrants(db, n, now);
            && GrantsSound(grants) && GrantIdsDrawn(db.drawn, grants) && grants.Keys == db.grants.Keys
            && (forall p :: p in grants && p.node != n ==> grants[p] == db.grants[p])
            && (forall p :: p in grants ==> grants[p].state == db.grants[p].state)
  {}

  lemma HeartbeatTables(db: Database, token: string, now: int)
    requires TablesSound(db)
    ensures var tx := NodeHeartbeat(db, token, now); tx.Commit? ==> TablesSound(tx.db)
  {
    var tx := NodeHeartbeat(db, token, now);
    if tx.Commit? {
      var n := db.sessions[token].node;
      ConfirmedGrantsSound(db, n, now);
      SessionsStayCurrent(db.sessions, db.nodes, n, tx.db.nodes[n]);
      NodeWrittenTables(db, tx.db, n, tx.db.nodes[n]);
    }
  }

  lemma AckedRowEffect(row: PolicyRow, a: Ack, now: int)
    ensures var r := AckedRow(row, a, now);
            r.Ok? ==>
              && a.revision <= row.desired && r.value == row.(received := r.value.received, applied := r.value.applied, usable := r.value.usable)
              && (a.state.AckReceived? ==> r.value.received == a.revision >= row.received && r.value.applied == row.applied)
              && (a.state.AckApplied? ==> r.value.applied == a.revision >= row.applied && a.revision <= row.received && r.value.received == row.received)
              && (!a.state.AckReceived? && !a.state.AckApplied? ==> r.value == row)
  {}

  /** What an acknowledgement may write: the acknowledgement columns and the display state of the node that sent it. */
  lemma AcknowledgeEffect(db: Database, token: string, a: Ack, now: int)
    ensures var tx := Acknowledge(db, token, a, now);
            tx.Commit? ==>
              && token in db.sessions && tx.rebuild == {}
              && var n := db.sessions[token].node;
                 && Authenticates(db, token, n, now) && n in db.policies && n in db.nodes && n in tx.db.nodes && n in tx.db.policies
                 && AckedRow(db.policies[n], a, now) == Ok(tx.db.policies[n])
                 && tx.db == db.(nodes := db.nodes[n := tx.db.nodes[n]], policies := db.policies[n := tx.db.policies[n]])
                 && Serving(tx.db.nodes[n].state) && tx.db.nodes[n] == db.nodes[n].(state := tx.db.nodes[n].state)
  {}

  lemma SameBudgetValid(policies: map<Id, PolicyRow>, n: Id, row: PolicyRow)
    requires BudgetsValid(policies) && n in policies && SameBudget(policies[n], row)
    ensures BudgetsValid(policies[n := row])
  {}

  lemma AcknowledgeTables(db: Database, token: string, a: Ack, now: int)
    requires TablesSound(db)
    ensures var tx := Acknowledge(db, token, a, now); tx.Commit? ==> TablesSound(tx.db)
  {
    hide NodesDistinct, FewChallenges, OneSession, PastPending, PendingRevoked, SessionsCurrent, OwnerRulesHome;
    hide DomainPendingDisabled, RowFits;
    hide SnapshotsSound, CredentialsSound, RulesValid, BudgetsValid, GrantsSound, PairRefs, NodeOwners, TailnetOwners;
    hide SessionRefs, ChallengeRefs, CodesDrawn, GrantIdsDrawn, AllTokens;
    hide Acknowledge, AckedRow;
    AcknowledgeEffect(db, token, a, now);
    var tx := Acknowledge(db, token, a, now);
    if tx.Commit? {
      var n := db.sessions[token].node;
      SessionsStayCurrent(db.sessions, db.nodes, n, tx.db.nodes[n]);
      AckedRowEffect(db.policies[n], a, now);
      SameBudgetValid(db.policies, n, tx.db.policies[n]);
      PastPendingRow(db, n);
      SameDomainFits(db.nodes, n, tx.db.nodes[n], tx.db.policies.Keys, db.grants);
      NodeWrittenTables(db, tx.db, n, tx.db.nodes[n]);
    }
  }

  lemma SetNodeEnabledTables(db: Database, actor: Actor, n: Id, on: bool)
    requires TablesSound(db)
    ensures var tx := SetNodeEnabled(db, actor, n, on); tx.Commit? ==> TablesSound(tx.db)
  {
    var tx := SetNodeEnabled(db, actor, n, on);
    if tx.Commit? {
      SessionsStayCurrent(db.sessions, db.nodes, n, tx.db.nodes[n]);
      NodeWrittenTables(db, tx.db, n, tx.db.nodes[n]);
    }
  }

  lemma ChangeDomainTables(db: Database, actor: Actor, n: Id, domain: string, connected: bool)
    requires TablesSound(db)
    ensures var tx := ChangeDomain(db, actor, n, domain, connected); tx.Commit? ==> TablesSound(tx.db)
  {
    var tx := ChangeDomain(db, actor, n, domain, connected);
    if tx.Commit? {
      SessionsClosed(db, n, tx.db.nodes[n]);
      ChallengesDropped(db, n);
      NodeWrittenTables(db, tx.db, n, tx.db.nodes[n]);
    }
  }

  lemma WithoutNodeReferences(db: Database, n: Id)
    requires References(db)
    ensures References(WithoutNode(db, n))
  {}

  lemma WithoutNodeNodes(db: Database, n: Id)
    requires NodesSound(db)
    ensures NodesSound(WithoutNode(db, n))
  {
    FewerChallenges(db.challenges, ChallengesOfOthers(db, n));
  }

  lemma WithoutNodeSharing(db: Database, n: Id)
    requires SharingSound(db)
    ensures SharingSound(WithoutNode(db, n))
  {}

  lemma DeleteNodeTables(db: Database, actor: Actor, n: Id, connected: bool)
    requires TablesSound(db)
    ensures var tx := DeleteNode(db, actor, n, connected); tx.Commit? ==> TablesSound(tx.db)
  {
    WithoutNodeReferences(db, n);
    WithoutNodeNodes(db, n);
    WithoutNodeSharing(db, n);
  }
}
