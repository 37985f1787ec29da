/** Which policies a node transaction must rebuild. Domain changes, ordinary renewals,
    acknowledgements and pausing a pending node rebuild nothing; these lemmas show that
    they do not have to. */
module NodeCovers {
  import opened Ids
  import opened Tables
  import opened PolicyView
  import opened NodeTx
  import opened Invariants
  import opened GrantKeeps
  import opened NodeKeeps

  /** Node `n`'s own row changed in a way its view does not see. */
  lemma OwnViewKept(env: Env, db: Database, mid: Database, n: Id)
    requires References(db) && n in db.nodes && n in mid.nodes && n in db.policies && n in mid.policies
    requires mid.users == db.users && mid.tailnets == db.tailnets && mid.snapshots == db.snapshots && mid.retentions == db.retentions
    requires mid.grants == db.grants && mid.rules == db.rules
    requires mid.nodes[n].owner == db.nodes[n].owner && NodeServes(mid, n) == NodeServes(db, n)
    requires AckOrder(mid.policies[n]) && SameBudget(db.policies[n], mid.policies[n])
    requires mid.policies[n].desired == db.policies[n].desired && mid.policies[n].body == db.policies[n].body
    ensures NeedsNoBuild(db, mid, n)
  {
    UntouchedTables(db, mid, n);
  }

  lemma CreateNodeCovers(env: Env, db: Database, actor: Actor, id: Id, code: string, domain: string, now: int)
    requires References(db) && RowsReady(env, db.policies) && id !in db.nodes
    ensures var tx := CreateNode(db, actor, id, code, domain, now); tx.Commit? ==> Covered(env, db, tx.db, tx.rebuild)
  {
    var tx := CreateNode(db, actor, id, code, domain, now);
    if tx.Commit? {
      assert OtherNodesSame(db, tx.db, id);
      OneNodeCovers(env, db, tx.db, id, {});
    }
  }

  lemma EnrollmentIssuedCovers(env: Env, db: Database, n: Id, code: string, now: int)
    requires References(db) && RowsReady(env, db.policies) && n in db.nodes
    ensures Covered(env, db, WithEnrollment(db, n, code, now), {})
  {
    var mid := WithEnrollment(db, n, code, now);
    BookkeepingOnly(db, mid, n);
    if n in db.policies { OwnViewKept(env, db, mid, n); }
    OneNodeCovers(env, db, mid, n, {});
  }

  lemma ReleaseCovers(env: Env, db: Database, mid: Database, n: Id)
    requires References(db) && RowsReady(env, db.policies) && n in db.nodes
    requires mid == Released(db, n).(enrollments := mid.enrollments, challenges := mid.challenges, drawn := mid.drawn)
    ensures Covered(env, db, mid, OwnPolicy(db, n))
  {
    BookkeepingOnly(db, mid, n);
    OneNodeCovers(env, db, mid, n, OwnPolicy(db, n));
  }

  lemma ChallengeCovers(env: Env, db: Database, mid: Database, n: Id)
    requires References(db) && RowsReady(env, db.policies) && n in db.nodes
    requires mid == db.(challenges := mid.challenges, drawn := mid.drawn)
    ensures Covered(env, db, mid, {})
  {
    assert mid.nodes == db.nodes[n := mid.nodes[n]];
    BookkeepingOnly(db, mid, n);
    if n in db.policies { OwnViewKept(env, db, mid, n); }
    OneNodeCovers(env, db, mid, n, {});
  }

  lemma IssueEnrollmentCovers(env: Env, db: Database, actor: Actor, n: Id, code: string, now: int)
    requires References(db) && RowsReady(env, db.policies)
    ensures var tx := IssueEnrollment(db, actor, n, code, now); tx.Commit? ==> Covered(env, db, tx.db, tx.rebuild)
  {
    hide Covered, RowsReady, References;
    if n in db.nodes {
      EnrollmentIssuedCovers(env, db, n, code, now);
      ReleaseCovers(env, db, WithEnrollment(Released(db, n), n, code, now), n);
    }
  }

  lemma ReleaseNodeCovers(env: Env, db: Database, token: string, now: int)
    requires References(db) && RowsReady(env, db.policies)
    ensures var tx := ReleaseNode(db, token, now); tx.Commit? ==> Covered(env, db, tx.db, tx.rebuild)
  {
    hide Covered, RowsReady, References;
    var tx := ReleaseNode(db, token, now);
    if tx.Commit? { ReleaseCovers(env, db, tx.db, db.sessions[token].node); }
  }

  lemma EnrollmentChallengeCovers(env: Env, db: Database, code: string, key: string, instance: string, nonce: string, now: int)
    requires References(db) && RowsReady(env, db.policies)
    ensures var tx := EnrollmentChallenge(env, db, code, key, instance, nonce, now); tx.Commit? ==> Covered(env, db, tx.db, tx.rebuild)
  {
    hide Covered, RowsReady, References;
    var tx := EnrollmentChallenge(env, db, code, key, instance, nonce, now);
    if tx.Commit? {
      var n :| CodeOpen(db, n, code, key, now) && tx == NewChallenge(env, db, ForEnroll, n, db.nodes[n].domain, key, instance, nonce, now);
      ChallengeCovers(env, db, tx.db, n);
    }
  }

  lemma SessionChallengeCovers(env: Env, db: Database, n: Id, instance: string, nonce: string, now: int)
    requires References(db) && RowsReady(env, db.policies)
    ensures var tx := SessionChallenge(env, db, n, instance, nonce, now); tx.Commit? ==> Covered(env, db, tx.db, tx.rebuild)
  {
    hide Covered, RowsReady, References;
    var tx := SessionChallenge(env, db, n, instance, nonce, now);
    if tx.Commit? { ChallengeCovers(env, db, tx.db, n); }
  }

  lemma EnrollCovers(env: Env, db: Database, req: EnrollmentRequest, token: string, now: int)
    requires References(db) && RowsReady(env, db.policies)
    ensures var tx := EnrollNode(env, db, req, token, now); tx.Commit? ==> Covered(env, db, tx.db, tx.rebuild)
  {
    var tx, n := EnrollNode(env, db, req, token, now), req.challenge.nodeId;
    EnrollEffect(env, db, req, token, now);
    if tx.Commit? {
      BookkeepingOnly(db, tx.db, n);
      OneNodeCovers(env, db, tx.db, n, {n});
    }
  }

  /** A renewal that ends a domain change makes the node serve again, but it is still disabled,
      so its policy stays empty without a rebuild. */
  lemma RenewCovers(env: Env, db: Database, c: Challenge, signature: string, token: string, now: int)
    requires References(db) && RowsReady(env, db.policies) && NodesSound(db)
    ensures var tx := RenewSession(env, db, c, signature, token, now); tx.Commit? ==> Covered(env, db, tx.db, tx.rebuild)
  {
    hide NodesDistinct, FewChallenges, OneSession, PendingRevoked, SessionsCurrent;
    hide RenewSession, ChallengeProven, Minted, Spent;
    var tx, n := RenewSession(env, db, c, signature, token, now), c.nodeId;
    RenewEffect(env, db, c, signature, token, now);
    if tx.Commit? {
      BookkeepingOnly(db, tx.db, n);
      PastPendingRow(db, n);
      if !Clone(db.nodes[n], c.instanceId, now) { OwnViewKept(env, db, tx.db, n); }
      OneNodeCovers(env, db, tx.db, n, tx.rebuild);
    }
  }

  lemma RecoverCovers(env: Env, db: Database, actor: Actor, n: Id, instance: string, now: int)
    requires References(db) && RowsReady(env, db.policies)
    ensures var tx := RecoverInstance(db, actor, n, instance, now); tx.Commit? ==> Covered(env, db, tx.db, tx.rebuild)
  {
    var tx := RecoverInstance(db, actor, n, instance, now);
    if tx.Commit? {
      BookkeepingOnly(db, tx.db, n);
      OneNodeCovers(env, db, tx.db, n, {n});
    }
  }

  lemma HeartbeatCovers(env: Env, db: Database, token: string, now: int)
    requires References(db) && RowsReady(env, db.policies)
    ensures var tx := NodeHeartbeat(db, token, now); tx.Commit? ==> Covered(env, db, tx.db, tx.rebuild)
  {
    var tx := NodeHeartbeat(db, token, now);
    if tx.Commit? {
      var n := db.sessions[token].node;
      BookkeepingOnly(db, tx.db, n);
      OneNodeCovers(env, db, tx.db, n, {n});
    }
  }

  /** An acknowledgement moves a serving node between serving states only. */
  lemma AcknowledgeCovers(env: Env, db: Database, token: string, a: Ack, now: int)
    requires References(db) && RowsReady(env, db.policies)
    ensures var tx := Acknowledge(db, token, a, now); tx.Commit? ==> Covered(env, db, tx.db, tx.rebuild)
  {
    hide Acknowledge, AckedRow;
    AcknowledgeEffect(db, token, a, now);
    var tx := Acknowledge(db, token, a, now);
    if tx.Commit? {
      var n := db.sessions[token].node;
      BookkeepingOnly(db, tx.db, n);
      AckedRowEffect(db.policies[n], a, now);
      AckedOrder(env, db.policies, n, a, now);
      OwnViewKept(env, db, tx.db, n);
      OneNodeCovers(env, db, tx.db, n, {});
    }
  }

  lemma AckedOrder(env: Env, policies: map<Id, PolicyRow>, n: Id, a: Ack, now: int)
    requires RowsReady(env, policies) && n in policies
    ensures var r := AckedRow(policies[n], a, now); r.Ok? ==> AckOrder(r.value)
  {}

  lemma SetNodeEnabledCovers(env: Env, db: Database, actor: Actor, n: Id, on: bool)
    requires References(db) && RowsReady(env, db.policies)
    ensures var tx := SetNodeEnabled(db, actor, n, on); tx.Commit? ==> Covered(env, db, tx.db, tx.rebuild)
  {
    var tx := SetNodeEnabled(db, actor, n, on);
    if tx.Commit? {
      BookkeepingOnly(db, tx.db, n);
      if n in db.policies && db.nodes[n].state.Pending? { OwnViewKept(env, db, tx.db, n); }
      OneNodeCovers(env, db, tx.db, n, tx.rebuild);
    }
  }

  lemma DeleteNodeCovers(env: Env, db: Database, actor: Actor, n: Id, connected: bool)
    requires References(db) && RowsReady(env, db.policies)
    ensures var tx := DeleteNode(db, actor, n, connected); tx.Commit? ==> Covered(env, db, tx.db, tx.rebuild)
  {
    assert OtherNodesSame(db, WithoutNode(db, n), n);
    OneNodeCovers(env, db, WithoutNode(db, n), n, {});
  }

  /** Only a disabled node may change its domain, and a disabled node's policy is empty in any state. */
  lemma ChangeDomainCovers(env: Env, db: Database, actor: Actor, n: Id, domain: string, connected: bool)
    requires References(db) && RowsReady(env, db.policies)
    ensures var tx := ChangeDomain(db, actor, n, domain, connected); tx.Commit? ==> Covered(env, db, tx.db, tx.rebuild)
  {
    var tx := ChangeDomain(db, actor, n, domain, connected);
    if tx.Commit? {
      BookkeepingOnly(db, tx.db, n);
      OwnViewKept(env, db, tx.db, n);
      OneNodeCovers(env, db, tx.db, n, {});
    }
  }
}
