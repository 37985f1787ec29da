/** What each transaction on nodes does, as the tables before and after: codes, challenges, sessions, leases, reports,
    release and removal, with their times as numbers, and which answer everyone else gets
    (internal/control/nodes.go, node_self.go, control_stream.go, resources.go, policy.go). */
module NodeMeans {
  import opened Ids
  import opened Protocol
  import opened Tables
  import opened AccountTx
  import opened NodeTx
  import opened Transactions
  import opened NodeKeeps
  import opened Effects
  import opened Meaning
  import opened AccountMeans

  // Creation and codes.

  ghost predicate RegionUsed(db: Database, r: int) { exists n :: n in db.nodes && db.nodes[n].region == r }

  /** The smallest region from 900 to 999 that no node has. */
  ghost predicate FirstRegion(db: Database, r: int) {
    900 <= r <= 999 && !RegionUsed(db, r) && forall k :: 900 <= k < r ==> RegionUsed(db, k)
  }

  ghost predicate DomainUsed(db: Database, domain: string, except: Id) { exists n :: n in db.nodes && n != except && db.nodes[n].domain == domain }

  function NewCode(owner: Id, code: string, now: int): Enrollment { Enrollment(owner, code, now + 1800, 0, None, None) }

  ghost predicate NodeCreated(db: Database, db': Database, actor: Actor, id: Id, code: string, domain: string, now: int) {
    && actor.role != Member && ActsFor(db, actor, actor.id) && actor.id in db.users && !DomainUsed(db, domain, id)
    && id in db'.nodes && FirstRegion(db, db'.nodes[id].region)
    && db'.nodes == db.nodes[id := Node(actor.id, domain, db'.nodes[id].region, None, Pending, "", 0, true, 0)]
    && WithoutChallenges(db.challenges, db'.challenges, id)
    && db' == db.(nodes := db'.nodes, enrollments := db.enrollments[id := NewCode(actor.id, code, now)], challenges := db'.challenges,
                  drawn := db.drawn + {id} + {code}, policies := db'.policies)
    && SameRows(db.policies, db'.policies)
  }

  lemma FirstFreeMeans(db: Database)
    ensures var r := FirstFree(UsedRegions(db), 900); if r == 0 then forall k :: 900 <= k <= 999 ==> RegionUsed(db, k) else FirstRegion(db, r)
  {
    hide FirstFree;
    assert forall k :: k in UsedRegions(db) <==> RegionUsed(db, k);
  }

  lemma CreateNodeMeans(db: Database, actor: Actor, id: Id, code: string, domain: string, now: int)
    ensures var tx := CreateNode(db, actor, id, code, domain, now);
            && tx != Keep && (tx.Commit? ==> NodeCreated(db, tx.db, actor, id, code, domain, now))
            && (tx == Abort(Forbidden) <==> actor.role == Member || !ActsFor(db, actor, actor.id))
            && (tx == Abort(Conflict) <==> actor.role != Member && ActsFor(db, actor, actor.id)
                                           && (actor.id !in db.users || DomainUsed(db, domain, id) || forall k :: 900 <= k <= 999 ==> RegionUsed(db, k)))
            && tx != Abort(Invalid) && tx != Abort(NotFound) && tx != Abort(Unauthorized)
  {
    hide FirstFree, UsedRegions, Known, Speaks, ActiveActor, RequireOwner, RegionUsed, Columns, WithoutChallenges, ChallengesOfOthers;
    FirstFreeMeans(db);
    Authority(db, actor, actor.id);
    RemovedRows(db.(nodes := db.nodes[id := Node(actor.id, domain, FirstFree(UsedRegions(db), FIRST_REGION), None, Pending, "", 0, true, 0)], drawn := db.drawn + {id}), id);
  }

  /** Every grant of the node is revoked, one revision on unless it was revoked before; the others stay. */
  ghost predicate GrantsRevoked(before: map<Pair, Grant>, after: map<Pair, Grant>, n: Id) {
    && after.Keys == before.Keys
    && forall p :: p in before ==>
         after[p] == if p.node == n && before[p].state != Revoked
                     then Grant(before[p].id, Revoked, before[p].revision + 1, before[p].explicitUntil, 0) else before[p]
  }

  /** The node is back to waiting for a code: no instance, lease, session, challenge or consent; key, owner and budget stay. */
  ghost predicate Unregistered(db: Database, db': Database, n: Id) {
    && n in db.nodes
    && db'.nodes == db.nodes[n := db.nodes[n].(state := Pending, instance := "", leaseUntil := 0, domainVerifiedAt := 0)]
    && WithoutSessions(db.sessions, db'.sessions, n) && WithoutChallenges(db.challenges, db'.challenges, n)
    && GrantsRevoked(db.grants, db'.grants, n) && db'.policies.Keys == db.policies.Keys
    && (forall m :: m in db.policies ==>
          Columns(db'.policies[m]) == if m == n then Columns(db.policies[m]).(received := 0, applied := 0, usable := false) else Columns(db.policies[m]))
  }

  lemma ReleasedMeans(db: Database, n: Id)
    requires n in db.nodes
    ensures Unregistered(db, Released(db, n), n) && Without(db.enrollments, Released(db, n).enrollments, n)
    ensures var r := Released(db, n);
            r == db.(nodes := r.nodes, sessions := r.sessions, challenges := r.challenges, enrollments := r.enrollments, grants := r.grants, policies := r.policies)
  {
    hide SessionsOfOthers, ChallengesOfOthers, WithoutSessions, WithoutChallenges, RevokedGrants, GrantsRevoked, Without;
    RemovedRows(db, n);
    Removed(db.enrollments, n);
    assert GrantsRevoked(db.grants, RevokedGrants(db, n), n) by { RevokedMeans(db, n); }
  }

  lemma RevokedMeans(db: Database, n: Id)
    ensures GrantsRevoked(db.grants, RevokedGrants(db, n), n)
  {}

  ghost predicate CodeIssued(db: Database, db': Database, actor: Actor, n: Id, code: string, now: int) {
    && n in db.nodes && ActsFor(db, actor, db.nodes[n].owner)
    && db'.enrollments == db.enrollments[n := NewCode(db.nodes[n].owner, code, now)] && db'.drawn == db.drawn + {code}
    && WithoutChallenges(db.challenges, db'.challenges, n)
    && (db.nodes[n].state == Pending ==>
          db' == db.(enrollments := db'.enrollments, challenges := db'.challenges, drawn := db'.drawn, policies := db'.policies) && SameRows(db.policies, db'.policies))
    && (db.nodes[n].state != Pending ==>
          && Unregistered(db, db', n)
          && db' == db.(nodes := db'.nodes, sessions := db'.sessions, challenges := db'.challenges, enrollments := db'.enrollments,
                        grants := db'.grants, policies := db'.policies, drawn := db'.drawn))
  }

  lemma IssuedAgain(db: Database, n: Id, code: string, now: int)
    requires n in db.nodes
    ensures n in Released(db, n).nodes
    ensures var r, mid := Released(db, n), WithEnrollment(Released(db, n), n, code, now);
            && mid.enrollments == db.enrollments[n := NewCode(db.nodes[n].owner, code, now)] && mid.drawn == db.drawn + {code}
            && mid.challenges == r.challenges && mid == r.(enrollments := mid.enrollments, challenges := mid.challenges, drawn := mid.drawn)
  {
    hide RevokedGrants, SessionsOfOthers;
    var r := Released(db, n);
    assert WithEnrollment(r, n, code, now).challenges == r.challenges;
  }

  lemma IssueEnrollmentMeans(db: Database, actor: Actor, n: Id, code: string, now: int)
    ensures var tx := IssueEnrollment(db, actor, n, code, now);
            && tx != Keep && (tx.Commit? ==> CodeIssued(db, tx.db, actor, n, code, now))
            && (tx == Abort(Forbidden) <==> !Known(db, actor) || (n in db.nodes && !Speaks(actor, db.nodes[n].owner)))
            && (tx == Abort(NotFound) <==> Known(db, actor) && n !in db.nodes)
            && tx != Abort(Invalid) && tx != Abort(Conflict) && tx != Abort(Unauthorized)
  {
    hide Released, Known, Speaks, ActiveActor, RequireOwner, Unregistered, WithoutChallenges, ChallengesOfOthers, Columns, Without;
    Authority(db, actor, if n in db.nodes then db.nodes[n].owner else "");
    if n in db.nodes {
      RemovedRows(db, n);
      ReleasedMeans(db, n);
      IssuedAgain(db, n, code, now);
      UnregisteredFrame(db, Released(db, n), WithEnrollment(Released(db, n), n, code, now), n);
    }
  }

  lemma UnregisteredFrame(db: Database, mid: Database, db': Database, n: Id)
    requires Unregistered(db, mid, n) && db'.nodes == mid.nodes && db'.sessions == mid.sessions && db'.challenges == mid.challenges
    requires db'.grants == mid.grants && SameRows(mid.policies, db'.policies)
    ensures Unregistered(db, db', n) && WithoutChallenges(db.challenges, db'.challenges, n)
  {
    hide WithoutSessions, WithoutChallenges, GrantsRevoked;
  }

  // Challenges.

  ghost predicate LiveChallenge(r: ChallengeRow, n: Id, now: int) { r.node == n && now < r.expiresAt && r.usedAt == 0 }

  ghost predicate ChallengeStored(env: Env, db: Database, db': Database, purpose: Purpose, n: Id, key: string, instance: string, nonce: string, now: int) {
    && n in db.nodes && |set k | k in db.challenges && LiveChallenge(db.challenges[k], n, now)| < 8
    && nonce in db'.challenges
    && db'.challenges[nonce] == ChallengeRow(n, Challenge(purpose, env.clusterId, n, db.nodes[n].domain, nonce, now + 120, key, instance), now + 120, 0)
    && (forall k :: k != nonce ==> (k in db'.challenges <==> k in db.challenges && (db.challenges[k].node == n ==> LiveChallenge(db.challenges[k], n, now))))
    && (forall k :: k != nonce && k in db'.challenges && k in db.challenges ==> db'.challenges[k] == db.challenges[k])
    && db' == db.(challenges := db'.challenges, drawn := db.drawn + {nonce}, policies := db'.policies) && SameRows(db.policies, db'.policies)
  }

  lemma NewChallengeMeans(env: Env, db: Database, purpose: Purpose, n: Id, key: string, instance: string, nonce: string, now: int)
    requires n in db.nodes
    ensures var tx := NewChallenge(env, db, purpose, n, db.nodes[n].domain, key, instance, nonce, now);
            && (tx.Commit? ==> ChallengeStored(env, db, tx.db, purpose, n, key, instance, nonce, now))
            && (!tx.Commit? ==> tx == Abort(Conflict) && |set k | k in db.challenges && LiveChallenge(db.challenges[k], n, now)| >= 8)
  {
    hide Columns, LiveChallenge, FreshChallenges, ChallengesOf;
    FreshMeans(db, n, now);
  }

  lemma FreshMeans(db: Database, n: Id, now: int)
    ensures var left := FreshChallenges(db, n, now);
            && ChallengesOf(left, n) == (set k | k in db.challenges && LiveChallenge(db.challenges[k], n, now))
            && (forall k :: k in left <==> k in db.challenges && (db.challenges[k].node == n ==> LiveChallenge(db.challenges[k], n, now)))
            && (forall k :: k in left && k in db.challenges ==> left[k] == db.challenges[k])
  {}

  /** The code was issued to the node's present owner, is neither expired nor used, and the key fits. */
  ghost predicate OpenFor(db: Database, n: Id, code: string, key: string, now: int) {
    && n in db.nodes && n in db.enrollments && UserOn(db, db.nodes[n].owner) && db.nodes[n].state == Pending
    && db.enrollments[n].owner == db.nodes[n].owner && db.enrollments[n].code == code && now < db.enrollments[n].expiresAt && db.enrollments[n].consumedAt == 0
    && (db.nodes[n].publicKey == None || db.nodes[n].publicKey == Some(key))
  }

  lemma CodeOpenMeans(db: Database, n: Id, code: string, key: string, now: int)
    ensures CodeOpen(db, n, code, key, now) <==> OpenFor(db, n, code, key, now)
  {}

  ghost predicate EnrollmentChallenged(env: Env, db: Database, db': Database, code: string, key: string, instance: string, nonce: string, now: int) {
    && |code| == 64 && |key| == 32 && ValidInstance(instance)
    && exists n :: OpenFor(db, n, code, key, now) && ChallengeStored(env, db, db', ForEnroll, n, key, instance, nonce, now)
  }

  lemma EnrollmentChallengeMeans(env: Env, db: Database, code: string, key: string, instance: string, nonce: string, now: int)
    ensures var tx := EnrollmentChallenge(env, db, code, key, instance, nonce, now);
            && tx != Keep && (tx.Commit? ==> EnrollmentChallenged(env, db, tx.db, code, key, instance, nonce, now))
            && (tx == Abort(Invalid) <==> |code| != 64 || |key| != 32 || !ValidInstance(instance))
            && (tx == Abort(Unauthorized) <==> |code| == 64 && |key| == 32 && ValidInstance(instance) && !exists n :: OpenFor(db, n, code, key, now))
            && tx != Abort(Forbidden) && tx != Abort(NotFound)
  {
    hide NewChallenge, ChallengeStored, ValidInstance, CodeOpen, OpenFor;
    forall n ensures CodeOpen(db, n, code, key, now) <==> OpenFor(db, n, code, key, now) ensures CodeOpen(db, n, code, key, now) ==> n in db.nodes {
      CodeOpenMeans(db, n, code, key, now);
      OpenHas(db, n, code, key, now);
    }
    if |code| == 64 && |key| == 32 && ValidInstance(instance) && exists n :: CodeOpen(db, n, code, key, now) {
      var n :| CodeOpen(db, n, code, key, now)
               && EnrollmentChallenge(env, db, code, key, instance, nonce, now) == NewChallenge(env, db, ForEnroll, n, db.nodes[n].domain, key, instance, nonce, now);
      NewChallengeMeans(env, db, ForEnroll, n, key, instance, nonce, now);
    }
  }

  /** The node may ask for a session, or for a proof of its new domain. */
  ghost predicate MayRenew(db: Database, n: Id) {
    && n in db.nodes && (Enlisted(db.nodes[n].state) || db.nodes[n].state == DomainPending) && UserOn(db, db.nodes[n].owner)
    && db.nodes[n].publicKey.Some? && |db.nodes[n].publicKey.value| == 32
  }

  ghost predicate SessionChallenged(env: Env, db: Database, db': Database, n: Id, instance: string, nonce: string, now: int) {
    && ValidInstance(instance) && MayRenew(db, n)
    && ChallengeStored(env, db, db', if db.nodes[n].state == DomainPending then ForDomainChange else ForSession, n, db.nodes[n].publicKey.value, instance, nonce, now)
  }

  lemma SessionChallengeMeans(env: Env, db: Database, n: Id, instance: string, nonce: string, now: int)
    ensures var tx := SessionChallenge(env, db, n, instance, nonce, now);
            && tx != Keep && (tx.Commit? ==> SessionChallenged(env, db, tx.db, n, instance, nonce, now))
            && (tx == Abort(Invalid) <==> !ValidInstance(instance))
            && (tx == Abort(Unauthorized) <==> ValidInstance(instance) && !MayRenew(db, n))
            && tx != Abort(Forbidden) && tx != Abort(NotFound)
  {
    hide NewChallenge, ChallengeStored, ValidInstance;
    if MayRenew(db, n) {
      NewChallengeMeans(env, db, ForSession, n, db.nodes[n].publicKey.value, instance, nonce, now);
      NewChallengeMeans(env, db, ForDomainChange, n, db.nodes[n].publicKey.value, instance, nonce, now);
    }
  }

  // Sessions.

  /** The answer proves the key in a challenge that this controller stored, unexpired and unused. */
  ghost predicate Proves(env: Env, db: Database, c: Challenge, signature: string, now: int) {
    && c.clusterId == env.clusterId && |c.publicKey| == 32 && |c.nonce| == 64 && |signature| == 64 && now < c.expiresAt
    && c.nonce in db.challenges && env.verifies(c.publicKey, c, signature)
    && db.challenges[c.nonce] == ChallengeRow(c.nodeId, c, db.challenges[c.nonce].expiresAt, 0) && now < db.challenges[c.nonce].expiresAt
  }

  ghost predicate Answered(before: map<string, ChallengeRow>, after: map<string, ChallengeRow>, nonce: string, now: int) {
    nonce in before && after == before[nonce := ChallengeRow(before[nonce].node, before[nonce].payload, before[nonce].expiresAt, now)]
  }

  /** The node has one session: this token, of this instance, for an hour. */
  ghost predicate OneSessionFor(before: map<string, SessionRow>, after: map<string, SessionRow>, n: Id, token: string, instance: string, now: int) {
    && token in after && after[token] == SessionRow(n, instance, now + 3600)
    && (forall k :: k != token ==> (k in after <==> k in before && before[k].node != n))
    && (forall k :: k != token && k in after && k in before ==> after[k] == before[k])
  }

  /** The session as it is answered: good for an hour, its lease for ninety seconds. */
  function SessionAnswer(env: Env, c: Challenge, token: string, now: int): NodeSession {
    NodeSession(env.clusterId, c.nodeId, c.instanceId, token, now + 3600, now + 90)
  }

  ghost predicate MayEnroll(env: Env, db: Database, req: EnrollmentRequest, now: int) {
    && |req.code| == 64 && OpenFor(db, req.challenge.nodeId, req.code, req.challenge.publicKey, now)
    && db.nodes[req.challenge.nodeId].domain == req.challenge.domain
    && req.challenge.purpose == ForEnroll && Proves(env, db, req.challenge, req.signature, now)
  }

  /** The code was used by this very request, and the session it was answered with has not expired. */
  ghost predicate HasReceipt(db: Database, req: EnrollmentRequest, now: int) {
    && |req.code| == 64 && req.challenge.nodeId in db.nodes && req.challenge.nodeId in db.enrollments
    && UserOn(db, db.nodes[req.challenge.nodeId].owner)
    && var e := db.enrollments[req.challenge.nodeId];
       && e.owner == db.nodes[req.challenge.nodeId].owner && e.code == req.code && now < e.expiresAt && e.consumedAt != 0
       && e.request == Some(req) && e.response.Some? && now < e.response.value.expiresAt
  }

  ghost predicate NodeEnrolled(env: Env, db: Database, db': Database, req: EnrollmentRequest, token: string, now: int) {
    var c, n := req.challenge, req.challenge.nodeId;
    && MayEnroll(env, db, req, now)
    && db'.nodes == db.nodes[n := db.nodes[n].(publicKey := Some(c.publicKey), instance := c.instanceId, state := Registered, leaseUntil := now + 90, domainVerifiedAt := now)]
    && Answered(db.challenges, db'.challenges, c.nonce, now) && OneSessionFor(db.sessions, db'.sessions, n, token, c.instanceId, now)
    && db'.enrollments == db.enrollments[n := Enrollment(db.enrollments[n].owner, db.enrollments[n].code, db.enrollments[n].expiresAt, now, Some(req),
                                                         Some(SessionAnswer(env, c, token, now)))]
    && db'.policies.Keys == db.policies.Keys + {n}
    && (forall m :: m in db'.policies ==>
          Columns(db'.policies[m]) == if m in db.policies then Columns(db.policies[m]) else PolicyRow(0, 0, 0, false, None, 100_000_000, 8, 2, 0))
    && db' == db.(nodes := db'.nodes, policies := db'.policies, challenges := db'.challenges, sessions := db'.sessions,
                  enrollments := db'.enrollments, drawn := db.drawn + {token})
  }

  lemma MintedMeans(env: Env, db: Database, c: Challenge, token: string, now: int)
    ensures OneSessionFor(db.sessions, Minted(db, NewSession(env, c.nodeId, c.instanceId, token, now)), c.nodeId, token, c.instanceId, now)
    ensures NewSession(env, c.nodeId, c.instanceId, token, now) == SessionAnswer(env, c, token, now)
  {}

  lemma ProvenMeans(env: Env, db: Database, c: Challenge, signature: string, purpose: Purpose, now: int)
    ensures ChallengeProven(env, db, c, signature, purpose, now) <==> c.purpose == purpose && Proves(env, db, c, signature, now)
    ensures ChallengeProven(env, db, c, signature, purpose, now) ==> Answered(db.challenges, Spent(db.challenges, c.nonce, now), c.nonce, now)
  {}

  lemma ReceiptMeans(db: Database, req: EnrollmentRequest, now: int)
    requires |req.code| == 64
    ensures EnrollmentReceipt(db, req, now).Receipt? <==> HasReceipt(db, req, now)
    ensures HasReceipt(db, req, now) ==> EnrollmentReceipt(db, req, now) == Receipt(db.enrollments[req.challenge.nodeId].response.value)
    ensures EnrollmentReceipt(db, req, now).Unconsumed? && EnrollmentFits(db, req.challenge) <==>
              OpenFor(db, req.challenge.nodeId, req.code, req.challenge.publicKey, now) && db.nodes[req.challenge.nodeId].domain == req.challenge.domain
  {}

  lemma EnrollNodeMeans(env: Env, db: Database, req: EnrollmentRequest, token: string, now: int)
    ensures var tx := EnrollNode(env, db, req, token, now);
            && (tx.Commit? <==> MayEnroll(env, db, req, now)) && (tx.Commit? ==> NodeEnrolled(env, db, tx.db, req, token, now))
            && (tx == Keep <==> HasReceipt(db, req, now))
            && (tx == Abort(Invalid) <==> |req.code| != 64) && (tx.Abort? ==> tx.error == Invalid || tx.error == Unauthorized)
  {
    hide ChallengeProven, EnrollmentReceipt, EnrollmentFits, Minted, NewSession, Spent, OneSessionFor, Answered, Proves, OpenFor, HasReceipt;
    ProvenMeans(env, db, req.challenge, req.signature, ForEnroll, now);
    MintedMeans(env, db, req.challenge, token, now);
    if |req.code| == 64 { ReceiptMeans(db, req, now); }
    OpenHas(db, req.challenge.nodeId, req.code, req.challenge.publicKey, now);
    ReceiptShape(db, req, now);
  }

  lemma OpenHas(db: Database, n: Id, code: string, key: string, now: int)
    ensures OpenFor(db, n, code, key, now) ==> n in db.nodes && n in db.enrollments
  {}

  lemma ReceiptShape(db: Database, req: EnrollmentRequest, now: int)
    ensures HasReceipt(db, req, now) ==> |req.code| == 64
    ensures EnrollmentReceipt(db, req, now).Unconsumed? ==> req.challenge.nodeId in db.nodes && req.challenge.nodeId in db.enrollments
  {}

  ghost predicate MayRenewBy(env: Env, db: Database, c: Challenge, signature: string, now: int) {
    && Proves(env, db, c, signature, now) && c.nodeId in db.nodes && db.nodes[c.nodeId].domain == c.domain
    && db.nodes[c.nodeId].publicKey == Some(c.publicKey) && UserOn(db, db.nodes[c.nodeId].owner)
    && ((c.purpose == ForSession && Enlisted(db.nodes[c.nodeId].state)) || (c.purpose == ForDomainChange && db.nodes[c.nodeId].state == DomainPending))
  }

  /** Another instance holds the lease. */
  predicate LeaseHeld(x: Node, instance: string, now: int) { x.instance != instance && now < x.leaseUntil }

  /** A proof under another instance's lease freezes the node and ends its session; otherwise the node gets a session
      and a lease, and a proof of a new domain makes it registered again. */
  ghost predicate SessionRenewed(env: Env, db: Database, db': Database, c: Challenge, signature: string, token: string, now: int) {
    && MayRenewBy(env, db, c, signature, now) && Answered(db.challenges, db'.challenges, c.nonce, now) && SameRows(db.policies, db'.policies)
    && db' == db.(nodes := db'.nodes, challenges := db'.challenges, sessions := db'.sessions, drawn := db'.drawn, policies := db'.policies)
    && var n, x := c.nodeId, db.nodes[c.nodeId];
       && (LeaseHeld(x, c.instanceId, now) ==>
             db'.nodes == db.nodes[n := x.(state := IdentityConflict)] && WithoutSessions(db.sessions, db'.sessions, n) && db'.drawn == db.drawn)
       && (!LeaseHeld(x, c.instanceId, now) ==>
             && OneSessionFor(db.sessions, db'.sessions, n, token, c.instanceId, now) && db'.drawn == db.drawn + {token}
             && db'.nodes == db.nodes[n := x.(instance := c.instanceId, leaseUntil := now + 90, state := if x.state == DomainPending then Registered else x.state,
                                             domainVerifiedAt := if c.purpose == ForDomainChange then now else x.domainVerifiedAt)])
  }

  lemma RenewSessionMeans(env: Env, db: Database, c: Challenge, signature: string, token: string, now: int)
    ensures var tx := RenewSession(env, db, c, signature, token, now);
            && (tx.Commit? <==> MayRenewBy(env, db, c, signature, now)) && (tx.Commit? ==> SessionRenewed(env, db, tx.db, c, signature, token, now))
            && (!tx.Commit? ==> tx == Abort(Unauthorized))
  {
    hide ChallengeProven, Proves, SessionRenewed, RenewSession;
    ProvenMeans(env, db, c, signature, c.purpose, now);
    RenewalGuard(env, db, c, signature, token, now);
    if RenewSession(env, db, c, signature, token, now).Commit? { RenewalWrites(env, db, c, signature, token, now); }
  }

  lemma RenewalGuard(env: Env, db: Database, c: Challenge, signature: string, token: string, now: int)
    ensures var tx := RenewSession(env, db, c, signature, token, now);
            && (tx.Commit? <==> (c.purpose == ForSession || c.purpose == ForDomainChange) && ChallengeProven(env, db, c, signature, c.purpose, now) && RenewalFits(db, c))
            && (!tx.Commit? ==> tx == Abort(Unauthorized))
  {
    hide ChallengeProven, RenewalFits, Minted, Spent, SessionsOfOthers;
  }

  lemma RenewalWrites(env: Env, db: Database, c: Challenge, signature: string, token: string, now: int)
    requires MayRenewBy(env, db, c, signature, now) && RenewSession(env, db, c, signature, token, now).Commit?
    ensures SessionRenewed(env, db, RenewSession(env, db, c, signature, token, now).db, c, signature, token, now)
  {
    hide RenewSession, MayRenewBy, ChallengeProven, Minted, NewSession, Spent, OneSessionFor, Answered, SessionsOfOthers, WithoutSessions, SameRows, RenewalFits;
    assert SameRows(db.policies, db.policies) by { RowsAreSame(db.policies); }
    RenewEffect(env, db, c, signature, token, now);
    ProvenMeans(env, db, c, signature, c.purpose, now);
    MintedMeans(env, db, c, token, now);
    RemovedRows(db, c.nodeId);
    assert c.nodeId in db.nodes by { RenewsKnown(env, db, c, signature, now); }
  }

  lemma RenewsKnown(env: Env, db: Database, c: Challenge, signature: string, now: int)
    requires MayRenewBy(env, db, c, signature, now)
    ensures c.nodeId in db.nodes
  {
  }

  // Reports and leases.

  ghost predicate HeartbeatTaken(db: Database, db': Database, token: string, now: int) {
    && token in db.sessions && SpeaksFor(db, token, db.sessions[token].node, now)
    && var n := db.sessions[token].node;
       && db'.nodes == db.nodes[n := db.nodes[n].(leaseUntil := now + 90)]
       && db'.grants.Keys == db.grants.Keys
       && (forall p :: p in db.grants ==>
             db'.grants[p] == if p.node == n && db.grants[p].state == Active
                              then Grant(db.grants[p].id, Active, db.grants[p].revision, db.grants[p].explicitUntil, now) else db.grants[p])
       && db' == db.(nodes := db'.nodes, grants := db'.grants, policies := db'.policies) && SameRows(db.policies, db'.policies)
  }

  lemma SessionNodeMeans(db: Database, token: string, now: int)
    ensures SessionNode(db, token, now).Some? <==> token in db.sessions && SpeaksFor(db, token, db.sessions[token].node, now)
    ensures SessionNode(db, token, now).Some? ==> SessionNode(db, token, now).value == db.sessions[token].node && db.sessions[token].node in db.nodes
  {
    if token in db.sessions { Sessions(db, token, db.sessions[token].node, now); }
  }

  lemma NodeHeartbeatMeans(db: Database, token: string, now: int)
    ensures var tx := NodeHeartbeat(db, token, now);
            && (tx.Commit? <==> token in db.sessions && SpeaksFor(db, token, db.sessions[token].node, now))
            && (tx.Commit? ==> HeartbeatTaken(db, tx.db, token, now)) && (!tx.Commit? ==> tx == Abort(Unauthorized))
  {
    hide SessionNode, SpeaksFor, Columns;
    SessionNodeMeans(db, token, now);
  }

  ghost predicate NodeReleased(db: Database, db': Database, token: string, now: int) {
    && token in db.sessions && SpeaksFor(db, token, db.sessions[token].node, now)
    && Unregistered(db, db', db.sessions[token].node) && Without(db.enrollments, db'.enrollments, db.sessions[token].node)
    && db' == db.(nodes := db'.nodes, sessions := db'.sessions, challenges := db'.challenges, enrollments := db'.enrollments,
                  grants := db'.grants, policies := db'.policies)
  }

  lemma ReleaseNodeMeans(db: Database, token: string, now: int)
    ensures var tx := ReleaseNode(db, token, now);
            && (tx.Commit? <==> token in db.sessions && SpeaksFor(db, token, db.sessions[token].node, now))
            && (tx.Commit? ==> NodeReleased(db, tx.db, token, now)) && (!tx.Commit? ==> tx == Abort(Unauthorized))
  {
    hide SessionNode, SpeaksFor, Released, Unregistered, Without;
    SessionNodeMeans(db, token, now);
    if SessionNode(db, token, now).Some? { ReleasedMeans(db, SessionNode(db, token, now).value); }
  }

  /** The report is one of the three kinds, with the fields of its kind. */
  ghost predicate AckSays(a: Ack) {
    && 0 < a.revision <= MAX_INT64 && a.state != AckOther
    && (a.state == AckReceived ==> a.error == "" && !a.usable) && (a.state == AckApplied ==> a.error == "")
    && (a.state == AckNack ==> !a.usable && a.error in {"invalid_policy", "persist_failed", "apply_failed", "clock_rollback"})
  }

  /** The report fits what was published and what was reported before. */
  ghost predicate AckFits(row: PolicyRow, a: Ack) {
    && a.revision <= row.desired
    && (a.state == AckReceived ==> row.received <= a.revision)
    && (a.state == AckApplied ==> row.applied <= a.revision <= row.received && row.body.Some?)
    && (a.state == AckNack ==> row.applied < a.revision && row.received <= a.revision)
  }

  /** A received report moves only that column; an applied one makes the node ready exactly if it is usable, and
      registered otherwise; a failure makes it registered and moves no column. */
  ghost predicate Acknowledged(db: Database, db': Database, token: string, a: Ack, now: int) {
    && AckSays(a) && token in db.sessions && SpeaksFor(db, token, db.sessions[token].node, now)
    && var n := db.sessions[token].node;
       && n in db.policies && AckFits(db.policies[n], a)
       && var row, ready := db.policies[n], ReportsUsable(db.policies[n], a, now);
          && (a.state == AckReceived ==> db' == db.(policies := db.policies[n := row.(received := a.revision)]))
          && (a.state == AckApplied ==> db' == db.(policies := db.policies[n := row.(applied := a.revision, usable := ready)],
                                                   nodes := db.nodes[n := db.nodes[n].(state := if ready then Ready else Registered)]))
          && (a.state == AckNack ==> db' == db.(nodes := db.nodes[n := db.nodes[n].(state := Registered)]))
  }

  lemma AckedRowMeans(row: PolicyRow, a: Ack, now: int)
    requires AckSays(a)
    ensures AckedRow(row, a, now).Ok? <==> AckFits(row, a)
    ensures AckedRow(row, a, now).Err? ==> AckedRow(row, a, now).error == Conflict || AckedRow(row, a, now).error == Invalid
    ensures AckFits(row, a) ==> AckedRow(row, a, now) == Ok(if a.state == AckReceived then row.(received := a.revision)
                                                            else if a.state == AckApplied then row.(applied := a.revision, usable := ReportsUsable(row, a, now)) else row)
  {
    if AckedRow(row, a, now).Ok? { AckedMeans(row, a, now); }
  }

  lemma AcknowledgeMeans(db: Database, token: string, a: Ack, now: int)
    ensures var tx := Acknowledge(db, token, a, now);
            && tx != Keep && (tx.Commit? ==> Acknowledged(db, tx.db, token, a, now) && tx.rebuild == {})
            && (tx.Commit? <==> AckSays(a) && token in db.sessions && SpeaksFor(db, token, db.sessions[token].node, now)
                                && db.sessions[token].node in db.policies && AckFits(db.policies[db.sessions[token].node], a))
            && (!AckSays(a) ==> tx == Abort(Invalid))
            && (tx == Abort(Unauthorized) <==> AckSays(a) && !(token in db.sessions && SpeaksFor(db, token, db.sessions[token].node, now)))
  {
    hide SessionNode, SpeaksFor, AckedRow, ReportsUsable, AckFits;
    SessionNodeMeans(db, token, now);
    if AckSays(a) && SessionNode(db, token, now).Some? && db.sessions[token].node in db.policies {
      AckedRowMeans(db.policies[db.sessions[token].node], a, now);
    }
    if token in db.sessions { SameRowsWritten(db, db.sessions[token].node); }
  }

  lemma SameRowsWritten(db: Database, n: Id)
    ensures n in db.policies ==> db.policies[n := db.policies[n]] == db.policies
    ensures n in db.nodes ==> db.nodes[n := db.nodes[n].(state := db.nodes[n].state)] == db.nodes
  {}

  // Administration.

  ghost predicate NodeDenied(db: Database, actor: Actor, n: Id, e: Error) {
    || (e == Forbidden && (!Known(db, actor) || (n in db.nodes && !Speaks(actor, db.nodes[n].owner))))
    || (e == NotFound && Known(db, actor) && n !in db.nodes)
  }

  ghost predicate InstanceRecovered(db: Database, db': Database, actor: Actor, n: Id, instance: string, now: int) {
    && ValidInstance(instance) && n in db.nodes && ActsFor(db, actor, db.nodes[n].owner) && db.nodes[n].state == IdentityConflict
    && WithoutSessions(db.sessions, db'.sessions, n) && WithoutChallenges(db.challenges, db'.challenges, n)
    && db' == db.(nodes := db.nodes[n := db.nodes[n].(state := Registered, instance := instance, leaseUntil := now + 90)],
                  sessions := db'.sessions, challenges := db'.challenges, policies := db'.policies)
    && SameRows(db.policies, db'.policies)
  }

  lemma RecoverInstanceMeans(db: Database, actor: Actor, n: Id, instance: string, now: int)
    ensures var tx := RecoverInstance(db, actor, n, instance, now);
            && tx != Keep && (tx.Commit? ==> InstanceRecovered(db, tx.db, actor, n, instance, now))
            && (tx == Abort(Invalid) <==> !ValidInstance(instance))
            && (tx == Abort(Conflict) <==> ValidInstance(instance) && n in db.nodes && ActsFor(db, actor, db.nodes[n].owner) && db.nodes[n].state != IdentityConflict)
            && (tx.Abort? && tx.error != Invalid && tx.error != Conflict ==> NodeDenied(db, actor, n, tx.error))
  {
    hide ValidInstance, Known, Speaks, ActiveActor, RequireOwner, WithoutSessions, WithoutChallenges, SessionsOfOthers, ChallengesOfOthers, Columns;
    Authority(db, actor, if n in db.nodes then db.nodes[n].owner else "");
    RemovedRows(db, n);
  }

  ghost predicate NodeSwitched(db: Database, db': Database, actor: Actor, n: Id, on: bool) {
    && n in db.nodes && ActsFor(db, actor, db.nodes[n].owner) && (on ==> db.nodes[n].state != DomainPending)
    && db' == db.(nodes := db.nodes[n := db.nodes[n].(enabled := on)], policies := db'.policies) && SameRows(db.policies, db'.policies)
  }

  lemma SetNodeEnabledMeans(db: Database, actor: Actor, n: Id, on: bool)
    ensures var tx := SetNodeEnabled(db, actor, n, on);
            && tx != Keep && (tx.Commit? ==> NodeSwitched(db, tx.db, actor, n, on))
            && (tx == Abort(Conflict) <==> n in db.nodes && ActsFor(db, actor, db.nodes[n].owner) && on && db.nodes[n].state == DomainPending)
            && (tx.Abort? && tx.error != Conflict ==> NodeDenied(db, actor, n, tx.error))
  {
    hide Known, Speaks, ActiveActor, RequireOwner, NodeSwitched, Serving;
    if n in db.nodes {
      Authority(db, actor, db.nodes[n].owner);
      if ActsFor(db, actor, db.nodes[n].owner) && (on ==> db.nodes[n].state != DomainPending) { SwitchedMeans(db, actor, n, on); }
    } else {
      Authority(db, actor, "");
    }
  }

  lemma SwitchedMeans(db: Database, actor: Actor, n: Id, on: bool)
    requires n in db.nodes && ActsFor(db, actor, db.nodes[n].owner) && (on ==> db.nodes[n].state != DomainPending)
    ensures NodeSwitched(db, db.(nodes := db.nodes[n := db.nodes[n].(enabled := on)]), actor, n, on)
  {
    hide Known, Speaks, Columns;
  }

  lemma RowsAreSame(rows: map<Id, PolicyRow>)
    ensures SameRows(rows, rows)
  {}

  /** A node that has a registration goes only paused, and if it is connected only once it has applied what was published last. */
  ghost predicate Removable(db: Database, n: Id, connected: bool)
    requires n in db.nodes
  {
    db.nodes[n].state == Pending || (!db.nodes[n].enabled && (connected && n in db.policies ==> db.policies[n].applied == db.policies[n].desired))
  }

  /** Nothing refers to the node any more, and nothing else went. */
  ghost predicate NodeDeleted(db: Database, db': Database, actor: Actor, n: Id, connected: bool) {
    && n in db.nodes && ActsFor(db, actor, db.nodes[n].owner) && Removable(db, n, connected)
    && Without(db.nodes, db'.nodes, n) && Without(db.enrollments, db'.enrollments, n) && Without(db.policies, db'.policies, n)
    && WithoutSessions(db.sessions, db'.sessions, n) && WithoutChallenges(db.challenges, db'.challenges, n)
    && WithoutNodeRows(db.grants, db'.grants, n) && WithoutNodeRows(db.rules, db'.rules, n)
    && db' == db.(nodes := db'.nodes, enrollments := db'.enrollments, policies := db'.policies, sessions := db'.sessions,
                  challenges := db'.challenges, grants := db'.grants, rules := db'.rules)
  }

  lemma DroppedPairs(db: Database, n: Id)
    ensures WithoutNodeRows(db.grants, WithoutNode(db, n).grants, n) && WithoutNodeRows(db.rules, WithoutNode(db, n).rules, n)
  {}

  lemma WithoutNodeMeans(db: Database, actor: Actor, n: Id, connected: bool)
    requires n in db.nodes && ActsFor(db, actor, db.nodes[n].owner) && Removable(db, n, connected)
    ensures NodeDeleted(db, WithoutNode(db, n), actor, n, connected)
  {
    hide Known, Speaks, Removable, Without, WithoutSessions, WithoutChallenges, WithoutNodeRows, SessionsOfOthers, ChallengesOfOthers;
    Removed(db.nodes, n);
    Removed(db.enrollments, n);
    Removed(db.policies, n);
    RemovedRows(db, n);
    DroppedPairs(db, n);
  }

  lemma DeleteNodeMeans(db: Database, actor: Actor, n: Id, connected: bool)
    ensures var tx := DeleteNode(db, actor, n, connected);
            && tx != Keep && (tx.Commit? ==> NodeDeleted(db, tx.db, actor, n, connected) && tx.rebuild == {})
            && (tx == Abort(Conflict) <==> n in db.nodes && ActsFor(db, actor, db.nodes[n].owner) && !Removable(db, n, connected))
            && (tx.Abort? && tx.error != Conflict ==> NodeDenied(db, actor, n, tx.error))
  {
    hide Known, Speaks, ActiveActor, RequireOwner, WithoutNode, NodeDeleted;
    Authority(db, actor, if n in db.nodes then db.nodes[n].owner else "");
    if n in db.nodes && ActsFor(db, actor, db.nodes[n].owner) && Removable(db, n, connected) { WithoutNodeMeans(db, actor, n, connected); }
  }

  ghost predicate MayMove(db: Database, n: Id, domain: string, connected: bool)
    requires n in db.nodes
  {
    && !db.nodes[n].enabled && (Enlisted(db.nodes[n].state) || db.nodes[n].state == DomainPending) && db.nodes[n].domain != domain
    && !DomainUsed(db, domain, n) && n in db.policies && (connected ==> db.policies[n].applied == db.policies[n].desired)
  }

  ghost predicate DomainMoved(db: Database, db': Database, actor: Actor, n: Id, domain: string, connected: bool) {
    && n in db.nodes && ActsFor(db, actor, db.nodes[n].owner) && MayMove(db, n, domain, connected)
    && WithoutSessions(db.sessions, db'.sessions, n) && WithoutChallenges(db.challenges, db'.challenges, n) && Without(db.enrollments, db'.enrollments, n)
    && db' == db.(nodes := db.nodes[n := db.nodes[n].(domain := domain, state := DomainPending, domainVerifiedAt := 0)],
                  sessions := db'.sessions, challenges := db'.challenges, enrollments := db'.enrollments)
  }

  lemma ChangeDomainMeans(db: Database, actor: Actor, n: Id, domain: string, connected: bool)
    ensures var tx := ChangeDomain(db, actor, n, domain, connected);
            && (tx.Commit? <==> n in db.nodes && ActsFor(db, actor, db.nodes[n].owner) && MayMove(db, n, domain, connected))
            && (tx.Commit? ==> DomainMoved(db, tx.db, actor, n, domain, connected) && tx.rebuild == {})
            && (tx == Keep <==> n in db.nodes && ActsFor(db, actor, db.nodes[n].owner) && !db.nodes[n].enabled && db.nodes[n].domain == domain
                                && (Enlisted(db.nodes[n].state) || db.nodes[n].state == DomainPending))
            && (tx == Abort(Forbidden) <==> NodeDenied(db, actor, n, Forbidden))
  {
    hide Known, Speaks, ActiveActor, RequireOwner, Without, WithoutSessions, WithoutChallenges, SessionsOfOthers, ChallengesOfOthers;
    Authority(db, actor, if n in db.nodes then db.nodes[n].owner else "");
    RemovedRows(db, n);
    Removed(db.enrollments, n);
  }

  // Of a committed transaction.

  lemma CreateNodeCommits(env: Env, db: Database, actor: Actor, id: Id, code: string, domain: string, now: int, db': Database)
    requires Commits(env, db, OnNode(OpCreateNode(actor, id, code, domain)), now, db')
    ensures NodeCreated(db, db', actor, id, code, domain, now)
  {
    hide CreateNode, Columns, FirstRegion, DomainUsed, WithoutChallenges, Known, Speaks;
    Committed(env, db, OnNode(OpCreateNode(actor, id, code, domain)), now, db');
    CreateNodeMeans(db, actor, id, code, domain, now);
  }

  lemma IssueEnrollmentCommits(env: Env, db: Database, actor: Actor, n: Id, code: string, now: int, db': Database)
    requires Commits(env, db, OnNode(OpIssueEnrollment(actor, n, code)), now, db')
    ensures CodeIssued(db, db', actor, n, code, now)
  {
    hide IssueEnrollment, Columns, WithoutChallenges, WithoutSessions, GrantsRevoked, Known, Speaks;
    Committed(env, db, OnNode(OpIssueEnrollment(actor, n, code)), now, db');
    IssueEnrollmentMeans(db, actor, n, code, now);
  }

  lemma EnrollmentChallengeCommits(env: Env, db: Database, code: string, key: string, instance: string, nonce: string, now: int, db': Database)
    requires Commits(env, db, OnNode(OpEnrollmentChallenge(code, key, instance, nonce)), now, db')
    ensures EnrollmentChallenged(env, db, db', code, key, instance, nonce, now)
  {
    hide EnrollmentChallenge, Columns, OpenFor, LiveChallenge, ValidInstance;
    Committed(env, db, OnNode(OpEnrollmentChallenge(code, key, instance, nonce)), now, db');
    EnrollmentChallengeMeans(env, db, code, key, instance, nonce, now);
  }

  lemma SessionChallengeCommits(env: Env, db: Database, n: Id, instance: string, nonce: string, now: int, db': Database)
    requires Commits(env, db, OnNode(OpSessionChallenge(n, instance, nonce)), now, db')
    ensures SessionChallenged(env, db, db', n, instance, nonce, now)
  {
    hide SessionChallenge, Columns, MayRenew, LiveChallenge, ValidInstance;
    Committed(env, db, OnNode(OpSessionChallenge(n, instance, nonce)), now, db');
    SessionChallengeMeans(env, db, n, instance, nonce, now);
  }

  lemma EnrollNodeCommits(env: Env, db: Database, req: EnrollmentRequest, token: string, now: int, db': Database)
    requires Commits(env, db, OnNode(OpEnroll(req, token)), now, db')
    ensures NodeEnrolled(env, db, db', req, token, now)
  {
    hide EnrollNode, Columns, MayEnroll, Answered, OneSessionFor;
    Committed(env, db, OnNode(OpEnroll(req, token)), now, db');
    EnrollNodeMeans(env, db, req, token, now);
  }

  lemma RenewSessionCommits(env: Env, db: Database, c: Challenge, signature: string, token: string, now: int, db': Database)
    requires Commits(env, db, OnNode(OpRenew(c, signature, token)), now, db')
    ensures SessionRenewed(env, db, db', c, signature, token, now)
  {
    hide RenewSession, Columns, MayRenewBy, Answered, OneSessionFor, WithoutSessions;
    Committed(env, db, OnNode(OpRenew(c, signature, token)), now, db');
    RenewSessionMeans(env, db, c, signature, token, now);
  }

  lemma RecoverInstanceCommits(env: Env, db: Database, actor: Actor, n: Id, instance: string, now: int, db': Database)
    requires Commits(env, db, OnNode(OpRecover(actor, n, instance)), now, db')
    ensures InstanceRecovered(db, db', actor, n, instance, now)
  {
    hide RecoverInstance, Columns, Known, Speaks, WithoutSessions, WithoutChallenges, ValidInstance;
    Committed(env, db, OnNode(OpRecover(actor, n, instance)), now, db');
    RecoverInstanceMeans(db, actor, n, instance, now);
  }

  lemma NodeHeartbeatCommits(env: Env, db: Database, token: string, now: int, db': Database)
    requires Commits(env, db, OnNode(OpHeartbeat(token)), now, db')
    ensures HeartbeatTaken(db, db', token, now)
  {
    hide NodeHeartbeat, Columns, SpeaksFor;
    Committed(env, db, OnNode(OpHeartbeat(token)), now, db');
    NodeHeartbeatMeans(db, token, now);
  }

  lemma AcknowledgeCommits(env: Env, db: Database, token: string, a: Ack, now: int, db': Database)
    requires Commits(env, db, OnNode(OpAcknowledge(token, a)), now, db')
    ensures Acknowledged(db, db', token, a, now)
  {
    hide Acknowledge, Columns, Acknowledged;
    Committed(env, db, OnNode(OpAcknowledge(token, a)), now, db');
    AcknowledgeMeans(db, token, a, now);
  }

  lemma ReleaseNodeCommits(env: Env, db: Database, token: string, now: int, db': Database)
    requires Commits(env, db, OnNode(OpRelease(token)), now, db')
    ensures NodeReleased(db, db', token, now)
  {
    hide ReleaseNode, Columns, SpeaksFor, WithoutSessions, WithoutChallenges, GrantsRevoked, Without;
    Committed(env, db, OnNode(OpRelease(token)), now, db');
    ReleaseNodeMeans(db, token, now);
  }

  lemma SetNodeEnabledCommits(env: Env, db: Database, actor: Actor, n: Id, on: bool, now: int, db': Database)
    requires Commits(env, db, OnNode(OpSetNodeEnabled(actor, n, on)), now, db')
    ensures NodeSwitched(db, db', actor, n, on)
  {
    hide SetNodeEnabled, Columns, Known, Speaks;
    Committed(env, db, OnNode(OpSetNodeEnabled(actor, n, on)), now, db');
    SetNodeEnabledMeans(db, actor, n, on);
  }

  lemma DeleteNodeCommits(env: Env, db: Database, actor: Actor, n: Id, connected: bool, now: int, db': Database)
    requires Commits(env, db, OnNode(OpDeleteNode(actor, n, connected)), now, db')
    ensures NodeDeleted(db, db', actor, n, connected)
  {
    hide DeleteNode, Columns, NodeDeleted;
    Committed(env, db, OnNode(OpDeleteNode(actor, n, connected)), now, db');
    DeleteNodeMeans(db, actor, n, connected);
  }

  lemma ChangeDomainCommits(env: Env, db: Database, actor: Actor, n: Id, domain: string, connected: bool, now: int, db': Database)
    requires Commits(env, db, OnNode(OpChangeDomain(actor, n, domain, connected)), now, db')
    ensures DomainMoved(db, db', actor, n, domain, connected)
  {
    hide ChangeDomain, Columns, DomainMoved;
    Committed(env, db, OnNode(OpChangeDomain(actor, n, domain, connected)), now, db');
    ChangeDomainMeans(db, actor, n, domain, connected);
  }
}
