/** The controller's store: every transaction works step by step on a copy of the tables, rebuilds the
    policies it affects, and replaces the tables only if all of that succeeded
    (internal/control/store.go and the transactions of internal/control). */
module Store {
  import opened Ids
  import opened Protocol
  import opened Identity
  import opened Tables
  import opened PolicyView
  import opened PolicyBuild
  import opened AccountTx
  import opened GrantTx
  import opened NodeTx
  import opened Transactions
  import opened Invariants
  import opened Steps
  import opened NodeRuns
  import opened GrantRuns
  import opened Timing
  import opened Effects
  import opened Meaning
  import opened PolicyMeans
  import opened AccountMeans
  import opened GrantMeans
  import opened NodeMeans
  import Client = NodeClient

  type Reply = Outcome<()>

  const DONE: Reply := Ok(())

  /** The call did what the transition function says: all of the transaction, or nothing. */
  ghost predicate Performs(env: Env, was: Database, op: Op, now: int, now': Database, r: Reply) {
    match Statements(env, was, op, now)
    case Abort(e) => r == Err(e) && now' == was
    case Keep => r.Ok? && now' == was
    case Commit(mid, ns) =>
      match Rebuild(env, mid, ns, now)
      case Ok(db) => r.Ok? && now' == db
      case Err(e) => r == Err(e) && now' == was
  }

  lemma PerformedSteps(env: Env, was: Database, op: Op, now: int, now': Database, r: Reply)
    requires Legitimate(was, op, now) && Performs(env, was, op, now, now', r)
    ensures Step(env, was, op, now, now')
  {
    hide Statements, Rebuild, Legitimate;
  }

  class Store {
    const env: Env
    var db: Database

    /** What every committed state satisfies. */
    ghost predicate Valid()
      reads this
    {
      Inv(env, db) && CodesDistinct(db)
    }

    constructor (env: Env)
      ensures Valid() && this.env == env && db == EMPTY
    {
      this.env := env;
      db := EMPTY;
      new;
      EmptyIsSound(env);
    }

    /** Rebuild the affected policies and commit; a refused policy rolls everything back. */
    method Finish(mid: Database, ns: set<Id>, ghost op: Op, now: int) returns (r: Reply)
      requires Valid() && Legitimate(db, op, now) && Statements(env, db, op, now) == Commit(mid, ns)
      modifies this
      ensures Valid() && Performs(env, old(db), op, now, db, r) && (r.Ok? ==> Commits(env, old(db), op, now, db))
    {
      hide Inv, Legitimate, Statements, Rebuild;
      ghost var was := db;
      var built := RebuildPolicies(env, mid, ns, now);
      match built
      case Err(e) =>
        r := Err(e);
      case Ok(after) =>
        db := after;
        r := DONE;
        PerformedSteps(env, was, op, now, db, r);
        StepKeepsInv(env, was, op, now, db);
        CodesStayDistinct(env, was, op, now, db);
    }

    method RefreshPolicy(n: Id, now: int) returns (r: Reply)
      requires Valid() && now > 0
      modifies this
      ensures Valid() && Performs(env, old(db), OnGrant(OpBuildPolicy(n)), now, db, r)
    {
      hide Inv, Rebuild, CodesDistinct;
      r := Finish(db, {n}, OnGrant(OpBuildPolicy(n)), now);
    }

    // Users and settings.

    method SetUserEnabled(actor: Actor, user: Id, on: bool, now: int) returns (r: Reply)
      requires Valid() && now > 0
      modifies this
      ensures Valid() && Performs(env, old(db), OnAccount(OpSetUserEnabled(actor, user, on)), now, db, r)
      ensures r.Ok? ==> UserSwitched(old(db), db, actor, user, on)
      ensures r.Ok? && !on ==> Silenced(db, user)
    {
      hide Inv, Rebuild, CodesDistinct, UserSwitched, Silenced, Commits;
      ghost var was := db;
      if !(actor.enabled && actor.role.Admin?) {
        return Err(Forbidden);
      }
      if !ActiveActor(db, actor) {
        return Err(Forbidden);
      }
      var tx := db;
      if user !in tx.users {
        return Err(Invalid);
      }
      tx := tx.(users := tx.users[user := tx.users[user].(enabled := on)]);
      r := Finish(tx, AllPolicies(tx), OnAccount(OpSetUserEnabled(actor, user, on)), now);
      if r.Ok? {
        SetUserEnabledCommits(env, was, actor, user, on, now, db);
        if !on { SwitchedOff(was, db, actor, user); OffUserIsSilenced(env, db, user); }
      }
    }

    method SetRetentions(actor: Actor, retentions: Retentions, now: int) returns (r: Reply)
      requires Valid() && now > 0
      modifies this
      ensures Valid() && Performs(env, old(db), OnAccount(OpSetRetentions(actor, retentions)), now, db, r)
      ensures r.Ok? ==> RetentionsSet(old(db), db, actor, retentions)
    {
      hide Inv, Rebuild, CodesDistinct, RetentionsSet, Commits;
      ghost var was := db;
      if !(actor.enabled && actor.role.Admin?) {
        return Err(Forbidden);
      }
      if !ValidRetentions(retentions) {
        return Err(Invalid);
      }
      if !ActiveActor(db, actor) {
        return Err(Forbidden);
      }
      var tx := db.(retentions := retentions);
      r := Finish(tx, AllPolicies(tx), OnAccount(OpSetRetentions(actor, retentions)), now);
      if r.Ok? {
        SetRetentionsCommits(env, was, actor, retentions, now, db);
      }
    }

    // Tailnets and their identities.

    /** Replace a tailnet's snapshot inside a transaction: refused exactly if the clock is behind the last listing;
        otherwise this listing is the newest there is, under a revision of its own, and nothing else changes. */
    method PublishInto(tx: Database, t: Id, keys: seq<DeviceKey>, now: int) returns (r: Option<Database>)
      ensures PublishIdentity(tx, t, keys, now) == if r.Some? then Commit(r.value, AllPolicies(tx)) else Abort(Conflict)
      ensures r.None? <==> t in tx.snapshots && now < tx.snapshots[t].lastSuccess
      ensures r.Some? ==> r.value == tx.(snapshots := r.value.snapshots) && r.value.snapshots.Keys == tx.snapshots.Keys + {t}
      ensures r.Some? ==> forall u :: u in tx.snapshots && u != t ==> r.value.snapshots[u] == tx.snapshots[u]
      ensures r.Some? ==> r.value.snapshots[t].keys == keys && r.value.snapshots[t].lastSuccess == now
      ensures r.Some? && t in tx.snapshots ==>
                tx.snapshots[t].lastSuccess <= r.value.snapshots[t].lastSuccess && tx.snapshots[t].revision < r.value.snapshots[t].revision
    {
      var revision := 1;
      if t in tx.snapshots {
        if now < tx.snapshots[t].lastSuccess {
          return None;
        }
        revision := tx.snapshots[t].revision + 1;
      }
      return Some(tx.(snapshots := tx.snapshots[t := Snapshot(revision, now, keys)]));
    }

    method ReplaceCredential(actor: Actor, t: Id, seen: int, keys: seq<DeviceKey>, now: int) returns (r: Reply)
      requires Valid() && now > 0 && DistinctKeys(keys)
      modifies this
      ensures Valid() && Performs(env, old(db), OnAccount(OpReplaceCredential(actor, t, seen, keys)), now, db, r)
      ensures r.Ok? ==> CredentialReplaced(old(db), db, actor, t, seen, keys, now)
    {
      hide Inv, Rebuild, CodesDistinct, DistinctKeys, PublishIdentity, CredentialReplaced, Commits;
      ghost var was := db;
      var denied := TailnetOwner(db, actor, t);
      if denied.Some? {
        return Err(denied.value);
      }
      var tx := db;
      if CredentialRevision(tx, t) != seen {
        return Err(Conflict);
      }
      tx := tx.(credentials := tx.credentials[t := Credential(CredentialStatus.Valid, seen + 1, 0)]);
      var published := PublishInto(tx, t, keys, now);
      if published.None? {
        return Err(Conflict);
      }
      r := Finish(published.value, AllPolicies(tx), OnAccount(OpReplaceCredential(actor, t, seen, keys)), now);
      if r.Ok? {
        ReplaceCredentialCommits(env, was, actor, t, seen, keys, now, db);
      }
    }

    /** The first transaction of a refresh: hand out the next version. */
    method BeginRefresh(t: Id, now: int) returns (r: Reply, revision: int, refreshSeq: int)
      requires Valid() && now > 0
      modifies this
      ensures Valid() && Performs(env, old(db), OnAccount(OpBeginRefresh(t)), now, db, r)
      ensures r.Ok? ==> RefreshBegun(old(db), db, t) && t in db.credentials && db.credentials[t].revision == revision && db.credentials[t].refreshSeq == refreshSeq
    {
      hide Inv, CodesDistinct, RefreshBegun, Commits;
      ghost var was := db;
      revision, refreshSeq := 0, 0;
      if !(t in db.credentials && t in db.tailnets && db.tailnets[t].enabled && UserEnabled(db, db.tailnets[t].owner)) || db.credentials[t].status.Missing? {
        return Err(NotFound), 0, 0;
      }
      var tx := db;
      revision, refreshSeq := tx.credentials[t].revision, tx.credentials[t].refreshSeq + 1;
      tx := tx.(credentials := tx.credentials[t := tx.credentials[t].(refreshSeq := refreshSeq)]);
      EmptyRebuild(env, tx, now);
      r := Finish(tx, {}, OnAccount(OpBeginRefresh(t)), now);
      if r.Ok? {
        BeginRefreshCommits(env, was, t, now, db);
      }
    }

    /** The second: the fetched listing, or None if the source could not be read. */
    method CommitRefresh(t: Id, revision: int, refreshSeq: int, found: Option<seq<DeviceKey>>, now: int) returns (r: Reply)
      requires Valid() && now > 0 && (found.Some? ==> DistinctKeys(found.value))
      modifies this
      ensures Valid() && Performs(env, old(db), OnAccount(OpCommitRefresh(t, revision, refreshSeq, found)), now, db, r)
      ensures r.Ok? ==> RefreshCommitted(old(db), db, t, revision, refreshSeq, found, now)
    {
      hide Inv, Rebuild, CodesDistinct, DistinctKeys, PublishIdentity, RefreshCommitted, Commits;
      ghost var was := db;
      if t !in db.credentials {
        return Err(NotFound);
      }
      var tx := db;
      if tx.credentials[t].revision != revision || tx.credentials[t].refreshSeq != refreshSeq {
        return Err(Conflict);
      }
      if found.None? {
        tx := tx.(credentials := tx.credentials[t := tx.credentials[t].(status := Unavailable)]);
        r := Finish(tx, {}, OnAccount(OpCommitRefresh(t, revision, refreshSeq, found)), now);
        if r.Ok? {
          CommitRefreshCommits(env, was, t, revision, refreshSeq, found, now, db);
        }
        return;
      }
      tx := tx.(credentials := tx.credentials[t := tx.credentials[t].(status := CredentialStatus.Valid)]);
      var published := PublishInto(tx, t, found.value, now);
      if published.None? {
        return Err(Conflict);
      }
      r := Finish(published.value, AllPolicies(tx), OnAccount(OpCommitRefresh(t, revision, refreshSeq, found)), now);
      if r.Ok? {
        CommitRefreshCommits(env, was, t, revision, refreshSeq, found, now, db);
      }
    }

    method DeleteCredential(actor: Actor, t: Id, now: int) returns (r: Reply)
      requires Valid() && now > 0
      modifies this
      ensures Valid() && Performs(env, old(db), OnAccount(OpDeleteCredential(actor, t)), now, db, r)
      ensures r.Ok? ==> CredentialDeleted(old(db), db, actor, t)
    {
      hide Inv, Rebuild, CodesDistinct, CredentialDeleted, Commits;
      ghost var was := db;
      var denied := TailnetOwner(db, actor, t);
      if denied.Some? {
        return Err(denied.value);
      }
      var tx := db;
      if t in tx.credentials {
        tx := tx.(credentials := tx.credentials[t := Credential(Missing, tx.credentials[t].revision + 1, 0)]);
      }
      if t in tx.snapshots {
        tx := tx.(snapshots := tx.snapshots[t := tx.snapshots[t].(keys := [], revision := tx.snapshots[t].revision + 1)]);
      }
      r := Finish(tx, AllPolicies(tx), OnAccount(OpDeleteCredential(actor, t)), now);
      if r.Ok? {
        DeleteCredentialCommits(env, was, actor, t, now, db);
      }
    }

    method TransferTailnet(actor: Actor, t: Id, newOwner: Id, now: int) returns (r: Reply)
      requires Valid() && now > 0
      modifies this
      ensures Valid() && Performs(env, old(db), OnAccount(OpTransferTailnet(actor, t, newOwner)), now, db, r)
      ensures r.Ok? ==> TailnetTransferred(old(db), db, actor, t, newOwner)
    {
      hide Inv, Rebuild, CodesDistinct, TailnetTransferred, Commits;
      ghost var was := db;
      if !(actor.role.Admin? && actor.enabled) {
        return Err(Forbidden);
      }
      var denied := TailnetOwner(db, actor, t);
      if denied.Some? {
        return Err(denied.value);
      }
      var tx := db;
      if !UserEnabled(tx, newOwner) {
        return Err(Invalid);
      }
      tx := tx.(tailnets := tx.tailnets[t := tx.tailnets[t].(owner := newOwner)]);
      tx := tx.(rules := map p | p in tx.rules :: if p.tailnet == t && tx.rules[p].group.Owner? && p.node in tx.nodes && tx.nodes[p.node].owner != newOwner
                                                   then tx.rules[p].(group := Shared) else tx.rules[p]);
      r := Finish(tx, AllPolicies(tx), OnAccount(OpTransferTailnet(actor, t, newOwner)), now);
      if r.Ok? {
        TransferTailnetCommits(env, was, actor, t, newOwner, now, db);
      }
    }

    method CreateUser(actor: Actor, id: Id, role: Role, initial: bool, now: int) returns (r: Reply)
      requires Valid() && Legitimate(db, OnAccount(OpCreateUser(actor, id, role, initial)), now)
      modifies this
      ensures Valid() && Performs(env, old(db), OnAccount(OpCreateUser(actor, id, role, initial)), now, db, r)
      ensures r.Ok? ==> UserCreated(old(db), db, actor, id, role, initial)
    {
      hide Inv, Rebuild, CodesDistinct, Legitimate, UserCreated, Commits;
      ghost var was := db;
      if !initial && !(actor.enabled && actor.role.Admin?) {
        return Err(Forbidden);
      }
      if !initial && role.Admin? {
        return Err(Invalid);
      }
      if !ActiveActor(db, actor) {
        return Err(Forbidden);
      }
      if initial && exists u :: u in db.users && db.users[u].role.Admin? {
        return Err(Conflict);
      }
      var tx := db.(users := db.users[id := User(role, true)], drawn := db.drawn + {id});
      r := Finish(tx, {}, OnAccount(OpCreateUser(actor, id, role, initial)), now);
      if r.Ok? {
        CreateUserCommits(env, was, actor, id, role, initial, now, db);
      }
    }

    method SetUserRole(actor: Actor, user: Id, role: Role, now: int) returns (r: Reply)
      requires Valid() && now > 0
      modifies this
      ensures Valid() && Performs(env, old(db), OnAccount(OpSetUserRole(actor, user, role)), now, db, r)
      ensures r.Ok? ==> RoleChanged(old(db), db, actor, user, role)
                        || (db == old(db) && Administrator(db, actor) && user in db.users && db.users[user].role == role)
    {
      hide Inv, Rebuild, CodesDistinct, RoleChanged, Commits;
      ghost var was := db;
      if !(actor.enabled && actor.role.Admin?) {
        return Err(Forbidden);
      }
      if role.Admin? {
        return Err(Invalid);
      }
      if !ActiveActor(db, actor) {
        return Err(Forbidden);
      }
      if user !in db.users {
        return Err(NotFound);
      }
      if db.users[user].role.Admin? {
        return Err(Forbidden);
      }
      if db.users[user].role == role {
        return DONE;
      }
      if role.Member? && exists n :: n in db.nodes && db.nodes[n].owner == user {
        return Err(Conflict);
      }
      var tx := db.(users := db.users[user := db.users[user].(role := role)]);
      r := Finish(tx, {}, OnAccount(OpSetUserRole(actor, user, role)), now);
      if r.Ok? {
        SetUserRoleCommits(env, was, actor, user, role, now, db);
      }
    }

    method AddTailnet(actor: Actor, id: Id, apiId: Id, keys: seq<DeviceKey>, now: int) returns (r: Reply)
      requires Valid() && Legitimate(db, OnAccount(OpAddTailnet(actor, id, apiId, keys)), now)
      modifies this
      ensures Valid() && Performs(env, old(db), OnAccount(OpAddTailnet(actor, id, apiId, keys)), now, db, r)
      ensures r.Ok? ==> TailnetAdded(old(db), db, actor, id, apiId, keys, now)
    {
      hide Inv, Rebuild, CodesDistinct, Legitimate, PublishIdentity, TailnetAdded, Commits;
      ghost var was := db;
      if !RequireOwner(actor, actor.id) || !ActiveActor(db, actor) {
        return Err(Forbidden);
      }
      var tx := db;
      if exists t :: t in tx.tailnets && tx.tailnets[t].apiId == apiId {
        return Err(Conflict);
      }
      if actor.id !in tx.users {
        return Err(Conflict);
      }
      tx := tx.(tailnets := tx.tailnets[id := Tailnet(actor.id, apiId, true)], drawn := tx.drawn + {id});
      tx := tx.(credentials := tx.credentials[id := Credential(CredentialStatus.Valid, 1, 0)]);
      var published := PublishInto(tx, id, keys, now);
      if published.None? {
        return Err(Conflict);
      }
      r := Finish(published.value, AllPolicies(tx), OnAccount(OpAddTailnet(actor, id, apiId, keys)), now);
      if r.Ok? {
        AddTailnetCommits(env, was, actor, id, apiId, keys, now, db);
      }
    }

    method SetTailnetEnabled(actor: Actor, t: Id, on: bool, now: int) returns (r: Reply)
      requires Valid() && now > 0
      modifies this
      ensures Valid() && Performs(env, old(db), OnAccount(OpSetTailnetEnabled(actor, t, on)), now, db, r)
      ensures r.Ok? ==> TailnetSwitched(old(db), db, actor, t, on)
      ensures r.Ok? && !on ==> Unlisted(db, t)
    {
      hide Inv, Rebuild, CodesDistinct, TailnetSwitched, Unlisted, Commits;
      ghost var was := db;
      var denied := TailnetOwner(db, actor, t);
      if denied.Some? {
        return Err(denied.value);
      }
      var tx := db.(tailnets := db.tailnets[t := db.tailnets[t].(enabled := on)]);
      r := Finish(tx, AllPolicies(tx), OnAccount(OpSetTailnetEnabled(actor, t, on)), now);
      if r.Ok? {
        SetTailnetEnabledCommits(env, was, actor, t, on, now, db);
        if !on { TailnetOff(was, db, actor, t); OffTailnetIsUnlisted(env, db, t); }
      }
    }

    /** The row goes, and with it every row that references it. */
    method DeleteTailnet(actor: Actor, t: Id, now: int) returns (r: Reply)
      requires Valid() && now > 0
      modifies this
      ensures Valid() && Performs(env, old(db), OnAccount(OpDeleteTailnet(actor, t)), now, db, r)
      ensures r.Ok? ==> TailnetDeleted(old(db), db, actor, t)
      ensures r.Ok? ==> Unlisted(db, t)
    {
      hide Inv, Rebuild, CodesDistinct, TailnetDeleted, Unlisted, Commits;
      ghost var was := db;
      var denied := TailnetOwner(db, actor, t);
      if denied.Some? {
        return Err(denied.value);
      }
      var tx := db.(tailnets := db.tailnets - {t});
      tx := tx.(credentials := tx.credentials - {t});
      tx := tx.(snapshots := tx.snapshots - {t});
      tx := tx.(grants := map p | p in tx.grants && p.tailnet != t :: tx.grants[p]);
      tx := tx.(rules := map p | p in tx.rules && p.tailnet != t :: tx.rules[p]);
      r := Finish(tx, AllPolicies(tx), OnAccount(OpDeleteTailnet(actor, t)), now);
      if r.Ok? {
        DeleteTailnetCommits(env, was, actor, t, now, db);
        TailnetGoes(was, db, actor, t); OffTailnetIsUnlisted(env, db, t);
      }
    }

    // Nodes.

    method CreateNode(actor: Actor, id: Id, code: string, domain: string, now: int) returns (r: Reply)
      requires Valid() && Legitimate(db, OnNode(OpCreateNode(actor, id, code, domain)), now)
      modifies this
      ensures Valid() && Performs(env, old(db), OnNode(OpCreateNode(actor, id, code, domain)), now, db, r)
      ensures r.Ok? ==> NodeCreated(old(db), db, actor, id, code, domain, now)
    {
      hide Inv, Rebuild, CodesDistinct, Legitimate, NodeCreated, Commits;
      ghost var was := db;
      if actor.role.Member? {
        return Err(Forbidden);
      }
      if !ActiveActor(db, actor) || !RequireOwner(actor, actor.id) {
        return Err(Forbidden);
      }
      var tx := db;
      var region := FirstFree(UsedRegions(tx), FIRST_REGION);
      if region == 0 {
        return Err(Conflict);
      }
      if (exists n :: n in tx.nodes && n != id && tx.nodes[n].domain == domain) || actor.id !in tx.users {
        return Err(Conflict);
      }
      tx := tx.(nodes := tx.nodes[id := Node(actor.id, domain, region, None, Pending, "", 0, true, 0)], drawn := tx.drawn + {id});
      tx := WithEnrollment(tx, id, code, now);
      r := Finish(tx, {}, OnNode(OpCreateNode(actor, id, code, domain)), now);
      if r.Ok? {
        CreateNodeCommits(env, was, actor, id, code, domain, now, db);
      }
    }

    /** End a registration table by table: no session, challenge, code or consent of the node is left, the key, the
        desired revision and the budget stay, and other nodes lose nothing. */
    method ReleaseInto(was: Database, n: Id) returns (tx: Database)
      requires n in was.nodes
      ensures tx == Released(was, n)
      ensures NothingLeft(tx, n) && KeptByRelease(was, tx, n)
    {
      hide NothingLeft, KeptByRelease;
      tx := was;
      tx := tx.(sessions := SessionsOfOthers(tx, n));
      tx := tx.(challenges := ChallengesOfOthers(tx, n));
      tx := tx.(enrollments := tx.enrollments - {n});
      tx := tx.(nodes := tx.nodes[n := tx.nodes[n].(state := Pending, instance := "", leaseUntil := 0, domainVerifiedAt := 0)]);
      tx := tx.(grants := map p | p in tx.grants :: if p.node == n && !tx.grants[p].state.Revoked?
                                                     then tx.grants[p].(state := Revoked, revision := tx.grants[p].revision + 1, lastControl := 0) else tx.grants[p]);
      if n in tx.policies {
        tx := tx.(policies := tx.policies[n := tx.policies[n].(received := 0, applied := 0, usable := false, body := None)]);
      }
      ReleaseLeavesNothing(was, n);
      ReleaseKeeps(was, n);
    }

    method IssueEnrollment(actor: Actor, n: Id, code: string, now: int) returns (r: Reply)
      requires Valid() && Legitimate(db, OnNode(OpIssueEnrollment(actor, n, code)), now)
      modifies this
      ensures Valid() && Performs(env, old(db), OnNode(OpIssueEnrollment(actor, n, code)), now, db, r)
      ensures r.Ok? ==> CodeIssued(old(db), db, actor, n, code, now)
      ensures r.Ok? ==> Emptied(db, n)
    {
      hide Inv, Rebuild, CodesDistinct, Legitimate, Released, WithEnrollment, CodeIssued, Emptied, Commits;
      ghost var was := db;
      if !ActiveActor(db, actor) {
        return Err(Forbidden);
      }
      if n !in db.nodes {
        return Err(NotFound);
      }
      if !RequireOwner(actor, db.nodes[n].owner) {
        return Err(Forbidden);
      }
      var tx := db;
      var affected: set<Id> := {};
      ReleasedHas(db, n);
      if !tx.nodes[n].state.Pending? {
        tx := ReleaseInto(tx, n);
        affected := OwnPolicy(db, n);
      }
      tx := WithEnrollment(tx, n, code, now);
      r := Finish(tx, affected, OnNode(OpIssueEnrollment(actor, n, code)), now);
      if r.Ok? {
        IssueEnrollmentCommits(env, was, actor, n, code, now, db);
        IssuedIsPending(was, db, actor, n, code, now); OffNode(env, db, n);
      }
    }

    /** Drop the node's dead challenges and store a new one, refused exactly if eight live ones are waiting; a live
        challenge is never dropped, and the new one is waiting to be answered. */
    method ChallengeInto(was: Database, purpose: Purpose, n: Id, domain: string, key: string, instance: string, nonce: string, now: int)
      returns (r: Option<Database>)
      ensures NewChallenge(env, was, purpose, n, domain, key, instance, nonce, now) == if r.Some? then Commit(r.value, {}) else Abort(Conflict)
      ensures r.None? <==> |set k | k in was.challenges && was.challenges[k].node == n && was.challenges[k].expiresAt > now && was.challenges[k].usedAt == 0| >= 8
      ensures r.Some? ==> nonce in r.value.challenges && r.value.challenges[nonce].node == n && r.value.challenges[nonce].usedAt == 0
                          && r.value.challenges[nonce].payload.nonce == nonce && now < r.value.challenges[nonce].expiresAt
      ensures r.Some? ==> forall k :: k in was.challenges && k != nonce
                            && (was.challenges[k].node != n || (was.challenges[k].expiresAt > now && was.challenges[k].usedAt == 0))
                            ==> k in r.value.challenges && r.value.challenges[k] == was.challenges[k]
    {
      var tx := was.(challenges := FreshChallenges(was, n, now));
      var count := |ChallengesOf(tx.challenges, n)|;
      assert ChallengesOf(tx.challenges, n)
          == set k | k in was.challenges && was.challenges[k].node == n && was.challenges[k].expiresAt > now && was.challenges[k].usedAt == 0;
      if count >= MAX_CHALLENGES {
        return None;
      }
      var c := Challenge(purpose, env.clusterId, n, domain, nonce, now + CHALLENGE_SECONDS, key, instance);
      tx := tx.(challenges := tx.challenges[nonce := ChallengeRow(n, c, now + CHALLENGE_SECONDS, 0)], drawn := tx.drawn + {nonce});
      return Some(tx);
    }

    method EnrollmentChallenge(code: string, key: string, instance: string, nonce: string, now: int) returns (r: Reply)
      requires Valid() && Legitimate(db, OnNode(OpEnrollmentChallenge(code, key, instance, nonce)), now)
      modifies this
      ensures Valid() && Performs(env, old(db), OnNode(OpEnrollmentChallenge(code, key, instance, nonce)), now, db, r)
      ensures r.Ok? ==> EnrollmentChallenged(env, old(db), db, code, key, instance, nonce, now)
    {
      hide Inv, Rebuild, Legitimate, NewChallenge, ValidInstance, EnrollmentChallenged, Commits;
      ghost var was := db;
      if |code| != 64 || |key| != 32 || !ValidInstance(instance) {
        return Err(Invalid);
      }
      var found := set n | n in db.enrollments && CodeOpen(db, n, code, key, now);
      if found == {} {
        assert forall n :: CodeOpen(db, n, code, key, now) ==> n in found;
        return Err(Unauthorized);
      }
      var n :| n in found;
      var stored := ChallengeInto(db, ForEnroll, n, db.nodes[n].domain, key, instance, nonce, now);
      OneOpenCode(env, db, n, code, key, instance, nonce, now);
      if stored.None? {
        return Err(Conflict);
      }
      r := Finish(stored.value, {}, OnNode(OpEnrollmentChallenge(code, key, instance, nonce)), now);
      if r.Ok? {
        EnrollmentChallengeCommits(env, was, code, key, instance, nonce, now, db);
      }
    }

    method SessionChallenge(n: Id, instance: string, nonce: string, now: int) returns (r: Reply)
      requires Valid() && Legitimate(db, OnNode(OpSessionChallenge(n, instance, nonce)), now)
      modifies this
      ensures Valid() && Performs(env, old(db), OnNode(OpSessionChallenge(n, instance, nonce)), now, db, r)
      ensures r.Ok? ==> SessionChallenged(env, old(db), db, n, instance, nonce, now)
    {
      hide Inv, Rebuild, Legitimate, NewChallenge, CodesDistinct, ValidInstance, SessionChallenged, Commits;
      ghost var was := db;
      if !ValidInstance(instance) {
        return Err(Invalid);
      }
      if !(n in db.nodes && (Serving(db.nodes[n].state) || db.nodes[n].state.DomainPending?) && UserEnabled(db, db.nodes[n].owner)
           && db.nodes[n].publicKey.Some? && |db.nodes[n].publicKey.value| == 32) {
        return Err(Unauthorized);
      }
      var purpose := if db.nodes[n].state.DomainPending? then ForDomainChange else ForSession;
      var stored := ChallengeInto(db, purpose, n, db.nodes[n].domain, db.nodes[n].publicKey.value, instance, nonce, now);
      if stored.None? {
        return Err(Conflict);
      }
      r := Finish(stored.value, {}, OnNode(OpSessionChallenge(n, instance, nonce)), now);
      if r.Ok? {
        SessionChallengeCommits(env, was, n, instance, nonce, now, db);
      }
    }

    /** The second phase of an enrollment: check everything again, then bind the node to the key. */
    method EnrollNode(req: EnrollmentRequest, token: string, now: int) returns (r: Reply, session: Option<NodeSession>)
      requires Valid() && Legitimate(db, OnNode(OpEnroll(req, token)), now)
      modifies this
      ensures Valid() && Performs(env, old(db), OnNode(OpEnroll(req, token)), now, db, r)
      ensures r.Ok? <==> session.Some?
      ensures r.Ok? && old(HasReceipt(db, req, now)) ==> db == old(db) && session == db.enrollments[req.challenge.nodeId].response
      ensures r.Ok? && !old(HasReceipt(db, req, now)) ==>
                && NodeEnrolled(env, old(db), db, req, token, now)
                && session == Some(NodeSession(env.clusterId, req.challenge.nodeId, req.challenge.instanceId, token, now + 3600, now + 90))
                && GoodSession(db, req.challenge, session.value, now)
    {
      hide Inv, Rebuild, Legitimate, CodesDistinct, ChallengeProven, NodeEnrolled, Commits, GoodSession, HasReceipt;
      ghost var was := db;
      if |req.code| == 64 { ReceiptMeans(db, req, now); }
      session := None;
      if |req.code| != 64 {
        return Err(Invalid), None;
      }
      var receipt := EnrollmentReceipt(db, req, now);
      if receipt.Denied? {
        return Err(Unauthorized), None;
      }
      if receipt.Receipt? {
        return DONE, Some(receipt.session);
      }
      var c, n := req.challenge, req.challenge.nodeId;
      if !ChallengeProven(env, db, c, req.signature, ForEnroll, now) || !EnrollmentFits(db, c) {
        return Err(Unauthorized), None;
      }
      var tx := db;
      tx := tx.(nodes := tx.nodes[n := tx.nodes[n].(publicKey := Some(c.publicKey), instance := c.instanceId, state := Registered,
                                                    leaseUntil := now + LEASE_SECONDS, domainVerifiedAt := now)]);
      if n !in tx.policies {
        tx := tx.(policies := tx.policies[n := DEFAULT_POLICY]);
      }
      tx := tx.(challenges := Spent(tx.challenges, c.nonce, now));
      var minted := NewSession(env, n, c.instanceId, token, now);
      tx := tx.(sessions := SessionsOfOthers(tx, n));
      tx := tx.(sessions := tx.sessions[token := SessionRow(n, c.instanceId, minted.expiresAt)], drawn := tx.drawn + {token});
      tx := tx.(enrollments := tx.enrollments[n := tx.enrollments[n].(consumedAt := now, request := Some(req), response := Some(minted))]);
      TokenDrawn(db, OnNode(OpEnroll(req, token)), token, now);
      r := Finish(tx, {n}, OnNode(OpEnroll(req, token)), now);
      if r.Ok? {
        session := Some(minted);
        EnrollNodeCommits(env, was, req, token, now, db);
        EnrolledSession(env, was, db, req, token, now);
      }
    }

    /** Renew a session, or freeze the node if another instance still holds the lease; the caller is then told of the
        conflict and gets no session. */
    method RenewSession(c: Challenge, signature: string, token: string, now: int) returns (r: Reply, session: Option<NodeSession>)
      requires Valid() && Legitimate(db, OnNode(OpRenew(c, signature, token)), now)
      modifies this
      ensures Valid() && Performs(env, old(db), OnNode(OpRenew(c, signature, token)), now, db, r)
      ensures r.Err? ==> session.None?
      ensures r.Ok? ==> SessionRenewed(env, old(db), db, c, signature, token, now) && c.nodeId in old(db.nodes)
                        && (session.None? <==> old(LeaseHeld(db.nodes[c.nodeId], c.instanceId, now)))
      ensures r.Ok? && session.None? ==> Emptied(db, c.nodeId)
      ensures session.Some? ==> session.value == NodeSession(env.clusterId, c.nodeId, c.instanceId, token, now + 3600, now + 90)
                                && GoodSession(db, c, session.value, now)
    {
      hide Inv, Rebuild, Legitimate, CodesDistinct, ChallengeProven, SessionRenewed, Commits, GoodSession, Emptied;
      ghost var was := db;
      session := None;
      if !(c.purpose.ForSession? || c.purpose.ForDomainChange?) || !ChallengeProven(env, db, c, signature, c.purpose, now) || !RenewalFits(db, c) {
        return Err(Unauthorized), None;
      }
      var n, tx := c.nodeId, db;
      var node := tx.nodes[n];
      if node.instance != c.instanceId && node.leaseUntil > now {
        tx := tx.(nodes := tx.nodes[n := node.(state := IdentityConflict)]);
        tx := tx.(sessions := SessionsOfOthers(tx, n));
        tx := tx.(challenges := Spent(tx.challenges, c.nonce, now));
        r := Finish(tx, {n}, OnNode(OpRenew(c, signature, token)), now);
        if r.Ok? {
          RenewSessionCommits(env, was, c, signature, token, now, db);
          FrozenNode(env, was, db, c, signature, token, now);
          OffNode(env, db, n);
        }
        return;
      }
      tx := tx.(challenges := Spent(tx.challenges, c.nonce, now));
      node := node.(instance := c.instanceId, leaseUntil := now + LEASE_SECONDS, state := if node.state.DomainPending? then Registered else node.state);
      if c.purpose.ForDomainChange? {
        node := node.(domainVerifiedAt := now);
      }
      tx := tx.(nodes := tx.nodes[n := node]);
      var minted := NewSession(env, n, c.instanceId, token, now);
      tx := tx.(sessions := Minted(tx, minted), drawn := tx.drawn + {token});
      TokenDrawn(db, OnNode(OpRenew(c, signature, token)), token, now);
      r := Finish(tx, {}, OnNode(OpRenew(c, signature, token)), now);
      if r.Ok? {
        session := Some(minted);
        RenewSessionCommits(env, was, c, signature, token, now, db);
        RenewedSession(env, was, db, c, signature, token, now);
      }
    }

    method RecoverInstance(actor: Actor, n: Id, instance: string, now: int) returns (r: Reply)
      requires Valid() && now > 0
      modifies this
      ensures Valid() && Performs(env, old(db), OnNode(OpRecover(actor, n, instance)), now, db, r)
      ensures r.Ok? ==> InstanceRecovered(old(db), db, actor, n, instance, now)
    {
      hide Inv, Rebuild, CodesDistinct, ValidInstance, InstanceRecovered, Commits;
      ghost var was := db;
      if !ValidInstance(instance) {
        return Err(Invalid);
      }
      if !ActiveActor(db, actor) {
        return Err(Forbidden);
      }
      if n !in db.nodes {
        return Err(NotFound);
      }
      if !RequireOwner(actor, db.nodes[n].owner) {
        return Err(Forbidden);
      }
      if !db.nodes[n].state.IdentityConflict? {
        return Err(Conflict);
      }
      var tx := db.(nodes := db.nodes[n := db.nodes[n].(state := Registered, instance := instance, leaseUntil := now + LEASE_SECONDS)]);
      tx := tx.(sessions := SessionsOfOthers(tx, n));
      tx := tx.(challenges := ChallengesOfOthers(tx, n));
      r := Finish(tx, {n}, OnNode(OpRecover(actor, n, instance)), now);
      if r.Ok? {
        RecoverInstanceCommits(env, was, actor, n, instance, now, db);
      }
    }

    /** The node is told its new lease, the revision it should run, and when to report again. */
    method NodeHeartbeat(token: string, now: int) returns (r: Reply, beat: Option<Heartbeat>)
      requires Valid() && now > 0
      modifies this
      ensures Valid() && Performs(env, old(db), OnNode(OpHeartbeat(token)), now, db, r)
      ensures r.Ok? <==> beat.Some?
      ensures r.Ok? ==> HeartbeatTaken(old(db), db, token, now) && token in db.sessions && beat.value.nodeId == db.sessions[token].node
                        && beat.value.nodeId in db.policies && beat.value.leaseUntil == now + 90
                        && beat.value.desired == db.policies[beat.value.nodeId].desired
                        && 250 <= beat.value.intervalMillis <= 30000 && 3 * beat.value.intervalMillis <= db.retentions.control * 1000
                        && (forall x :: x <= 30000 && 3 * x <= db.retentions.control * 1000 ==> x <= beat.value.intervalMillis)
    {
      hide Inv, Rebuild, CodesDistinct, HeartbeatTaken, Commits;
      ghost var was := db;
      var session := SessionNode(db, token, now);
      if session.None? {
        return Err(Unauthorized), None;
      }
      var n, tx := session.value, db;
      tx := tx.(nodes := tx.nodes[n := tx.nodes[n].(leaseUntil := now + LEASE_SECONDS)]);
      tx := tx.(grants := ConfirmedGrants(tx, n, now));
      r := Finish(tx, {n}, OnNode(OpHeartbeat(token)), now);
      beat := None;
      if r.Ok? {
        BuiltTables(env, tx, {n}, now, db);
        HeartbeatFits(env, db);
        NodeHeartbeatCommits(env, was, token, now, db);
        beat := Some(Heartbeat(n, db.nodes[n].leaseUntil, db.policies[n].desired, IntervalMillis(db.retentions.control)));
      }
    }

    /** Some key of the policy is still admitted. */
    method LiveKey(p: Policy, now: int) returns (live: bool)
      ensures live == HasLiveKey(p, now)
    {
      live := false;
      for i := 0 to |p.grants|
        invariant live <==> exists a, b :: 0 <= a < i && 0 <= b < |p.grants[a].keys| && now < EarliestDeadline(p.grants[a], p.grants[a].keys[b])
      {
        for j := 0 to |p.grants[i].keys|
          invariant live <==>
              ((exists a, b :: 0 <= a < i && 0 <= b < |p.grants[a].keys| && now < EarliestDeadline(p.grants[a], p.grants[a].keys[b]))
               || (exists b :: 0 <= b < j && now < EarliestDeadline(p.grants[i], p.grants[i].keys[b])))
        {
          var until := EffectiveUntil(p.grants[i], p.grants[i].keys[j]);
          if now < until {
            live := true;
          }
        }
      }
    }

    method Acknowledge(token: string, a: Ack, now: int) returns (r: Reply)
      requires Valid() && now > 0
      modifies this
      ensures Valid() && Performs(env, old(db), OnNode(OpAcknowledge(token, a)), now, db, r)
      ensures r.Ok? ==> Acknowledged(old(db), db, token, a, now)
    {
      hide Inv, Rebuild, CodesDistinct, Authenticates, WellFormedAck, HasLiveKey, Acknowledged, Commits;
      ghost var was := db;
      if !WellFormedAck(a) {
        return Err(Invalid);
      }
      var session := SessionNode(db, token, now);
      if session.None? {
        return Err(Unauthorized);
      }
      var n, tx := session.value, db;
      AuthenticNode(db, token, n, now);
      if n !in tx.policies {
        return Err(NotFound);
      }
      var row := tx.policies[n];
      if a.revision > row.desired {
        return Err(Conflict);
      }
      var state := tx.nodes[n].state;
      match a.state {
        case AckReceived =>
          if a.revision < row.received {
            return Err(Conflict);
          }
          row := row.(received := a.revision);
        case AckApplied =>
          if a.revision > row.received || a.revision < row.applied {
            return Err(Conflict);
          }
          if row.body.None? {
            return Err(Invalid);
          }
          var usable := false;
          if a.usable && a.revision == row.desired {
            usable := LiveKey(row.body.value, now);
          }
          row := row.(applied := a.revision, usable := usable);
          state := if usable then Ready else Registered;
        case _ =>
          if a.revision <= row.applied || a.revision < row.received {
            return Err(Conflict);
          }
          state := Registered;
      }
      tx := tx.(policies := tx.policies[n := row]);
      tx := tx.(nodes := tx.nodes[n := tx.nodes[n].(state := state)]);
      r := Finish(tx, {}, OnNode(OpAcknowledge(token, a)), now);
      if r.Ok? {
        AcknowledgeCommits(env, was, token, a, now, db);
      }
    }

    method ReleaseNode(token: string, now: int) returns (r: Reply)
      requires Valid() && now > 0
      modifies this
      ensures Valid() && Performs(env, old(db), OnNode(OpRelease(token)), now, db, r)
      ensures r.Ok? ==> NodeReleased(old(db), db, token, now)
    {
      hide Inv, Rebuild, CodesDistinct, Authenticates, Released, NodeReleased, Commits;
      ghost var was := db;
      var session := SessionNode(db, token, now);
      if session.None? {
        return Err(Unauthorized);
      }
      AuthenticNode(db, token, session.value, now);
      var tx := ReleaseInto(db, session.value);
      r := Finish(tx, OwnPolicy(db, session.value), OnNode(OpRelease(token)), now);
      if r.Ok? {
        ReleaseNodeCommits(env, was, token, now, db);
      }
    }

    method SetNodeEnabled(actor: Actor, n: Id, on: bool, now: int) returns (r: Reply)
      requires Valid() && now > 0
      modifies this
      ensures Valid() && Performs(env, old(db), OnNode(OpSetNodeEnabled(actor, n, on)), now, db, r)
      ensures r.Ok? ==> NodeSwitched(old(db), db, actor, n, on)
      ensures r.Ok? && !on ==> Emptied(db, n)
    {
      hide Inv, Rebuild, CodesDistinct, NodeSwitched, Emptied, Commits;
      ghost var was := db;
      if !ActiveActor(db, actor) {
        return Err(Forbidden);
      }
      if n !in db.nodes {
        return Err(NotFound);
      }
      if !RequireOwner(actor, db.nodes[n].owner) {
        return Err(Forbidden);
      }
      if on && db.nodes[n].state.DomainPending? {
        return Err(Conflict);
      }
      var tx := db.(nodes := db.nodes[n := db.nodes[n].(enabled := on)]);
      var affected := if db.nodes[n].state.Pending? then {} else {n};
      r := Finish(tx, affected, OnNode(OpSetNodeEnabled(actor, n, on)), now);
      if r.Ok? {
        SetNodeEnabledCommits(env, was, actor, n, on, now, db);
        if !on { NodeOff(was, db, actor, n); OffNode(env, db, n); }
      }
    }

    method DeleteNode(actor: Actor, n: Id, connected: bool, now: int) returns (r: Reply)
      requires Valid() && now > 0
      modifies this
      ensures Valid() && Performs(env, old(db), OnNode(OpDeleteNode(actor, n, connected)), now, db, r)
      ensures r.Ok? ==> NodeDeleted(old(db), db, actor, n, connected)
    {
      hide Inv, Rebuild, CodesDistinct, NodeDeleted, Commits;
      ghost var was := db;
      if !ActiveActor(db, actor) {
        return Err(Forbidden);
      }
      if n !in db.nodes {
        return Err(NotFound);
      }
      if !RequireOwner(actor, db.nodes[n].owner) {
        return Err(Forbidden);
      }
      if !db.nodes[n].state.Pending? {
        if db.nodes[n].enabled {
          return Err(Conflict);
        }
        if connected && n in db.policies && db.policies[n].applied != db.policies[n].desired {
          return Err(Conflict);
        }
      }
      var tx := WithoutNode(db, n);
      r := Finish(tx, {}, OnNode(OpDeleteNode(actor, n, connected)), now);
      if r.Ok? {
        DeleteNodeCommits(env, was, actor, n, connected, now, db);
      }
    }

    method ChangeDomain(actor: Actor, n: Id, domain: string, connected: bool, now: int) returns (r: Reply)
      requires Valid() && now > 0
      modifies this
      ensures Valid() && Performs(env, old(db), OnNode(OpChangeDomain(actor, n, domain, connected)), now, db, r)
      ensures r.Ok? ==> DomainMoved(old(db), db, actor, n, domain, connected) || (db == old(db) && n in db.nodes && db.nodes[n].domain == domain)
    {
      hide Inv, Rebuild, CodesDistinct, DomainMoved, Commits;
      ghost var was := db;
      if !ActiveActor(db, actor) {
        return Err(Forbidden);
      }
      if n !in db.nodes {
        return Err(NotFound);
      }
      var node := db.nodes[n];
      if !RequireOwner(actor, node.owner) {
        return Err(Forbidden);
      }
      if node.enabled || !(Serving(node.state) || node.state.DomainPending?) {
        return Err(Conflict);
      }
      if domain == node.domain {
        return DONE;
      }
      if exists m :: m in db.nodes && m != n && db.nodes[m].domain == domain {
        return Err(Conflict);
      }
      if n !in db.policies {
        return Err(NotFound);
      }
      if connected && db.policies[n].applied != db.policies[n].desired {
        return Err(Conflict);
      }
      var tx := db.(nodes := db.nodes[n := node.(domain := domain, state := DomainPending, domainVerifiedAt := 0)]);
      tx := tx.(sessions := SessionsOfOthers(tx, n));
      tx := tx.(challenges := ChallengesOfOthers(tx, n));
      tx := tx.(enrollments := tx.enrollments - {n});
      r := Finish(tx, {}, OnNode(OpChangeDomain(actor, n, domain, connected)), now);
      if r.Ok? {
        ChangeDomainCommits(env, was, actor, n, domain, connected, now, db);
      }
    }

    // Grants and bandwidth rules.

    method RequestGrant(actor: Actor, p: Pair, expected: nat, until: int, id: Id, now: int) returns (r: Reply)
      requires Valid() && Legitimate(db, OnGrant(OpRequestGrant(actor, p, expected, until, id)), now)
      modifies this
      ensures Valid() && Performs(env, old(db), OnGrant(OpRequestGrant(actor, p, expected, until, id)), now, db, r)
      ensures r.Ok? ==> || GrantRequested(old(db), db, actor, p, expected, until, id, now)
                        || (db == old(db) && MayAsk(db, actor, p, expected, until, now) && p in db.grants && !Lapsed(db.grants[p], now)
                            && db.grants[p].state == AskedState(db, p) && db.grants[p].explicitUntil == until)
    {
      hide Inv, Rebuild, Legitimate, CodesDistinct, GrantRequested, Commits, MayAsk, Lapsed;
      ghost var was := db;
      RequestGrantMeans(db, actor, p, expected, until, id, now);
      if expected >= MAX_INT64 || (until != 0 && now >= until) {
        return Err(Invalid);
      }
      if !ActiveActor(db, actor) {
        return Err(Forbidden);
      }
      if p.node !in db.nodes || p.tailnet !in db.tailnets {
        return Err(NotFound);
      }
      if !RequireOwner(actor, db.tailnets[p.tailnet].owner) {
        return Err(Forbidden);
      }
      if !ResourcesEnabled(db, p) {
        return Err(Conflict);
      }
      var tx := db;
      var state := Requested;
      if tx.nodes[p.node].owner == tx.tailnets[p.tailnet].owner {
        state := Active;
      }
      var g: Grant;
      if p !in tx.grants {
        if expected != 0 {
          return Err(Conflict);
        }
        g := Grant(id, state, 0, until, 0);
        tx := tx.(drawn := tx.drawn + {id});
      } else {
        g := tx.grants[p];
        var shown := DerivedState(g, now);
        if shown == state && g.explicitUntil == until && (expected == g.revision || expected + 1 == g.revision) {
          return DONE;
        }
        if expected != g.revision || !Ended(shown) {
          return Err(Conflict);
        }
      }
      g := g.(state := state, revision := g.revision + 1, explicitUntil := until);
      g := g.(lastControl := if state.Active? then now else 0);
      tx := tx.(grants := tx.grants[p := g]);
      r := Finish(tx, {p.node}, OnGrant(OpRequestGrant(actor, p, expected, until, id)), now);
      if r.Ok? {
        RequestGrantCommits(env, was, actor, p, expected, until, id, now, db);
      }
    }

    /** The pair whose grant has this id, if any. */
    method FindGrant(id: Id) returns (p: Option<Pair>)
      ensures p.Some? ==> HasGrant(db, id, p.value)
      ensures p.None? ==> forall q :: !HasGrant(db, id, q)
    {
      var found := set q | q in db.grants && db.grants[q].id == id && q.node in db.nodes && q.tailnet in db.tailnets;
      if found == {} {
        assert forall q :: HasGrant(db, id, q) ==> q in found;
        return None;
      }
      var q :| q in found;
      return Some(q);
    }

    /** An action takes effect exactly if it is authorised, expects the present revision, is allowed in the state
        the grant reads as, and where it gives consent both sides are enabled; it changes nothing exactly if it
        already happened at this or the previous revision; everything else is refused. */
    method ActInto(actor: Actor, p: Pair, expected: nat, a: Action, now: int) returns (tx: Tx)
      requires p in db.grants && p.node in db.nodes && p.tailnet in db.tailnets
      ensures tx == ActOnPair(db, actor, p, expected, a, now)
      ensures tx.Commit? <==> OnItsSide(db, actor, a, p) && Possible(db, a, p, expected, now)
      ensures tx.Keep? <==> OnItsSide(db, actor, a, p) && Taken(db, a, p, expected, now)
      ensures tx == Abort(Forbidden) <==> !OnItsSide(db, actor, a, p)
      ensures tx.Commit? ==> ActionWritten(db, tx.db, p, expected, a, now) && tx.rebuild == {p.node}
    {
      ActionMeans(db, actor, p, expected, a, now);
      hide OnItsSide, Possible, Taken, ActionWritten;
      var g := db.grants[p];
      var owner := if a.Approve? || a.Reject? || a.Revoke? then db.nodes[p.node].owner else db.tailnets[p.tailnet].owner;
      if !RequireOwner(actor, owner) {
        return Abort(Forbidden);
      }
      var shown, next := DerivedState(g, now), NextState(a);
      if shown == next && (g.revision == expected || g.revision == expected + 1) {
        return Keep;
      }
      if g.revision != expected || !Allowed(a, shown) {
        return Abort(Conflict);
      }
      if (a.Approve? || a.Confirm?) && !ResourcesEnabled(db, p) {
        return Abort(Conflict);
      }
      g := g.(state := next, revision := g.revision + 1);
      g := g.(lastControl := if next.Active? then now else 0);
      return Commit(db.(grants := db.grants[p := g]), {p.node});
    }

    method ApplyGrantAction(actor: Actor, id: Id, expected: nat, a: Action, now: int) returns (r: Reply)
      requires Valid() && now > 0
      modifies this
      ensures Valid() && Performs(env, old(db), OnGrant(OpGrantAction(actor, id, expected, a)), now, db, r)
      ensures r.Ok? ==> exists p :: HasGrant(old(db), id, p) && MayAct(old(db), actor, a, p)
                                    && (GrantActed(old(db), db, actor, p, expected, a, now) || (db == old(db) && Taken(db, a, p, expected, now)))
      ensures forall p :: HasGrant(old(db), id, p) && 0 < expected < MAX_INT64 && !MayAct(old(db), actor, a, p) ==> r == Err(Forbidden)
    {
      hide Inv, Rebuild, CodesDistinct, Statements, ActiveActor, ActOnPair, GrantActed, Commits, MayAct, Taken;
      ghost var was := db;
      forall p | HasGrant(db, id, p) && 0 < expected < MAX_INT64 && !MayAct(db, actor, a, p)
        ensures Statements(env, db, OnGrant(OpGrantAction(actor, id, expected, a)), now) == Abort(Forbidden)
      {
        ActionForbidden(env, db, actor, id, expected, a, now, p);
      }
      ghost var op := OnGrant(OpGrantAction(actor, id, expected, a));
      NoAction(env, db, actor, id, expected, a, now);
      if expected == 0 || expected >= MAX_INT64 {
        return Err(Invalid);
      }
      if !ActiveActor(db, actor) {
        return Err(Forbidden);
      }
      var found := FindGrant(id);
      if found.None? {
        return Err(NotFound);
      }
      GrantThere(db, id, found.value);
      ActionOnThat(env, db, actor, id, found.value, expected, a, now);
      ActionGuard(env, db, actor, id, expected, a, now, found.value);
      var tx := ActInto(actor, found.value, expected, a, now);
      match tx
      case Abort(e) => r := Err(e);
      case Keep => r := DONE;
      case Commit(mid, ns) =>
        r := Finish(mid, ns, op, now);
        if r.Ok? {
          ApplyGrantActionCommits(env, was, actor, id, expected, a, now, db, found.value);
        }
    }

    /** Check and insert a node's new rules one by one. */
    method RulesInto(n: Id, ts: seq<TailnetQoS>) returns (rules: Option<map<Pair, Rule>>)
      requires n in db.nodes
      ensures rules.None? <==> exists i :: 0 <= i < |ts| && !RuleAllowed(db, n, ts[i])
      ensures rules.Some? ==> rules.value == InsertRules(RulesOfOthers(db, n), n, ts)
    {
      var inserted := RulesOfOthers(db, n);
      for i := 0 to |ts|
        invariant forall j :: 0 <= j < i ==> RuleAllowed(db, n, ts[j])
        invariant inserted == InsertRules(RulesOfOthers(db, n), n, ts[..i])
      {
        if !RuleAllowed(db, n, ts[i]) {
          return None;
        }
        assert ts[..i + 1][..i] == ts[..i];
        inserted := inserted[Pair(n, ts[i].tailnetId) := Rule(ts[i].group, ts[i].weight, ts[i].maxBps)];
      }
      assert ts[..|ts|] == ts;
      return Some(inserted);
    }

    /** Replace all of a node's rules: delete them, then check and insert the new ones one by one. */
    method SetNodeQoS(actor: Actor, n: Id, q: QoSPolicy, now: int) returns (r: Reply)
      requires Valid() && now > 0
      modifies this
      ensures Valid() && Performs(env, old(db), OnGrant(OpSetQoS(actor, n, q)), now, db, r)
      ensures r.Ok? ==> BandwidthSet(old(db), db, actor, n, q)
    {
      hide Inv, Rebuild, CodesDistinct, ValidQoS, RuleAllowed, InsertRules, BandwidthSet, Commits;
      ghost var was := db;
      var valid := ValidateQoS(q);
      if !valid {
        return Err(Invalid);
      }
      if !ActiveActor(db, actor) {
        return Err(Forbidden);
      }
      if n !in db.nodes {
        return Err(NotFound);
      }
      if !RequireOwner(actor, db.nodes[n].owner) {
        return Err(Forbidden);
      }
      var tx := db;
      if n in tx.policies {
        tx := tx.(policies := tx.policies[n := tx.policies[n].(budgetBps := q.budgetBps, ownerWeight := q.ownerWeight,
                                                               sharedWeight := q.sharedWeight, sharedMaxBps := q.sharedMaxBps)]);
      }
      var rules := RulesInto(n, q.tailnets);
      if rules.None? {
        return Err(Invalid);
      }
      tx := tx.(rules := rules.value);
      r := Finish(tx, {n}, OnGrant(OpSetQoS(actor, n, q)), now);
      if r.Ok? {
        SetNodeQoSCommits(env, was, actor, n, q, now, db);
      }
    }
  }

  lemma BuiltTables(env: Env, mid: Database, ns: set<Id>, now: int, db: Database)
    requires Rebuild(env, mid, ns, now) == Ok(db)
    ensures db == mid.(policies := db.policies) && db.policies.Keys == mid.policies.Keys && ns <= db.policies.Keys
  {
    hide Rebuild;
    RebuildShape(env, mid, ns, now, db);
  }

  lemma TokenDrawn(db: Database, op: Op, token: string, now: int)
    requires Legitimate(db, op, now) && token in Draws(op)
    ensures IsToken(token) && now > 0
  {}

  lemma HeartbeatFits(env: Env, db: Database)
    requires Inv(env, db)
    ensures 0 < db.retentions.control && 250 <= IntervalMillis(db.retentions.control) <= 30000
    ensures 3 * IntervalMillis(db.retentions.control) <= db.retentions.control * 1000
    ensures forall x :: x <= 30000 && 3 * x <= db.retentions.control * 1000 ==> x <= IntervalMillis(db.retentions.control)
  {
    hide Stored, NodesSound, References, TokensDrawn;
    IntervalFits(db.retentions);
  }

  /** No session, challenge, code, published body or consent of the node is left. */
  ghost predicate NothingLeft(db: Database, n: Id) {
    && n !in db.enrollments && (forall k :: k in db.sessions ==> db.sessions[k].node != n)
    && (forall k :: k in db.challenges ==> db.challenges[k].node != n)
    && (forall p :: p in db.grants && p.node == n ==> db.grants[p].state.Revoked?)
    && n in db.nodes && db.nodes[n].state.Pending? && (n in db.policies ==> db.policies[n].body.None?)
  }

  /** The node keeps its key, owner, desired revision and budget; everything of other nodes stays. */
  ghost predicate KeptByRelease(was: Database, db: Database, n: Id) {
    && n in was.nodes && db.nodes.Keys == was.nodes.Keys && db.grants.Keys == was.grants.Keys && db.policies.Keys == was.policies.Keys
    && db.nodes[n].publicKey == was.nodes[n].publicKey && db.nodes[n].owner == was.nodes[n].owner
    && (n in was.policies ==> db.policies[n].desired == was.policies[n].desired && Budget(db.policies[n]) == Budget(was.policies[n]))
    && (forall m :: m in was.nodes && m != n ==> db.nodes[m] == was.nodes[m])
    && (forall m :: m in was.policies && m != n ==> db.policies[m] == was.policies[m])
    && (forall p :: p in was.grants && p.node != n ==> db.grants[p] == was.grants[p])
    && (forall k :: k in was.sessions && was.sessions[k].node != n ==> k in db.sessions && db.sessions[k] == was.sessions[k])
  }

  lemma ReleaseLeavesNothing(was: Database, n: Id)
    requires n in was.nodes
    ensures NothingLeft(Released(was, n), n)
  {}

  lemma ReleaseKeeps(was: Database, n: Id)
    requires n in was.nodes
    ensures KeptByRelease(was, Released(was, n), n)
  {
    hide ChallengesOfOthers;
  }

  lemma ReleasedHas(db: Database, n: Id)
    requires n in db.nodes
    ensures n in Released(db, n).nodes
  {}

  lemma GrantThere(db: Database, id: Id, p: Pair)
    requires HasGrant(db, id, p)
    ensures p in db.grants && p.node in db.nodes && p.tailnet in db.tailnets
  {}

  lemma AuthenticNode(db: Database, token: string, n: Id, now: int)
    requires Authenticates(db, token, n, now)
    ensures n in db.nodes
  {}

  /** A code is open for one node at most, so any match is the match. */
  lemma OneOpenCode(env: Env, db: Database, n: Id, code: string, key: string, instance: string, nonce: string, now: int)
    requires CodesDistinct(db) && CodeOpen(db, n, code, key, now) && |code| == 64 && |key| == 32 && ValidInstance(instance)
    ensures NodeTx.EnrollmentChallenge(env, db, code, key, instance, nonce, now) == NewChallenge(env, db, ForEnroll, n, db.nodes[n].domain, key, instance, nonce, now)
  {
    hide NewChallenge, ValidInstance;
    assert forall m :: CodeOpen(db, m, code, key, now) ==> m == n;
  }

  lemma NoAction(env: Env, db: Database, actor: Actor, id: Id, expected: nat, a: Action, now: int)
    ensures var tx := Statements(env, db, OnGrant(OpGrantAction(actor, id, expected, a)), now);
            && (expected == 0 || expected >= MAX_INT64 ==> tx == Abort(Invalid))
            && (0 < expected < MAX_INT64 && !ActiveActor(db, actor) ==> tx == Abort(Forbidden))
            && (0 < expected < MAX_INT64 && ActiveActor(db, actor) && !(exists p :: HasGrant(db, id, p)) ==> tx == Abort(NotFound))
  {
    hide ActOnPair, ActiveActor;
  }

  lemma ActionOnThat(env: Env, db: Database, actor: Actor, id: Id, p: Pair, expected: nat, a: Action, now: int)
    requires Inv(env, db) && HasGrant(db, id, p) && 0 < expected < MAX_INT64 && ActiveActor(db, actor)
    ensures Statements(env, db, OnGrant(OpGrantAction(actor, id, expected, a)), now) == ActOnPair(db, actor, p, expected, a, now)
  {
    hide ActOnPair, ActiveActor, Stored, References, TokensDrawn, NodesSound;
    forall q | HasGrant(db, id, q) ensures q == p { OneGrantPerId(db, id, p, q); }
  }

  lemma EmptyRebuild(env: Env, mid: Database, now: int)
    ensures Rebuild(env, mid, {}, now) == Ok(mid)
  {
    assert FailingBuilds(env, mid, {}, now) == {};
    var d := Rebuild(env, mid, {}, now).value;
    assert d.policies == mid.policies;
  }

  lemma ActionForbidden(env: Env, db: Database, actor: Actor, id: Id, expected: nat, a: Action, now: int, p: Pair)
    requires Inv(env, db) && HasGrant(db, id, p) && 0 < expected < MAX_INT64 && !MayAct(db, actor, a, p)
    ensures Statements(env, db, OnGrant(OpGrantAction(actor, id, expected, a)), now) == Abort(Forbidden)
  {
    hide Inv, ApplyGrantAction, MayAct, GrantActed, Possible, Taken;
    ApplyGrantActionMeans(env, db, actor, id, expected, a, now, p);
  }

  lemma ActionGuard(env: Env, db: Database, actor: Actor, id: Id, expected: nat, a: Action, now: int, p: Pair)
    requires Inv(env, db) && HasGrant(db, id, p) && 0 < expected < MAX_INT64
    ensures var tx := Statements(env, db, OnGrant(OpGrantAction(actor, id, expected, a)), now);
            (tx == Keep ==> MayAct(db, actor, a, p) && Taken(db, a, p, expected, now)) && (tx.Commit? ==> MayAct(db, actor, a, p))
  {
    hide Inv, ApplyGrantAction, MayAct, GrantActed, Possible, Taken;
    ApplyGrantActionMeans(env, db, actor, id, expected, a, now, p);
  }

  // What the new tables mean.

  /** The session's token speaks for the node until the hour is over, its lease is the node's, and the node takes the
      session if its clock is at most thirty seconds behind and less than the hour ahead. */
  ghost predicate GoodSession(db: Database, c: Challenge, s: NodeSession, now: int) {
    && c.nodeId in db.nodes && s.leaseUntil == db.nodes[c.nodeId].leaseUntil && s.token in db.sessions && db.sessions[s.token].expiresAt == s.expiresAt
    && (forall t :: SpeaksFor(db, s.token, c.nodeId, t) <==> t < now + 3600)
    && (forall t :: Client.Acceptable(s, c, t) <==> now - 30 <= t < now + 3600)
  }

  /** The node signs the challenge that the controller stored for it, if its clock is less than a minute behind and the
      two minutes have not passed. */
  lemma ChallengeIsTaken(env: Env, db: Database, db': Database, purpose: Purpose, n: Id, nonce: string, now: int, client: Client.EnrollmentClient, t: int)
    requires ChallengeStored(env, db, db', purpose, n, client.publicKey, client.instance, nonce, now)
    requires IsToken(env.clusterId) && IsToken(n) && IsToken(nonce) && db.nodes[n].domain != ""
    ensures client.ValidChallenge(db'.challenges[nonce].payload, purpose, t) <==> now - 60 < t < now + 120
  {
    hide IsToken, SameRows, LiveChallenge;
  }

  lemma EnrolledSession(env: Env, was: Database, db: Database, req: EnrollmentRequest, token: string, now: int)
    requires NodeEnrolled(env, was, db, req, token, now) && IsToken(token) && now > 0
    ensures GoodSession(db, req.challenge, SessionAnswer(env, req.challenge, token, now), now)
  {
    hide IsToken, Columns, Answered;
  }

  lemma RenewedSession(env: Env, was: Database, db: Database, c: Challenge, signature: string, token: string, now: int)
    requires SessionRenewed(env, was, db, c, signature, token, now) && IsToken(token) && now > 0
    requires c.nodeId in was.nodes && !LeaseHeld(was.nodes[c.nodeId], c.instanceId, now)
    ensures GoodSession(db, c, SessionAnswer(env, c, token, now), now)
  {
    hide IsToken, SameRows, Answered, WithoutSessions;
  }

  lemma FrozenNode(env: Env, was: Database, db: Database, c: Challenge, signature: string, token: string, now: int)
    requires SessionRenewed(env, was, db, c, signature, token, now)
    requires c.nodeId in was.nodes && LeaseHeld(was.nodes[c.nodeId], c.instanceId, now)
    ensures !NodeOn(db, c.nodeId)
  {
    hide SameRows, Answered, WithoutSessions, OneSessionFor;
  }

  lemma SwitchedOff(was: Database, db: Database, actor: Actor, user: Id)
    requires UserSwitched(was, db, actor, user, false)
    ensures !UserOn(db, user)
  {}

  lemma TailnetOff(was: Database, db: Database, actor: Actor, t: Id)
    requires TailnetSwitched(was, db, actor, t, false)
    ensures !TailnetOn(db, t)
  {}

  lemma TailnetGoes(was: Database, db: Database, actor: Actor, t: Id)
    requires TailnetDeleted(was, db, actor, t)
    ensures !TailnetOn(db, t)
  {}

  lemma NodeOff(was: Database, db: Database, actor: Actor, n: Id)
    requires NodeSwitched(was, db, actor, n, false)
    ensures !NodeOn(db, n)
  {}

  lemma IssuedIsPending(was: Database, db: Database, actor: Actor, n: Id, code: string, now: int)
    requires CodeIssued(was, db, actor, n, code, now)
    ensures !NodeOn(db, n)
  {
    hide WithoutSessions, WithoutChallenges, GrantsRevoked, Columns;
  }
}
