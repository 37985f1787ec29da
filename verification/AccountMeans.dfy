/** What each transaction on users, tailnets and identities does, as the tables before and after: who may ask for it,
    the error anyone else gets, every row it writes, and that it writes nothing else
    (internal/control/auth.go, credentials.go, identity_store.go, resources.go, policy.go). */
module AccountMeans {
  import opened Ids
  import opened Protocol
  import opened Identity
  import opened Tables
  import opened AccountTx
  import opened PolicyView
  import opened Transactions
  import opened Invariants
  import opened Effects
  import opened Meaning

  /** Nobody but the owner of an existing tailnet, or an administrator, may act on it. */
  ghost predicate TailnetDenied(db: Database, actor: Actor, t: Id, e: Error) {
    || (e == Forbidden && (!Known(db, actor) || (t in db.tailnets && !Speaks(actor, db.tailnets[t].owner))))
    || (e == NotFound && Known(db, actor) && t !in db.tailnets)
  }

  lemma TailnetOwnerMeans(db: Database, actor: Actor, t: Id)
    ensures TailnetOwner(db, actor, t).None? <==> t in db.tailnets && ActsFor(db, actor, db.tailnets[t].owner)
    ensures forall e :: TailnetOwner(db, actor, t) == Some(e) <==> TailnetDenied(db, actor, t, e)
  {}

  // Users.

  ghost predicate UserCreated(db: Database, db': Database, actor: Actor, id: Id, role: Role, initial: bool) {
    && Known(db, actor) && (initial ==> forall u :: u in db.users ==> db.users[u].role != Admin)
    && (!initial ==> actor.enabled && actor.role == Admin && role != Admin)
    && db' == db.(users := db.users[id := User(role, true)], drawn := db.drawn + {id}, policies := db'.policies) && SameRows(db.policies, db'.policies)
  }

  lemma CreateUserMeans(db: Database, actor: Actor, id: Id, role: Role, initial: bool)
    ensures var tx := CreateUser(db, actor, id, role, initial);
            && tx != Keep && (tx.Commit? ==> UserCreated(db, tx.db, actor, id, role, initial))
            && (tx == Abort(Forbidden) <==> (!initial && !(actor.enabled && actor.role == Admin)) || (!Known(db, actor) && (initial || role != Admin)))
            && (tx == Abort(Invalid) <==> !initial && actor.enabled && actor.role == Admin && role == Admin)
            && (tx == Abort(Conflict) <==> initial && Known(db, actor) && exists u :: u in db.users && db.users[u].role == Admin)
            && tx != Abort(NotFound) && tx != Abort(Unauthorized)
  {}

  ghost predicate RoleChanged(db: Database, db': Database, actor: Actor, user: Id, role: Role) {
    && Administrator(db, actor) && role != Admin && user in db.users && db.users[user].role != Admin
    && (role == Member ==> forall n :: n in db.nodes ==> db.nodes[n].owner != user)
    && db' == db.(users := db.users[user := User(role, db.users[user].enabled)], policies := db'.policies) && SameRows(db.policies, db'.policies)
  }

  lemma SetUserRoleMeans(db: Database, actor: Actor, user: Id, role: Role)
    ensures var tx := SetUserRole(db, actor, user, role);
            && (tx.Commit? ==> RoleChanged(db, tx.db, actor, user, role) && db.users[user].role != role)
            && (tx == Keep <==> Administrator(db, actor) && role != Admin && user in db.users && db.users[user].role == role)
            && (tx == Abort(Forbidden) <==> || !(actor.enabled && actor.role == Admin)
                                            || (role != Admin && (!Known(db, actor) || (user in db.users && db.users[user].role == Admin))))
            && (tx == Abort(Invalid) <==> actor.enabled && actor.role == Admin && role == Admin)
            && (tx == Abort(NotFound) <==> Administrator(db, actor) && role != Admin && user !in db.users)
            && (tx == Abort(Conflict) <==> Administrator(db, actor) && user in db.users && db.users[user].role == Provider && role == Member
                                           && exists n :: n in db.nodes && db.nodes[n].owner == user)
  {}

  ghost predicate UserSwitched(db: Database, db': Database, actor: Actor, user: Id, on: bool) {
    && Administrator(db, actor) && user in db.users
    && db' == db.(users := db.users[user := User(db.users[user].role, on)], policies := db'.policies) && SameRows(db.policies, db'.policies)
  }

  lemma SetUserEnabledMeans(db: Database, actor: Actor, user: Id, on: bool)
    ensures var tx := SetUserEnabled(db, actor, user, on);
            && tx != Keep && (tx.Commit? ==> UserSwitched(db, tx.db, actor, user, on))
            && (tx == Abort(Forbidden) <==> !Administrator(db, actor))
            && (tx == Abort(Invalid) <==> Administrator(db, actor) && user !in db.users)
            && tx != Abort(Conflict) && tx != Abort(NotFound) && tx != Abort(Unauthorized)
  {}

  ghost predicate RetentionsSet(db: Database, db': Database, actor: Actor, r: Retentions) {
    && Administrator(db, actor) && 0 < r.identity <= 9_223_372_036 && 0 < r.control <= 9_223_372_036
    && db' == db.(retentions := r, policies := db'.policies) && SameRows(db.policies, db'.policies)
  }

  lemma SetRetentionsMeans(db: Database, actor: Actor, r: Retentions)
    ensures var tx := SetRetentions(db, actor, r);
            && tx != Keep && (tx.Commit? ==> RetentionsSet(db, tx.db, actor, r))
            && (tx == Abort(Invalid) <==> actor.enabled && actor.role == Admin
                                          && !(0 < r.identity <= 9_223_372_036 && 0 < r.control <= 9_223_372_036))
            && (tx == Abort(Forbidden) <==> || !(actor.enabled && actor.role == Admin)
                                            || (!Known(db, actor) && 0 < r.identity <= 9_223_372_036 && 0 < r.control <= 9_223_372_036))
            && tx != Abort(Conflict) && tx != Abort(NotFound) && tx != Abort(Unauthorized)
  {}

  // Tailnets.

  /** The tailnet shows these keys as of now, under the next revision; a listing from before the last one is refused. */
  ghost predicate Published(db: Database, db': Database, t: Id, keys: seq<DeviceKey>, now: int) {
    && (t in db.snapshots ==> db.snapshots[t].lastSuccess <= now)
    && db'.snapshots == db.snapshots[t := Snapshot(if t in db.snapshots then db.snapshots[t].revision + 1 else 1, now, keys)]
  }

  ghost predicate TailnetAdded(db: Database, db': Database, actor: Actor, id: Id, apiId: Id, keys: seq<DeviceKey>, now: int) {
    && ActsFor(db, actor, actor.id) && actor.id in db.users && (forall t :: t in db.tailnets ==> db.tailnets[t].apiId != apiId)
    && Published(db, db', id, keys, now)
    && db' == db.(tailnets := db.tailnets[id := Tailnet(actor.id, apiId, true)], credentials := db.credentials[id := Credential(Valid, 1, 0)],
                  snapshots := db'.snapshots, drawn := db.drawn + {id}, policies := db'.policies) && SameRows(db.policies, db'.policies)
  }

  lemma AddTailnetMeans(db: Database, actor: Actor, id: Id, apiId: Id, keys: seq<DeviceKey>, now: int)
    ensures var tx := AddTailnet(db, actor, id, apiId, keys, now);
            && tx != Keep && (tx.Commit? ==> TailnetAdded(db, tx.db, actor, id, apiId, keys, now))
            && (tx == Abort(Forbidden) <==> !ActsFor(db, actor, actor.id))
            && (tx == Abort(Conflict) <==> ActsFor(db, actor, actor.id) && (|| (exists t :: t in db.tailnets && db.tailnets[t].apiId == apiId)
                                                                            || actor.id !in db.users
                                                                            || (id in db.snapshots && now < db.snapshots[id].lastSuccess)))
            && tx != Abort(Invalid) && tx != Abort(NotFound) && tx != Abort(Unauthorized)
  {}

  ghost predicate CredentialReplaced(db: Database, db': Database, actor: Actor, t: Id, seen: int, keys: seq<DeviceKey>, now: int) {
    && t in db.tailnets && ActsFor(db, actor, db.tailnets[t].owner)
    && seen == (if t in db.credentials then db.credentials[t].revision else 0) && Published(db, db', t, keys, now)
    && db' == db.(credentials := db.credentials[t := Credential(Valid, seen + 1, 0)], snapshots := db'.snapshots, policies := db'.policies) && SameRows(db.policies, db'.policies)
  }

  lemma ReplaceCredentialMeans(db: Database, actor: Actor, t: Id, seen: int, keys: seq<DeviceKey>, now: int)
    ensures var tx := ReplaceCredential(db, actor, t, seen, keys, now);
            && tx != Keep && (tx.Commit? ==> CredentialReplaced(db, tx.db, actor, t, seen, keys, now))
            && (tx.Abort? && tx.error != Conflict ==> TailnetDenied(db, actor, t, tx.error))
            && (tx == Abort(Conflict) <==> t in db.tailnets && ActsFor(db, actor, db.tailnets[t].owner)
                                           && (|| seen != (if t in db.credentials then db.credentials[t].revision else 0)
                                               || (t in db.snapshots && now < db.snapshots[t].lastSuccess)))
  {
    TailnetOwnerMeans(db, actor, t);
  }

  ghost predicate Refreshable(db: Database, t: Id) { t in db.credentials && db.credentials[t].status != Missing && TailnetOn(db, t) }

  ghost predicate RefreshBegun(db: Database, db': Database, t: Id) {
    && Refreshable(db, t)
    && db' == db.(credentials := db.credentials[t := db.credentials[t].(refreshSeq := db.credentials[t].refreshSeq + 1)], policies := db'.policies) && SameRows(db.policies, db'.policies)
  }

  lemma BeginRefreshMeans(db: Database, t: Id)
    ensures var tx := BeginRefresh(db, t);
            && (tx.Commit? <==> Refreshable(db, t)) && (tx.Commit? ==> RefreshBegun(db, tx.db, t)) && (!tx.Commit? ==> tx == Abort(NotFound))
  {}

  /** Only the version handed out last may commit; an unreadable source marks the credential and leaves the keys. */
  ghost predicate RefreshCommitted(db: Database, db': Database, t: Id, revision: int, refreshSeq: int, found: Option<seq<DeviceKey>>, now: int) {
    && t in db.credentials && db.credentials[t].revision == revision && db.credentials[t].refreshSeq == refreshSeq
    && (found.None? ==> db'.snapshots == db.snapshots) && (found.Some? ==> Published(db, db', t, found.value, now))
    && db' == db.(credentials := db.credentials[t := Credential(if found.None? then Unavailable else Valid, revision, refreshSeq)],
                  snapshots := db'.snapshots, policies := db'.policies) && SameRows(db.policies, db'.policies)
  }

  lemma CommitRefreshMeans(db: Database, t: Id, revision: int, refreshSeq: int, found: Option<seq<DeviceKey>>, now: int)
    ensures var tx := CommitRefresh(db, t, revision, refreshSeq, found, now);
            && tx != Keep && (tx.Commit? ==> RefreshCommitted(db, tx.db, t, revision, refreshSeq, found, now))
            && (tx == Abort(NotFound) <==> t !in db.credentials)
            && (tx == Abort(Conflict) <==> t in db.credentials && (|| db.credentials[t].revision != revision || db.credentials[t].refreshSeq != refreshSeq
                                                                   || (found.Some? && t in db.snapshots && now < db.snapshots[t].lastSuccess)))
            && tx != Abort(Invalid) && tx != Abort(Forbidden) && tx != Abort(Unauthorized)
  {}

  ghost predicate CredentialDeleted(db: Database, db': Database, actor: Actor, t: Id) {
    && t in db.tailnets && ActsFor(db, actor, db.tailnets[t].owner)
    && (t in db.credentials ==> db'.credentials == db.credentials[t := Credential(Missing, db.credentials[t].revision + 1, 0)])
    && (t !in db.credentials ==> db'.credentials == db.credentials)
    && (t in db.snapshots ==> db'.snapshots == db.snapshots[t := Snapshot(db.snapshots[t].revision + 1, db.snapshots[t].lastSuccess, [])])
    && (t !in db.snapshots ==> db'.snapshots == db.snapshots)
    && db' == db.(credentials := db'.credentials, snapshots := db'.snapshots, policies := db'.policies) && SameRows(db.policies, db'.policies)
  }

  ghost predicate TailnetSwitched(db: Database, db': Database, actor: Actor, t: Id, on: bool) {
    && t in db.tailnets && ActsFor(db, actor, db.tailnets[t].owner)
    && db' == db.(tailnets := db.tailnets[t := Tailnet(db.tailnets[t].owner, db.tailnets[t].apiId, on)], policies := db'.policies) && SameRows(db.policies, db'.policies)
  }

  /** Nothing refers to the tailnet any more, and nothing else went. */
  ghost predicate TailnetDeleted(db: Database, db': Database, actor: Actor, t: Id) {
    && t in db.tailnets && ActsFor(db, actor, db.tailnets[t].owner)
    && Without(db.tailnets, db'.tailnets, t) && Without(db.credentials, db'.credentials, t) && Without(db.snapshots, db'.snapshots, t)
    && WithoutTailnetRows(db.grants, db'.grants, t) && WithoutTailnetRows(db.rules, db'.rules, t)
    && db' == db.(tailnets := db'.tailnets, credentials := db'.credentials, snapshots := db'.snapshots, grants := db'.grants,
                  rules := db'.rules, policies := db'.policies) && SameRows(db.policies, db'.policies)
  }

  /** The tailnet has the new owner; owner-group rules for it become shared except on the new owner's nodes. */
  ghost predicate TailnetTransferred(db: Database, db': Database, actor: Actor, t: Id, newOwner: Id) {
    && Administrator(db, actor) && actor.id != "" && t in db.tailnets && UserOn(db, newOwner)
    && db'.tailnets == db.tailnets[t := Tailnet(newOwner, db.tailnets[t].apiId, db.tailnets[t].enabled)]
    && db'.rules.Keys == db.rules.Keys
    && (forall p :: p in db.rules ==>
          db'.rules[p].weight == db.rules[p].weight && db'.rules[p].maxBps == db.rules[p].maxBps
          && db'.rules[p].group == if p.tailnet == t && db.rules[p].group == Owner && p.node in db.nodes && db.nodes[p.node].owner != newOwner
                                   then Shared else db.rules[p].group)
    && db' == db.(tailnets := db'.tailnets, rules := db'.rules, policies := db'.policies) && SameRows(db.policies, db'.policies)
  }

  lemma DeleteCredentialMeans(db: Database, actor: Actor, t: Id)
    ensures var tx := DeleteCredential(db, actor, t);
            tx != Keep && (tx.Commit? ==> CredentialDeleted(db, tx.db, actor, t)) && (tx.Abort? ==> TailnetDenied(db, actor, t, tx.error))
  {
    TailnetOwnerMeans(db, actor, t);
  }

  lemma SetTailnetEnabledMeans(db: Database, actor: Actor, t: Id, on: bool)
    ensures var tx := SetTailnetEnabled(db, actor, t, on);
            tx != Keep && (tx.Commit? ==> TailnetSwitched(db, tx.db, actor, t, on)) && (tx.Abort? ==> TailnetDenied(db, actor, t, tx.error))
  {
    TailnetOwnerMeans(db, actor, t);
  }

  lemma WithoutTailnetMeans(db: Database, actor: Actor, t: Id)
    requires t in db.tailnets && ActsFor(db, actor, db.tailnets[t].owner)
    ensures TailnetDeleted(db, WithoutTailnet(db, t), actor, t)
  {
    hide Known, Speaks, Columns, Without, WithoutTailnetRows;
    Removed(db.tailnets, t);
    Removed(db.credentials, t);
    Removed(db.snapshots, t);
    DroppedPairs(db, t);
  }

  lemma DroppedPairs(db: Database, t: Id)
    ensures WithoutTailnetRows(db.grants, WithoutTailnet(db, t).grants, t) && WithoutTailnetRows(db.rules, WithoutTailnet(db, t).rules, t)
  {}

  lemma DeleteTailnetMeans(db: Database, actor: Actor, t: Id)
    ensures var tx := DeleteTailnet(db, actor, t);
            tx != Keep && (tx.Commit? ==> TailnetDeleted(db, tx.db, actor, t)) && (tx.Abort? ==> TailnetDenied(db, actor, t, tx.error))
  {
    hide TailnetDeleted, WithoutTailnet, TailnetDenied, TailnetOwner;
    TailnetOwnerMeans(db, actor, t);
    if TailnetOwner(db, actor, t).None? { WithoutTailnetMeans(db, actor, t); }
  }

  lemma TransferTailnetMeans(db: Database, actor: Actor, t: Id, newOwner: Id)
    ensures var tx := TransferTailnet(db, actor, t, newOwner);
            && tx != Keep && (tx.Commit? ==> TailnetTransferred(db, tx.db, actor, t, newOwner))
            && (tx == Abort(Invalid) <==> Administrator(db, actor) && actor.id != "" && t in db.tailnets && !UserOn(db, newOwner))
            && (tx == Abort(NotFound) <==> Administrator(db, actor) && t !in db.tailnets)
            && (tx == Abort(Forbidden) <==> !Administrator(db, actor) || (t in db.tailnets && actor.id == ""))
            && tx != Abort(Conflict) && tx != Abort(Unauthorized)
  {
    TailnetOwnerMeans(db, actor, t);
  }

  // The same of a committed transaction, after the policies are built again.

  lemma BuildKeepsColumns(env: Env, mid: Database, n: Id, now: int)
    requires n in mid.policies && BuildRow(env, mid, n, now).Ok?
    ensures Columns(BuildRow(env, mid, n, now).value) == Columns(mid.policies[n])
  {
    hide View, ShownTailnets, ValidPolicy;
  }

  lemma Committed(env: Env, db: Database, op: Op, now: int, db': Database)
    requires Commits(env, db, op, now, db')
    ensures var mid := Statements(env, db, op, now).db; db' == mid.(policies := db'.policies) && SameRows(mid.policies, db'.policies)
    ensures Statements(env, db, op, now).rebuild == {} ==> db' == Statements(env, db, op, now).db
  {
    hide Statements, Rebuild, BuildRow, Columns;
    var tx := Statements(env, db, op, now);
    RebuildShape(env, tx.db, tx.rebuild, now, db');
    forall n | n in tx.db.policies ensures Columns(db'.policies[n]) == Columns(tx.db.policies[n]) {
      if n in tx.rebuild { BuildKeepsColumns(env, tx.db, n, now); }
    }
    if tx.rebuild == {} { assert db'.policies == tx.db.policies; }
  }

  lemma CreateUserCommits(env: Env, db: Database, actor: Actor, id: Id, role: Role, initial: bool, now: int, db': Database)
    requires Commits(env, db, OnAccount(OpCreateUser(actor, id, role, initial)), now, db')
    ensures UserCreated(db, db', actor, id, role, initial)
  {
    hide CreateUser, Rebuild, Columns, Known, Speaks;
    Committed(env, db, OnAccount(OpCreateUser(actor, id, role, initial)), now, db');
    CreateUserMeans(db, actor, id, role, initial);
  }

  lemma SetUserRoleCommits(env: Env, db: Database, actor: Actor, user: Id, role: Role, now: int, db': Database)
    requires Commits(env, db, OnAccount(OpSetUserRole(actor, user, role)), now, db')
    ensures RoleChanged(db, db', actor, user, role)
  {
    hide SetUserRole, Rebuild, Columns, Known, Speaks;
    Committed(env, db, OnAccount(OpSetUserRole(actor, user, role)), now, db');
    SetUserRoleMeans(db, actor, user, role);
  }

  lemma SetUserEnabledCommits(env: Env, db: Database, actor: Actor, user: Id, on: bool, now: int, db': Database)
    requires Commits(env, db, OnAccount(OpSetUserEnabled(actor, user, on)), now, db')
    ensures UserSwitched(db, db', actor, user, on)
  {
    hide SetUserEnabled, Rebuild, Columns, Known, Speaks;
    Committed(env, db, OnAccount(OpSetUserEnabled(actor, user, on)), now, db');
    SetUserEnabledMeans(db, actor, user, on);
  }

  lemma SetRetentionsCommits(env: Env, db: Database, actor: Actor, r: Retentions, now: int, db': Database)
    requires Commits(env, db, OnAccount(OpSetRetentions(actor, r)), now, db')
    ensures RetentionsSet(db, db', actor, r)
  {
    hide SetRetentions, Rebuild, Columns, Known, Speaks;
    Committed(env, db, OnAccount(OpSetRetentions(actor, r)), now, db');
    SetRetentionsMeans(db, actor, r);
  }

  lemma AddTailnetCommits(env: Env, db: Database, actor: Actor, id: Id, apiId: Id, keys: seq<DeviceKey>, now: int, db': Database)
    requires Commits(env, db, OnAccount(OpAddTailnet(actor, id, apiId, keys)), now, db')
    ensures TailnetAdded(db, db', actor, id, apiId, keys, now)
  {
    hide AddTailnet, Rebuild, Columns, Known, Speaks;
    Committed(env, db, OnAccount(OpAddTailnet(actor, id, apiId, keys)), now, db');
    AddTailnetMeans(db, actor, id, apiId, keys, now);
  }

  lemma ReplaceCredentialCommits(env: Env, db: Database, actor: Actor, t: Id, seen: int, keys: seq<DeviceKey>, now: int, db': Database)
    requires Commits(env, db, OnAccount(OpReplaceCredential(actor, t, seen, keys)), now, db')
    ensures CredentialReplaced(db, db', actor, t, seen, keys, now)
  {
    hide ReplaceCredential, Rebuild, Columns, Known, Speaks;
    Committed(env, db, OnAccount(OpReplaceCredential(actor, t, seen, keys)), now, db');
    ReplaceCredentialMeans(db, actor, t, seen, keys, now);
  }

  lemma BeginRefreshCommits(env: Env, db: Database, t: Id, now: int, db': Database)
    requires Commits(env, db, OnAccount(OpBeginRefresh(t)), now, db')
    ensures RefreshBegun(db, db', t)
  {
    hide BeginRefresh, Rebuild, Columns, Known, Speaks;
    Committed(env, db, OnAccount(OpBeginRefresh(t)), now, db');
    BeginRefreshMeans(db, t);
  }

  lemma CommitRefreshCommits(env: Env, db: Database, t: Id, revision: int, refreshSeq: int, found: Option<seq<DeviceKey>>, now: int, db': Database)
    requires Commits(env, db, OnAccount(OpCommitRefresh(t, revision, refreshSeq, found)), now, db')
    ensures RefreshCommitted(db, db', t, revision, refreshSeq, found, now)
  {
    hide CommitRefresh, Rebuild, Columns, Known, Speaks;
    Committed(env, db, OnAccount(OpCommitRefresh(t, revision, refreshSeq, found)), now, db');
    CommitRefreshMeans(db, t, revision, refreshSeq, found, now);
  }

  lemma DeleteCredentialCommits(env: Env, db: Database, actor: Actor, t: Id, now: int, db': Database)
    requires Commits(env, db, OnAccount(OpDeleteCredential(actor, t)), now, db')
    ensures CredentialDeleted(db, db', actor, t)
  {
    hide DeleteCredential, Rebuild, Columns, Known, Speaks;
    Committed(env, db, OnAccount(OpDeleteCredential(actor, t)), now, db');
    DeleteCredentialMeans(db, actor, t);
  }

  lemma SetTailnetEnabledCommits(env: Env, db: Database, actor: Actor, t: Id, on: bool, now: int, db': Database)
    requires Commits(env, db, OnAccount(OpSetTailnetEnabled(actor, t, on)), now, db')
    ensures TailnetSwitched(db, db', actor, t, on)
  {
    hide SetTailnetEnabled, Rebuild, Columns, Known, Speaks;
    Committed(env, db, OnAccount(OpSetTailnetEnabled(actor, t, on)), now, db');
    SetTailnetEnabledMeans(db, actor, t, on);
  }

  lemma DeleteTailnetCommits(env: Env, db: Database, actor: Actor, t: Id, now: int, db': Database)
    requires Commits(env, db, OnAccount(OpDeleteTailnet(actor, t)), now, db')
    ensures TailnetDeleted(db, db', actor, t)
  {
    hide DeleteTailnet, Rebuild, Columns, Known, Speaks;
    Committed(env, db, OnAccount(OpDeleteTailnet(actor, t)), now, db');
    DeleteTailnetMeans(db, actor, t);
  }

  lemma TransferTailnetCommits(env: Env, db: Database, actor: Actor, t: Id, newOwner: Id, now: int, db': Database)
    requires Commits(env, db, OnAccount(OpTransferTailnet(actor, t, newOwner)), now, db')
    ensures TailnetTransferred(db, db', actor, t, newOwner)
  {
    hide TransferTailnet, Rebuild, Columns, Known, Speaks;
    Committed(env, db, OnAccount(OpTransferTailnet(actor, t, newOwner)), now, db');
    TransferTailnetMeans(db, actor, t, newOwner);
  }
}
