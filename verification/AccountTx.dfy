/** Transactions on users, tailnets and their credentials, as functions from the tables
    before to the tables after (internal/control/auth.go, credentials.go,
    identity_store.go, resources.go, policy.go). */
module AccountTx {
  import opened Ids
  import opened Protocol
  import opened Identity
  import opened Tables

  /** A transaction fails, succeeds without writing, or commits new tables together with
      the nodes whose policies it rebuilds before committing. */
  datatype Tx = Abort(error: Error) | Keep | Commit(db: Database, rebuild: set<Id>)

  function AllPolicies(db: Database): set<Id> { db.policies.Keys }

  ghost predicate HasAdmin(db: Database) { exists u :: u in db.users && db.users[u].role.Admin? }

  ghost function CreateUser(db: Database, actor: Actor, id: Id, role: Role, initial: bool): (tx: Tx)
    ensures tx.Commit? ==> tx.db == db.(users := tx.db.users, drawn := tx.db.drawn)
    ensures tx.Commit? ==> db.drawn <= tx.db.drawn
  {
    if !initial && !(actor.enabled && actor.role.Admin?) then Abort(Forbidden)
    else if !initial && role.Admin? then Abort(Invalid)
    else if !ActiveActor(db, actor) then Abort(Forbidden)
    else if initial && HasAdmin(db) then Abort(Conflict)
    else Commit(db.(users := db.users[id := User(role, true)], drawn := db.drawn + {id}), {})
  }

  ghost predicate OwnsNodes(db: Database, user: Id) { exists n :: n in db.nodes && db.nodes[n].owner == user }

  ghost function SetUserRole(db: Database, actor: Actor, user: Id, role: Role): (tx: Tx)
    ensures tx.Commit? ==> tx.db == db.(users := tx.db.users)
  {
    if !(actor.enabled && actor.role.Admin?) then Abort(Forbidden)
    else if role.Admin? then Abort(Invalid)
    else if !ActiveActor(db, actor) then Abort(Forbidden)
    else if user !in db.users then Abort(NotFound)
    else if db.users[user].role.Admin? then Abort(Forbidden)
    else if db.users[user].role == role then Keep
    else if role.Member? && OwnsNodes(db, user) then Abort(Conflict)
    else Commit(db.(users := db.users[user := db.users[user].(role := role)]), {})
  }

  function SetUserEnabled(db: Database, actor: Actor, user: Id, on: bool): (tx: Tx)
    ensures tx.Commit? ==> tx.db == db.(users := tx.db.users)
  {
    if !(actor.enabled && actor.role.Admin?) || !ActiveActor(db, actor) then Abort(Forbidden)
    else if user !in db.users then Abort(Invalid)
    else Commit(db.(users := db.users[user := db.users[user].(enabled := on)]), AllPolicies(db))
  }

  function SetRetentions(db: Database, actor: Actor, r: Retentions): (tx: Tx)
    ensures tx.Commit? ==> tx.db == db.(retentions := tx.db.retentions)
  {
    if !(actor.enabled && actor.role.Admin?) then Abort(Forbidden)
    else if !ValidRetentions(r) then Abort(Invalid)
    else if !ActiveActor(db, actor) then Abort(Forbidden)
    else Commit(db.(retentions := r), AllPolicies(db))
  }

  /** The actor may act on the tailnet; otherwise the error it gets. */
  function TailnetOwner(db: Database, actor: Actor, t: Id): Option<Error> {
    if !ActiveActor(db, actor) then Some(Forbidden)
    else if t !in db.tailnets then Some(NotFound)
    else if !RequireOwner(actor, db.tailnets[t].owner) then Some(Forbidden)
    else None
  }

  /** Replace a tailnet's identity by a complete listing; the clock may not run behind the last one. */
  function PublishIdentity(db: Database, t: Id, keys: seq<DeviceKey>, now: int): (tx: Tx)
    ensures tx.Commit? ==> tx.db == db.(snapshots := tx.db.snapshots)
  {
    if t in db.snapshots && now < db.snapshots[t].lastSuccess then Abort(Conflict)
    else
      var revision := if t in db.snapshots then db.snapshots[t].revision + 1 else 1;
      Commit(db.(snapshots := db.snapshots[t := Snapshot(revision, now, keys)]), AllPolicies(db))
  }

  ghost predicate ApiIdTaken(db: Database, apiId: Id) { exists t :: t in db.tailnets && db.tailnets[t].apiId == apiId }

  ghost function AddTailnet(db: Database, actor: Actor, id: Id, apiId: Id, keys: seq<DeviceKey>, now: int): (tx: Tx)
    ensures tx.Commit? ==> tx.db == db.(tailnets := tx.db.tailnets, credentials := tx.db.credentials,
                                        snapshots := tx.db.snapshots, drawn := tx.db.drawn)
    ensures tx.Commit? ==> db.drawn <= tx.db.drawn
    ensures tx.Commit? ==> tx.db.tailnets.Keys <= db.tailnets.Keys + {id}
  {
    if !RequireOwner(actor, actor.id) || !ActiveActor(db, actor) then Abort(Forbidden)
    else if ApiIdTaken(db, apiId) then Abort(Conflict)
    else if actor.id !in db.users then Abort(Conflict)  // the owner reference must resolve
    else
      PublishIdentity(db.(tailnets := db.tailnets[id := Tailnet(actor.id, apiId, true)],
                          credentials := db.credentials[id := Credential(Valid, 1, 0)],
                          drawn := db.drawn + {id}), id, keys, now)
  }

  function CredentialRevision(db: Database, t: Id): int {
    if t in db.credentials then db.credentials[t].revision else 0
  }

  function ReplaceCredential(db: Database, actor: Actor, t: Id, seen: int, keys: seq<DeviceKey>, now: int): (tx: Tx)
    ensures tx.Commit? ==> tx.db == db.(credentials := tx.db.credentials, snapshots := tx.db.snapshots)
  {
    var denied := TailnetOwner(db, actor, t);
    if denied.Some? then Abort(denied.value)
    else if CredentialRevision(db, t) != seen then Abort(Conflict)
    else PublishIdentity(db.(credentials := db.credentials[t := Credential(Valid, seen + 1, 0)]), t, keys, now)
  }

  function BeginRefresh(db: Database, t: Id): (tx: Tx)
    ensures tx.Commit? ==> tx.db == db.(credentials := tx.db.credentials)
  {
    if t in db.credentials && t in db.tailnets && db.tailnets[t].enabled && UserEnabled(db, db.tailnets[t].owner)
       && !db.credentials[t].status.Missing? then
      var c := db.credentials[t];
      Commit(db.(credentials := db.credentials[t := c.(refreshSeq := c.refreshSeq + 1)]), {})
    else Abort(NotFound)
  }

  /** `keys` is None when the identity source could not be read. */
  function CommitRefresh(db: Database, t: Id, revision: int, refreshSeq: int, keys: Option<seq<DeviceKey>>, now: int): (tx: Tx)
    ensures tx.Commit? ==> tx.db == db.(credentials := tx.db.credentials, snapshots := tx.db.snapshots)
  {
    if t !in db.credentials then Abort(NotFound)
    else
      var c := db.credentials[t];
      if c.revision != revision || c.refreshSeq != refreshSeq then Abort(Conflict)
      else if keys.None? then Commit(db.(credentials := db.credentials[t := c.(status := Unavailable)]), {})
      else PublishIdentity(db.(credentials := db.credentials[t := c.(status := Valid)]), t, keys.value, now)
  }

  function DeleteCredential(db: Database, actor: Actor, t: Id): (tx: Tx)
    ensures tx.Commit? ==> tx.db == db.(credentials := tx.db.credentials, snapshots := tx.db.snapshots)
  {
    var denied := TailnetOwner(db, actor, t);
    if denied.Some? then Abort(denied.value)
    else
      var credentials := if t in db.credentials then db.credentials[t := Credential(Missing, db.credentials[t].revision + 1, 0)] else db.credentials;
      var snapshots := if t in db.snapshots then db.snapshots[t := db.snapshots[t].(keys := [], revision := db.snapshots[t].revision + 1)] else db.snapshots;
      Commit(db.(credentials := credentials, snapshots := snapshots), AllPolicies(db))
  }

  function SetTailnetEnabled(db: Database, actor: Actor, t: Id, on: bool): (tx: Tx)
    ensures tx.Commit? ==> tx.db == db.(tailnets := tx.db.tailnets)
    ensures tx.Commit? ==> tx.db.tailnets.Keys == db.tailnets.Keys
  {
    var denied := TailnetOwner(db, actor, t);
    if denied.Some? then Abort(denied.value)
    else Commit(db.(tailnets := db.tailnets[t := db.tailnets[t].(enabled := on)]), AllPolicies(db))
  }

  /** The row and everything that references it. */
  function WithoutTailnet(db: Database, t: Id): Database {
    db.(tailnets := db.tailnets - {t}, credentials := db.credentials - {t}, snapshots := db.snapshots - {t},
        grants := map p | p in db.grants && p.tailnet != t :: db.grants[p],
        rules := map p | p in db.rules && p.tailnet != t :: db.rules[p])
  }

  function DeleteTailnet(db: Database, actor: Actor, t: Id): (tx: Tx)
    ensures tx.Commit? ==> tx.db == db.(tailnets := tx.db.tailnets, credentials := tx.db.credentials,
                                        snapshots := tx.db.snapshots, grants := tx.db.grants, rules := tx.db.rules)
    ensures tx.Commit? ==> forall p :: p in db.grants ==> p in tx.db.grants || p.tailnet !in tx.db.tailnets
    ensures tx.Commit? ==> tx.db.tailnets.Keys <= db.tailnets.Keys
  {
    var denied := TailnetOwner(db, actor, t);
    if denied.Some? then Abort(denied.value) else Commit(WithoutTailnet(db, t), AllPolicies(db))
  }

  /** Owner-group rules of the tailnet become shared on nodes of anyone but the new owner. */
  function DemotedRules(db: Database, t: Id, newOwner: Id): map<Pair, Rule> {
    map p | p in db.rules :: if p.tailnet == t && db.rules[p].group.Owner? && p.node in db.nodes && db.nodes[p.node].owner != newOwner
                             then db.rules[p].(group := Shared) else db.rules[p]
  }

  function TransferTailnet(db: Database, actor: Actor, t: Id, newOwner: Id): (tx: Tx)
    ensures tx.Commit? ==> tx.db == db.(tailnets := tx.db.tailnets, rules := tx.db.rules)
    ensures tx.Commit? ==> tx.db.tailnets.Keys == db.tailnets.Keys
  {
    if !(actor.role.Admin? && actor.enabled) then Abort(Forbidden)
    else
      var denied := TailnetOwner(db, actor, t);
      if denied.Some? then Abort(denied.value)
      else if !UserEnabled(db, newOwner) then Abort(Invalid)
      else Commit(db.(tailnets := db.tailnets[t := db.tailnets[t].(owner := newOwner)], rules := DemotedRules(db, t, newOwner)), AllPolicies(db))
  }
}
