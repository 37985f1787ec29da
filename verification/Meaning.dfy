/** What authority, consent, admission and sessions mean, read off the tables alone. These definitions are the
    reference that the transactions and the stored policies are held against. */
module Meaning {
  import opened Ids
  import opened Tables
  import opened PolicyView
  import opened GrantTx
  import opened NodeTx

  // What is left of a table when rows go.

  ghost predicate Without<V(!new)>(before: map<Id, V>, after: map<Id, V>, k: Id) {
    (forall x :: x in after <==> x in before && x != k) && forall x :: x in after && x in before ==> after[x] == before[x]
  }

  ghost predicate WithoutNodeRows<V(!new)>(before: map<Pair, V>, after: map<Pair, V>, n: Id) {
    (forall p :: p in after <==> p in before && p.node != n) && forall p :: p in after && p in before ==> after[p] == before[p]
  }

  ghost predicate WithoutTailnetRows<V(!new)>(before: map<Pair, V>, after: map<Pair, V>, t: Id) {
    (forall p :: p in after <==> p in before && p.tailnet != t) && forall p :: p in after && p in before ==> after[p] == before[p]
  }

  /** No session of the node is left, and all others are. */
  ghost predicate WithoutSessions(before: map<string, SessionRow>, after: map<string, SessionRow>, n: Id) {
    (forall k :: k in after <==> k in before && before[k].node != n) && forall k :: k in after && k in before ==> after[k] == before[k]
  }

  ghost predicate WithoutChallenges(before: map<string, ChallengeRow>, after: map<string, ChallengeRow>, n: Id) {
    (forall k :: k in after <==> k in before && before[k].node != n) && forall k :: k in after && k in before ==> after[k] == before[k]
  }

  lemma Removed<V(!new)>(m: map<Id, V>, k: Id)
    ensures Without(m, m - {k}, k)
  {}

  lemma RemovedRows(db: Database, n: Id)
    ensures WithoutSessions(db.sessions, SessionsOfOthers(db, n), n) && WithoutChallenges(db.challenges, ChallengesOfOthers(db, n), n)
  {}

  /** The row but for the published policy. */
  function Columns(r: PolicyRow): PolicyRow { r.(desired := 0, body := None) }

  /** Policies may have been built again; the other columns are as before. */
  ghost predicate SameRows(before: map<Id, PolicyRow>, after: map<Id, PolicyRow>) {
    after.Keys == before.Keys && forall n :: n in before ==> Columns(after[n]) == Columns(before[n])
  }

  // Authority.

  /** The machine's own operator, or a user who exists, is enabled and has the role it claims. */
  predicate Known(db: Database, actor: Actor) {
    actor.id == "local" || (actor.id in db.users && db.users[actor.id] == User(actor.role, true))
  }

  predicate Speaks(actor: Actor, owner: Id) { actor.enabled && actor.id != "" && (actor.role == Admin || actor.id == owner) }

  predicate ActsFor(db: Database, actor: Actor, owner: Id) { Known(db, actor) && Speaks(actor, owner) }

  predicate Administrator(db: Database, actor: Actor) { Known(db, actor) && actor.enabled && actor.role == Admin }

  lemma Authority(db: Database, actor: Actor, owner: Id)
    ensures ActiveActor(db, actor) <==> Known(db, actor)
    ensures RequireOwner(actor, owner) <==> Speaks(actor, owner)
  {}

  // Which side is on.

  predicate UserOn(db: Database, u: Id) { u in db.users && db.users[u].enabled }

  predicate Enlisted(s: NodeState) { s == Registered || s == Ready || s == Offline }

  predicate NodeOn(db: Database, n: Id) {
    n in db.nodes && db.nodes[n].enabled && Enlisted(db.nodes[n].state) && UserOn(db, db.nodes[n].owner)
  }

  predicate TailnetOn(db: Database, t: Id) { t in db.tailnets && db.tailnets[t].enabled && UserOn(db, db.tailnets[t].owner) }

  lemma Sides(db: Database, p: Pair)
    ensures ResourcesEnabled(db, p) <==> NodeOn(db, p.node) && TailnetOn(db, p.tailnet)
    ensures NodeServes(db, p.node) <==> NodeOn(db, p.node)
  {}

  // Grants.

  /** An open or active grant whose explicit deadline has come. */
  predicate Lapsed(g: Grant, now: int) {
    (g.state == Requested || g.state == OwnerApproved || g.state == Active) && g.explicitUntil != 0 && g.explicitUntil <= now
  }

  /** What a grant counts as at `now`. */
  predicate CountsAs(g: Grant, now: int, s: GrantState) { if Lapsed(g, now) then s == Expired else s == g.state }

  /** The moves an action makes, and the side that may make it. */
  predicate Transition(a: Action, from: GrantState, to: GrantState) {
    || (a == Approve && from == Requested && to == OwnerApproved)
    || (a == Confirm && from == OwnerApproved && to == Active)
    || (a == Cancel && (from == Requested || from == OwnerApproved) && to == Cancelled)
    || (a == Reject && from == Requested && to == Rejected)
    || (a == Revoke && (from == OwnerApproved || from == Active) && to == Revoked)
    || (a == Leave && (from == OwnerApproved || from == Active) && to == Revoked)
  }

  predicate NodeSide(a: Action) { a == Approve || a == Reject || a == Revoke }

  /** The actor speaks for the side that the action belongs to: the node's owner or the tailnet's. */
  predicate OnItsSide(db: Database, actor: Actor, a: Action, p: Pair) {
    && p.node in db.nodes && p.tailnet in db.tailnets
    && (NodeSide(a) ==> Speaks(actor, db.nodes[p.node].owner))
    && (!NodeSide(a) ==> Speaks(actor, db.tailnets[p.tailnet].owner))
  }

  predicate MayAct(db: Database, actor: Actor, a: Action, p: Pair) { Known(db, actor) && OnItsSide(db, actor, a, p) }

  lemma Actions(db: Database, actor: Actor, a: Action, p: Pair, now: int)
    requires p in db.grants && p.node in db.nodes && p.tailnet in db.tailnets
    ensures OnItsSide(db, actor, a, p) <==> RequireOwner(actor, ActionOwner(db, a, p))
    ensures MayAct(db, actor, a, p) <==> ActiveActor(db, actor) && RequireOwner(actor, ActionOwner(db, a, p))
    ensures forall s :: CountsAs(db.grants[p], now, s) <==> s == DerivedState(db.grants[p], now)
    ensures forall s :: Transition(a, DerivedState(db.grants[p], now), s) <==> Allowed(a, DerivedState(db.grants[p], now)) && s == NextState(a)
  {}

  // Sessions.

  /** The token is stored, not expired, and of the instance on record of an enlisted node whose owner is enabled. */
  predicate SpeaksFor(db: Database, token: string, n: Id, now: int) {
    && IsToken(token) && token in db.sessions && db.sessions[token].node == n && now < db.sessions[token].expiresAt
    && n in db.nodes && db.nodes[n].instance == db.sessions[token].instance && Enlisted(db.nodes[n].state) && UserOn(db, db.nodes[n].owner)
  }

  lemma Sessions(db: Database, token: string, n: Id, now: int)
    ensures Authenticates(db, token, n, now) <==> SpeaksFor(db, token, n, now)
  {}
}
