/** Transactions on sharing grants and bandwidth rules
    (internal/control/grants.go, internal/control/qos.go). */
module GrantTx {
  import opened Ids
  import opened Protocol
  import opened Tables
  import opened AccountTx

  datatype Action = Approve | Confirm | Cancel | Reject | Revoke | Leave

  predicate ResourcesEnabled(db: Database, p: Pair) {
    && p.node in db.nodes && db.nodes[p.node].enabled && Serving(db.nodes[p.node].state) && UserEnabled(db, db.nodes[p.node].owner)
    && p.tailnet in db.tailnets && db.tailnets[p.tailnet].enabled && UserEnabled(db, db.tailnets[p.tailnet].owner)
  }

  predicate SameOwner(db: Database, p: Pair)
    requires p.node in db.nodes && p.tailnet in db.tailnets
  {
    db.nodes[p.node].owner == db.tailnets[p.tailnet].owner
  }

  predicate Ended(s: GrantState) { s.Cancelled? || s.Rejected? || s.Revoked? || s.Expired? }

  /** Ask for the node on behalf of the tailnet; with one owner on both sides the grant is active at once.
      `until` is 0 for no explicit deadline; `id` is used only for a new grant. */
  function RequestGrant(db: Database, actor: Actor, p: Pair, expected: nat, until: int, id: Id, now: int): (tx: Tx)
    ensures tx.Commit? ==> tx.db == db.(grants := tx.db.grants, drawn := tx.db.drawn)
    ensures tx.Commit? ==> db.drawn <= tx.db.drawn
    ensures tx.Commit? ==> db.grants.Keys <= tx.db.grants.Keys
  {
    if expected >= MAX_INT64 || (until != 0 && now >= until) then Abort(Invalid)
    else if !ActiveActor(db, actor) then Abort(Forbidden)
    else if p.node !in db.nodes || p.tailnet !in db.tailnets then Abort(NotFound)
    else if !RequireOwner(actor, db.tailnets[p.tailnet].owner) then Abort(Forbidden)
    else if !ResourcesEnabled(db, p) then Abort(Conflict)
    else
      var state := if SameOwner(db, p) then Active else Requested;
      var control := if state.Active? then now else 0;
      if p !in db.grants then
        if expected != 0 then Abort(Conflict)
        else Commit(db.(grants := db.grants[p := Grant(id, state, 1, until, control)], drawn := db.drawn + {id}), {p.node})
      else
        var g := db.grants[p];
        var shown := DerivedState(g, now);
        if shown == state && g.explicitUntil == until && (expected == g.revision || expected + 1 == g.revision) then Keep
        else if expected != g.revision || !Ended(shown) then Abort(Conflict)
        else Commit(db.(grants := db.grants[p := Grant(g.id, state, g.revision + 1, until, control)]), {p.node})
  }

  function NextState(a: Action): GrantState {
    match a
    case Approve => OwnerApproved
    case Confirm => Active
    case Cancel => Cancelled
    case Reject => Rejected
    case Revoke => Revoked
    case Leave => Revoked
  }

  predicate Allowed(a: Action, s: GrantState) {
    match a
    case Approve => s.Requested?
    case Confirm => s.OwnerApproved?
    case Cancel => s.Requested? || s.OwnerApproved?
    case Reject => s.Requested?
    case Revoke => s.OwnerApproved? || s.Active?
    case Leave => s.OwnerApproved? || s.Active?
  }

  /** Whose authority an action needs: the node's side or the tailnet's side. */
  function ActionOwner(db: Database, a: Action, p: Pair): Id
    requires p.node in db.nodes && p.tailnet in db.tailnets
  {
    if a.Approve? || a.Reject? || a.Revoke? then db.nodes[p.node].owner else db.tailnets[p.tailnet].owner
  }

  ghost predicate HasGrant(db: Database, id: Id, p: Pair) {
    p in db.grants && db.grants[p].id == id && p.node in db.nodes && p.tailnet in db.tailnets
  }

  /** An action on the grant of pair `p`. */
  function ActOnPair(db: Database, actor: Actor, p: Pair, expected: nat, a: Action, now: int): (tx: Tx)
    requires p in db.grants && p.node in db.nodes && p.tailnet in db.tailnets
    ensures tx.Commit? ==> tx.db == db.(grants := tx.db.grants)
    ensures tx.Commit? ==> db.grants.Keys <= tx.db.grants.Keys
  {
    var g := db.grants[p];
    var shown, next := DerivedState(g, now), NextState(a);
    if !RequireOwner(actor, ActionOwner(db, a, p)) then Abort(Forbidden)
    else if shown == next && (g.revision == expected || g.revision == expected + 1) then Keep
    else if g.revision != expected || !Allowed(a, shown) then Abort(Conflict)
    else if (a.Approve? || a.Confirm?) && !ResourcesEnabled(db, p) then Abort(Conflict)
    else Commit(db.(grants := db.grants[p := g.(state := next, revision := g.revision + 1, lastControl := if next.Active? then now else 0)]), {p.node})
  }

  ghost function ApplyGrantAction(db: Database, actor: Actor, id: Id, expected: nat, a: Action, now: int): (tx: Tx)
    ensures tx.Commit? ==> tx.db == db.(grants := tx.db.grants)
    ensures tx.Commit? ==> db.grants.Keys <= tx.db.grants.Keys
  {
    if expected == 0 || expected >= MAX_INT64 then Abort(Invalid)
    else if !ActiveActor(db, actor) then Abort(Forbidden)
    else if !exists p :: HasGrant(db, id, p) then Abort(NotFound)
    else
      var p :| HasGrant(db, id, p);
      ActOnPair(db, actor, p, expected, a, now)
  }

  predicate Live(s: GrantState) { s.Requested? || s.OwnerApproved? || s.Active? }

  /** A rule may be set where a grant is alive, and in the owner group only for the owner's own tailnet. */
  predicate RuleAllowed(db: Database, n: Id, t: TailnetQoS)
    requires n in db.nodes
  {
    && Pair(n, t.tailnetId) in db.grants && Live(db.grants[Pair(n, t.tailnetId)].state)
    && t.tailnetId in db.tailnets
    && (t.group.Owner? ==> SameOwner(db, Pair(n, t.tailnetId)))
  }

  function InsertRules(rules: map<Pair, Rule>, n: Id, ts: seq<TailnetQoS>): map<Pair, Rule> {
    if ts == [] then rules else
      var t := ts[|ts| - 1];
      InsertRules(rules, n, ts[..|ts| - 1])[Pair(n, t.tailnetId) := Rule(t.group, t.weight, t.maxBps)]
  }

  function RulesOfOthers(db: Database, n: Id): map<Pair, Rule> {
    map p | p in db.rules && p.node != n :: db.rules[p]
  }

  ghost function SetNodeQoS(db: Database, actor: Actor, n: Id, q: QoSPolicy): (tx: Tx)
    ensures tx.Commit? ==> tx.db == db.(policies := tx.db.policies, rules := tx.db.rules)
    ensures tx.Commit? ==> tx.db.policies.Keys == db.policies.Keys
  {
    if !ValidQoS(q) then Abort(Invalid)
    else if !ActiveActor(db, actor) then Abort(Forbidden)
    else if n !in db.nodes then Abort(NotFound)
    else if !RequireOwner(actor, db.nodes[n].owner) then Abort(Forbidden)
    else if exists i :: 0 <= i < |q.tailnets| && !RuleAllowed(db, n, q.tailnets[i]) then Abort(Invalid)
    else
      var policies := if n in db.policies
        then db.policies[n := db.policies[n].(budgetBps := q.budgetBps, ownerWeight := q.ownerWeight,
                                              sharedWeight := q.sharedWeight, sharedMaxBps := q.sharedMaxBps)]
        else db.policies;
      Commit(db.(policies := policies, rules := InsertRules(RulesOfOthers(db, n), n, q.tailnets)), {n})
  }
}
