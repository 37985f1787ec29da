/** The policy as a materialised view: what a node's stored policy should say as one pure
    function of the tables, and the build that keeps it (internal/control/policy.go). */
module PolicyView {
  import opened Ids
  import opened Protocol
  import opened Identity
  import opened Tables

  /** The node itself may relay: enabled, its owner enabled, and in a serving state. */
  predicate NodeServes(db: Database, n: Id) {
    n in db.nodes && db.nodes[n].enabled && UserEnabled(db, db.nodes[n].owner) && Serving(db.nodes[n].state)
  }

  /** The grant is consented and neither the tailnet nor its owner is paused. */
  predicate GrantEligible(db: Database, p: Pair) {
    && p in db.grants && db.grants[p].state.Active?
    && p.tailnet in db.tailnets && db.tailnets[p.tailnet].enabled && UserEnabled(db, db.tailnets[p.tailnet].owner)
  }

  /** ... and the tailnet has an identity and the grant has been confirmed by the node. */
  predicate GrantShown(db: Database, p: Pair) {
    GrantEligible(db, p) && p.tailnet in db.snapshots && db.grants[p].lastControl > 0
  }

  function ShownTailnets(db: Database, n: Id): set<Id> {
    if NodeServes(db, n) then set p | p in db.grants && p.node == n && GrantShown(db, p) :: p.tailnet else {}
  }

  /** A snapshot's keys without those another tailnet also presents. */
  ghost function UnconflictedKeys(all: map<Id, Snapshot>, ks: seq<DeviceKey>): seq<DeviceKey> {
    if ks == [] then [] else
      var rest := UnconflictedKeys(all, ks[..|ks| - 1]);
      if Conflicted(all, ks[|ks| - 1].nodePublic) then rest else rest + [ks[|ks| - 1]]
  }

  ghost function GrantEntry(db: Database, p: Pair): GrantPolicy
    requires GrantShown(db, p)
  {
    var g, snap := db.grants[p], db.snapshots[p.tailnet];
    GrantPolicy(g.id, g.revision, p.tailnet, snap.lastSuccess,
                snap.lastSuccess + db.retentions.identity,
                g.lastControl + db.retentions.control,
                if g.explicitUntil != 0 then g.explicitUntil else ZERO_TIME,
                UnconflictedKeys(db.snapshots, snap.keys))
  }

  function RuleEntry(db: Database, p: Pair): TailnetQoS
    requires p.node in db.nodes && p.tailnet in db.tailnets
  {
    if p in db.rules then
      TailnetQoS(p.tailnet, db.rules[p].group, db.rules[p].weight, db.rules[p].maxBps)
    else
      TailnetQoS(p.tailnet, if db.tailnets[p.tailnet].owner == db.nodes[p.node].owner then Owner else Shared, 1, 0)
  }

  ghost function GrantEntries(db: Database, n: Id, ts: seq<Id>): seq<GrantPolicy>
    requires forall t :: t in ts ==> GrantShown(db, Pair(n, t))
  {
    seq(|ts|, i requires 0 <= i < |ts| => assert ts[i] in ts; GrantEntry(db, Pair(n, ts[i])))
  }

  ghost function RuleEntries(db: Database, n: Id, ts: seq<Id>): seq<TailnetQoS>
    requires n in db.nodes && forall t :: t in ts ==> t in db.tailnets
  {
    seq(|ts|, i requires 0 <= i < |ts| => assert ts[i] in ts; RuleEntry(db, Pair(n, ts[i])))
  }

  /** The part of a policy that the tables determine. */
  datatype Content = Content(grants: seq<GrantPolicy>, qos: QoSPolicy)

  function ContentOf(p: Policy): Content { Content(p.grants, p.qos) }

  ghost function View(db: Database, n: Id): Content
    requires n in db.nodes && n in db.policies
  {
    var row, ts := db.policies[n], Sorted(ShownTailnets(db, n));
    Content(GrantEntries(db, n, ts),
            QoSPolicy(row.budgetBps, row.ownerWeight, row.sharedWeight, row.sharedMaxBps, RuleEntries(db, n, ts)))
  }

  /** An owner-group rule on a tailnet that does not belong to the node's owner. */
  predicate ForeignOwnerRule(db: Database, p: Pair) {
    && p in db.rules && db.rules[p].group.Owner?
    && p.node in db.nodes && p.tailnet in db.tailnets
    && db.tailnets[p.tailnet].owner != db.nodes[p.node].owner
  }

  function PolicyWith(env: Env, n: Id, revision: int, at: int, c: Content): Policy {
    Policy(env.clusterId, n, revision, at, c.grants, c.qos)
  }

  /** The stored row after building node `n`'s policy at `now`. */
  ghost function BuildRow(env: Env, db: Database, n: Id, now: int): Outcome<PolicyRow> {
    if n !in db.nodes || db.nodes[n].owner !in db.users || n !in db.policies then Err(NotFound)
    else if !ValidRetentions(db.retentions) then Err(Invalid)
    else if exists t :: t in ShownTailnets(db, n) && ForeignOwnerRule(db, Pair(n, t)) then Err(Invalid)
    else
      var row, content := db.policies[n], View(db, n);
      if row.desired < 0 || row.desired >= MAX_INT64 then Err(Conflict)
      else if row.body.Some? && (!ValidPolicy(row.body.value, env.clusterId, n) || !env.fits(row.body.value) || row.body.value.revision != row.desired) then Err(Invalid)
      else if row.body.Some? && ContentOf(row.body.value) == content then Ok(row)
      else if row.body.Some? && now < row.body.value.generatedAt then Err(Conflict)
      else
        var p := PolicyWith(env, n, row.desired + 1, now, content);
        if !ValidPolicy(p, env.clusterId, n) || !env.fits(p) then Err(Invalid)
        else Ok(row.(desired := row.desired + 1, body := Some(p)))
  }

  ghost function FailingBuilds(env: Env, db: Database, ns: set<Id>, now: int): set<Id> {
    set n | n in ns && BuildRow(env, db, n, now).Err?
  }

  /** All policies of `ns` built together: either every one, or the transaction fails with
      the error of the first in node order. */
  ghost function Rebuild(env: Env, db: Database, ns: set<Id>, now: int): Outcome<Database> {
    var bad := Sorted(FailingBuilds(env, db, ns, now));
    if bad != [] then
      assert bad[0] in bad;
      Err(BuildRow(env, db, bad[0], now).error)
    else
      assert forall n :: n in ns && BuildRow(env, db, n, now).Err? ==> n in bad;
      Ok(db.(policies := map n | n in db.policies :: if n in ns then BuildRow(env, db, n, now).value else db.policies[n]))
  }
}
