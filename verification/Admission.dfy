/** What a policy should say, field by field from the tables: which tailnets it lists, under which deadlines and
    rules, and which keys it admits (internal/control/policy.go, buildPolicy). */
module Admission {
  import opened Ids
  import opened Protocol
  import opened Identity
  import opened Tables
  import opened PolicyView
  import opened Meaning

  /** The tailnet is to be admitted at the node: both sides are on, the grant is active and was confirmed by the
      node, and the tailnet has been listed. */
  predicate Admitted(db: Database, n: Id, t: Id) {
    && NodeOn(db, n) && TailnetOn(db, t) && t in db.snapshots
    && Pair(n, t) in db.grants && db.grants[Pair(n, t)].state == Active && db.grants[Pair(n, t)].lastControl > 0
  }

  /** The device is listed by this tailnet and by no other. */
  ghost predicate OwnKey(db: Database, t: Id, k: DeviceKey) {
    && t in db.snapshots && k in db.snapshots[t].keys
    && forall u :: u in db.snapshots && u != t ==> !Lists(db.snapshots[u].keys, k.nodePublic)
  }

  ghost predicate Before(listing: seq<DeviceKey>, k: DeviceKey, l: DeviceKey) {
    exists c, d :: 0 <= c < d < |listing| && listing[c] == k && listing[d] == l
  }

  /** Keys in the order of the listing. */
  ghost predicate InListingOrder(ks: seq<DeviceKey>, listing: seq<DeviceKey>) {
    forall a, b :: 0 <= a < b < |ks| ==> Before(listing, ks[a], ks[b])
  }

  ghost predicate EntrySays(db: Database, n: Id, x: GrantPolicy) {
    && Admitted(db, n, x.tailnetId)
    && var g, s := db.grants[Pair(n, x.tailnetId)], db.snapshots[x.tailnetId];
       && x.grantId == g.id && x.grantRevision == g.revision && x.lastIdentitySuccess == s.lastSuccess
       && x.identityUntil == s.lastSuccess + db.retentions.identity
       && x.controlUntil == g.lastControl + db.retentions.control
       && x.explicitUntil == (if g.explicitUntil == 0 then ZERO_TIME else g.explicitUntil)
       && (forall k :: k in x.keys <==> OwnKey(db, x.tailnetId, k))
       && InListingOrder(x.keys, s.keys)
  }

  /** The rule that was set, or else group by ownership, weight one and no ceiling. */
  predicate RuleSays(db: Database, n: Id, q: TailnetQoS) {
    && n in db.nodes && q.tailnetId in db.tailnets
    && (Pair(n, q.tailnetId) in db.rules ==>
          var r := db.rules[Pair(n, q.tailnetId)]; q.group == r.group && q.weight == r.weight && q.maxBps == r.maxBps)
    && (Pair(n, q.tailnetId) !in db.rules ==>
          q.weight == 1 && q.maxBps == 0 && q.group == if db.nodes[n].owner == db.tailnets[q.tailnetId].owner then Owner else Shared)
  }

  ghost predicate PolicySays(env: Env, db: Database, n: Id, p: Policy) {
    && n in db.policies && p.clusterId == env.clusterId && p.nodeId == n && p.revision == db.policies[n].desired
    && p.qos.budgetBps == db.policies[n].budgetBps && p.qos.ownerWeight == db.policies[n].ownerWeight
    && p.qos.sharedWeight == db.policies[n].sharedWeight && p.qos.sharedMaxBps == db.policies[n].sharedMaxBps
    && |p.qos.tailnets| == |p.grants|
    && (forall a, b :: 0 <= a < b < |p.grants| ==> Less(p.grants[a].tailnetId, p.grants[b].tailnetId))
    && (forall t :: Admitted(db, n, t) ==> exists a :: 0 <= a < |p.grants| && p.grants[a].tailnetId == t)
    && (forall a :: 0 <= a < |p.grants| ==> EntrySays(db, n, p.grants[a]))
    && (forall a :: 0 <= a < |p.grants| ==> p.qos.tailnets[a].tailnetId == p.grants[a].tailnetId && RuleSays(db, n, p.qos.tailnets[a]))
  }

  // From the view to its meaning.

  lemma AdmittedIsShown(db: Database, n: Id, t: Id)
    ensures NodeServes(db, n) && GrantShown(db, Pair(n, t)) <==> Admitted(db, n, t)
    ensures t in ShownTailnets(db, n) <==> Admitted(db, n, t)
  {
    Sides(db, Pair(n, t));
    if Admitted(db, n, t) { assert Pair(n, t) in db.grants && GrantShown(db, Pair(n, t)); }
  }

  lemma {:induction false} UnconflictedMembers(all: map<Id, Snapshot>, ks: seq<DeviceKey>, k: DeviceKey)
    ensures k in UnconflictedKeys(all, ks) <==> k in ks && !Conflicted(all, k.nodePublic)
  {
    if ks != [] {
      UnconflictedMembers(all, ks[..|ks| - 1], k);
      assert ks == ks[..|ks| - 1] + [ks[|ks| - 1]];
    }
  }

  lemma {:induction false} UnconflictedOrder(all: map<Id, Snapshot>, ks: seq<DeviceKey>)
    ensures InListingOrder(UnconflictedKeys(all, ks), ks)
  {
    if ks != [] {
      var init, last := ks[..|ks| - 1], ks[|ks| - 1];
      UnconflictedOrder(all, init);
      var rest, r := UnconflictedKeys(all, init), UnconflictedKeys(all, ks);
      forall a, b | 0 <= a < b < |r| ensures Before(ks, r[a], r[b]) {
        if b < |rest| {
          assert Before(init, rest[a], rest[b]);
          var c, d :| 0 <= c < d < |init| && init[c] == rest[a] && init[d] == rest[b];
          assert ks[c] == r[a] && ks[d] == r[b];
        } else {
          UnconflictedMembers(all, init, rest[a]);
          assert rest[a] in rest && rest[a] in init;
          var c :| 0 <= c < |init| && init[c] == rest[a];
          assert ks[c] == r[a] && ks[|ks| - 1] == r[b];
        }
      }
    }
  }

  lemma OwnIsUnconflicted(db: Database, t: Id, k: DeviceKey)
    requires t in db.snapshots && k in db.snapshots[t].keys
    ensures OwnKey(db, t, k) <==> !Conflicted(db.snapshots, k.nodePublic)
  {
    assert Holds(db.snapshots, t, k.nodePublic);
    if Conflicted(db.snapshots, k.nodePublic) {
      var a, b :| a != b && Holds(db.snapshots, a, k.nodePublic) && Holds(db.snapshots, b, k.nodePublic);
      var u := if a == t then b else a;
      assert u in db.snapshots && u != t && Lists(db.snapshots[u].keys, k.nodePublic);
    }
    if !OwnKey(db, t, k) {
      var u :| u in db.snapshots && u != t && Lists(db.snapshots[u].keys, k.nodePublic);
      assert Holds(db.snapshots, u, k.nodePublic);
    }
  }

  lemma EntryMeans(db: Database, n: Id, t: Id)
    requires Admitted(db, n, t)
    ensures GrantShown(db, Pair(n, t)) && EntrySays(db, n, GrantEntry(db, Pair(n, t)))
  {
    AdmittedIsShown(db, n, t);
    var x := GrantEntry(db, Pair(n, t));
    UnconflictedOrder(db.snapshots, db.snapshots[t].keys);
    forall k ensures k in x.keys <==> OwnKey(db, t, k) {
      UnconflictedMembers(db.snapshots, db.snapshots[t].keys, k);
      if k in db.snapshots[t].keys { OwnIsUnconflicted(db, t, k); }
    }
  }

  lemma RuleMeans(db: Database, n: Id, t: Id)
    requires n in db.nodes && t in db.tailnets
    ensures RuleEntry(db, Pair(n, t)).tailnetId == t && RuleSays(db, n, RuleEntry(db, Pair(n, t)))
  {}

  lemma EntryTailnet(db: Database, p: Pair)
    requires GrantShown(db, p)
    ensures GrantEntry(db, p).tailnetId == p.tailnet && p.tailnet in db.tailnets
  {}

  lemma ContentMeans(env: Env, db: Database, n: Id, p: Policy)
    requires n in db.nodes && n in db.policies && ContentOf(p) == View(db, n)
    requires p.clusterId == env.clusterId && p.nodeId == n && p.revision == db.policies[n].desired
    ensures PolicySays(env, db, n, p)
  {
    hide EntrySays, RuleSays, GrantEntry, RuleEntry, Admitted, ShownTailnets, GrantShown;
    var ts := Sorted(ShownTailnets(db, n));
    forall a | 0 <= a < |ts|
      ensures p.grants[a].tailnetId == ts[a] == p.qos.tailnets[a].tailnetId
      ensures EntrySays(db, n, p.grants[a]) && RuleSays(db, n, p.qos.tailnets[a])
    {
      assert ts[a] in ts;
      AdmittedIsShown(db, n, ts[a]);
      EntryMeans(db, n, ts[a]);
      EntryTailnet(db, Pair(n, ts[a]));
      RuleMeans(db, n, ts[a]);
    }
    forall t | Admitted(db, n, t) ensures exists a :: 0 <= a < |p.grants| && p.grants[a].tailnetId == t {
      AdmittedIsShown(db, n, t);
      assert t in ts;
      var a :| 0 <= a < |ts| && ts[a] == t;
      assert p.grants[a].tailnetId == t;
    }
  }

  /** The row that a build leaves holds a policy that says what the tables say. */
  lemma BuiltSays(env: Env, db: Database, n: Id, now: int)
    requires BuildRow(env, db, n, now).Ok?
    ensures n in db.policies && BuildRow(env, db, n, now).value.body.Some?
    ensures var row := BuildRow(env, db, n, now).value; PolicySays(env, db.(policies := db.policies[n := row]), n, row.body.value)
  {
    hide PolicySays, View, ShownTailnets, WithinLimits, DistinctGrants, DistinctKeys, RulesMatchGrants, ValidQoS;
    var row := BuildRow(env, db, n, now).value;
    var db' := db.(policies := db.policies[n := row]);
    assert View(db', n) == View(db, n) by { ViewOfRow(db, n, row); }
    ContentMeans(env, db', n, row.body.value);
  }

  lemma ViewOfRow(db: Database, n: Id, row: PolicyRow)
    requires n in db.nodes && n in db.policies
    requires row == db.policies[n].(desired := row.desired, body := row.body)
    ensures View(db.(policies := db.policies[n := row]), n) == View(db, n)
  {
    var db' := db.(policies := db.policies[n := row]);
    assert ShownTailnets(db', n) == ShownTailnets(db, n);
    var ts := Sorted(ShownTailnets(db, n));
    assert GrantEntries(db', n, ts) == GrantEntries(db, n, ts);
    assert RuleEntries(db', n, ts) == RuleEntries(db, n, ts);
  }
}
