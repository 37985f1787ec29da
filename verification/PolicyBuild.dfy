/** The build itself, as the controller runs it: an ordered query, a loop over its rows and
    the comparison with the previous body (internal/control/policy.go). */
module PolicyBuild {
  import opened Ids
  import opened Protocol
  import opened Identity
  import opened Tables
  import opened PolicyView
  import opened Admission

  method InsertInOrder(ts: seq<Id>, t: Id) returns (r: seq<Id>)
    requires Increasing(ts) && t !in ts
    ensures Increasing(r) && forall x :: x in r <==> x in ts || x == t
  {
    var i := 0;
    while i < |ts| && Less(ts[i], t)
      invariant 0 <= i <= |ts|
      invariant forall j :: 0 <= j < i ==> Less(ts[j], t)
    {
      i := i + 1;
    }
    r := ts[..i] + [t] + ts[i..];
    if i < |ts| {
      LessTotal(ts[i], t);
      assert ts[i] in ts;
      forall j | i < j < |ts| ensures Less(t, ts[j]) { LessTransitive(t, ts[i], ts[j]); }
    }
    assert forall j :: i <= j < |ts| ==> Less(t, ts[j]);
    assert forall x :: x in ts <==> x in ts[..i] || x in ts[i..] by { assert ts == ts[..i] + ts[i..]; }
  }

  /** `ORDER BY` over a set of ids. */
  method InOrder(s: set<Id>) returns (ts: seq<Id>)
    ensures ts == Sorted(s)
  {
    ts := [];
    var rest := s;
    while rest != {}
      invariant rest <= s && Increasing(ts)
      invariant forall x :: x in ts <==> x in s - rest
    {
      var t :| t in rest;
      ts := InsertInOrder(ts, t);
      rest := rest - {t};
    }
    IncreasingIsUnique(ts, Sorted(s));
  }

  method VisibleKeys(all: map<Id, Snapshot>, conflicts: set<NodePublic>, ks: seq<DeviceKey>) returns (r: seq<DeviceKey>)
    requires forall k :: k in conflicts <==> Conflicted(all, k)
    ensures r == UnconflictedKeys(all, ks)
  {
    r := [];
    for i := 0 to |ks|
      invariant r == UnconflictedKeys(all, ks[..i])
    {
      assert ks[..i + 1][..i] == ks[..i];
      if ks[i].nodePublic !in conflicts {
        r := r + [ks[i]];
      }
    }
    assert ks[..|ks|] == ks;
  }

  /** The tailnets that the eligibility query of `n` returns. */
  ghost function EligibleTailnets(db: Database, n: Id): set<Id> {
    set p | p in db.grants && p.node == n && GrantEligible(db, p) :: p.tailnet
  }

  /** The rows kept so far by the loop over the query. */
  ghost predicate Kept(db: Database, n: Id, rows: seq<Id>, i: nat, kept: seq<Id>)
    requires i <= |rows|
  {
    && Increasing(kept)
    && (forall t :: t in kept <==> t in rows[..i] && GrantShown(db, Pair(n, t)))
  }

  lemma KeptStep(db: Database, n: Id, rows: seq<Id>, i: nat, kept: seq<Id>)
    requires i < |rows| && Increasing(rows) && Kept(db, n, rows, i, kept)
    ensures Kept(db, n, rows, i + 1, if GrantShown(db, Pair(n, rows[i])) then kept + [rows[i]] else kept)
  {
    assert rows[..i + 1] == rows[..i] + [rows[i]];
    forall t | t in kept ensures Less(t, rows[i]) {
      var j :| 0 <= j < i && rows[j] == t;
    }
  }

  lemma KeptAll(db: Database, n: Id, rows: seq<Id>, kept: seq<Id>)
    requires NodeServes(db, n) && rows == Sorted(EligibleTailnets(db, n)) && Kept(db, n, rows, |rows|, kept)
    ensures kept == Sorted(ShownTailnets(db, n))
  {
    assert rows[..|rows|] == rows;
    forall t ensures t in kept <==> t in ShownTailnets(db, n) {
      if t in ShownTailnets(db, n) {
        assert Pair(n, t) in db.grants && GrantShown(db, Pair(n, t));
        assert t in EligibleTailnets(db, n);
      }
    }
    IncreasingIsUnique(kept, Sorted(ShownTailnets(db, n)));
  }

  lemma EntriesAppend(db: Database, n: Id, kept: seq<Id>, t: Id)
    requires n in db.nodes && forall x :: x in kept + [t] ==> GrantShown(db, Pair(n, x))
    ensures forall x :: x in kept ==> GrantShown(db, Pair(n, x))
    ensures GrantShown(db, Pair(n, t))
    ensures GrantEntries(db, n, kept + [t]) == GrantEntries(db, n, kept) + [GrantEntry(db, Pair(n, t))]
    ensures RuleEntries(db, n, kept + [t]) == RuleEntries(db, n, kept) + [RuleEntry(db, Pair(n, t))]
  {
    assert t in kept + [t];
    forall x | x in kept ensures GrantShown(db, Pair(n, x)) { assert x in kept + [t]; }
  }

  /** One row of the query; a foreign owner-group rule stops the build. */
  method BuildEntry(db: Database, p: Pair, conflicts: set<NodePublic>) returns (ok: bool, entry: GrantPolicy, rule: TailnetQoS)
    requires NodeServes(db, p.node) && GrantShown(db, p)
    requires forall k :: k in conflicts <==> Conflicted(db.snapshots, k)
    ensures ok <==> !ForeignOwnerRule(db, p)
    ensures entry == GrantEntry(db, p) && entry.tailnetId == p.tailnet && EntrySays(db, p.node, entry)
    ensures ok ==> rule == RuleEntry(db, p) && rule.tailnetId == p.tailnet && RuleSays(db, p.node, rule)
  {
    AdmittedIsShown(db, p.node, p.tailnet);
    EntryMeans(db, p.node, p.tailnet);
    RuleMeans(db, p.node, p.tailnet);
    hide EntrySays, RuleSays, Admitted;
    var g, snap := db.grants[p], db.snapshots[p.tailnet];
    var keys := VisibleKeys(db.snapshots, conflicts, snap.keys);
    entry := GrantPolicy(g.id, g.revision, p.tailnet, snap.lastSuccess,
                         snap.lastSuccess + db.retentions.identity, g.lastControl + db.retentions.control,
                         if g.explicitUntil != 0 then g.explicitUntil else ZERO_TIME, keys);
    var same := db.tailnets[p.tailnet].owner == db.nodes[p.node].owner;
    var group := if same then Owner else Shared;
    var weight, ceiling := 1, 0;
    if p in db.rules {
      group, weight, ceiling := db.rules[p].group, db.rules[p].weight, db.rules[p].maxBps;
    }
    ok := !(group.Owner? && !same);
    rule := TailnetQoS(p.tailnet, group, weight, ceiling);
  }

  ghost predicate Foreign(db: Database, n: Id) {
    exists t :: t in ShownTailnets(db, n) && ForeignOwnerRule(db, Pair(n, t))
  }

  /** The loop over the eligible rows: skip what has no identity or was never confirmed. */
  method CollectGrants(db: Database, n: Id, conflicts: set<NodePublic>)
    returns (ok: bool, grants: seq<GrantPolicy>, rules: seq<TailnetQoS>)
    requires NodeServes(db, n)
    requires forall k :: k in conflicts <==> Conflicted(db.snapshots, k)
    ensures ok <==> !Foreign(db, n)
    ensures ok ==> grants == GrantEntries(db, n, Sorted(ShownTailnets(db, n)))
    ensures ok ==> rules == RuleEntries(db, n, Sorted(ShownTailnets(db, n)))
  {
    grants, rules := [], [];
    var rows := InOrder(set p | p in db.grants && p.node == n && GrantEligible(db, p) :: p.tailnet);
    ghost var kept: seq<Id> := [];
    for i := 0 to |rows|
      invariant Kept(db, n, rows, i, kept)
      invariant forall t :: t in kept ==> !ForeignOwnerRule(db, Pair(n, t))
      invariant grants == GrantEntries(db, n, kept) && rules == RuleEntries(db, n, kept)
    {
      var p := Pair(n, rows[i]);
      EligibleRow(db, n, rows, i);
      KeptStep(db, n, rows, i, kept);
      if p.tailnet !in db.snapshots || db.grants[p].lastControl <= 0 {
        continue;
      }
      var rowOk, entry, rule := BuildEntry(db, p, conflicts);
      if !rowOk {
        assert p.tailnet in ShownTailnets(db, n);
        return false, grants, rules;
      }
      EntriesAppend(db, n, kept, p.tailnet);
      kept := kept + [p.tailnet];
      grants, rules := grants + [entry], rules + [rule];
    }
    KeptAll(db, n, rows, kept);
    return true, grants, rules;
  }

  lemma EligibleRow(db: Database, n: Id, rows: seq<Id>, i: nat)
    requires i < |rows| && rows == Sorted(EligibleTailnets(db, n))
    ensures GrantEligible(db, Pair(n, rows[i]))
  {
    assert rows[i] in rows;
    var p :| p in db.grants && p.node == n && GrantEligible(db, p) && p.tailnet == rows[i];
    assert p == Pair(n, rows[i]);
  }

  method BuildPolicy(env: Env, db: Database, n: Id, now: int) returns (r: Outcome<PolicyRow>)
    ensures r == BuildRow(env, db, n, now)
    ensures r.Ok? ==> n in db.policies && r.value.body.Some? && PolicySays(env, db.(policies := db.policies[n := r.value]), n, r.value.body.value)
  {
    hide PolicySays;
    if BuildRow(env, db, n, now).Ok? { BuiltSays(env, db, n, now); }
    if n !in db.nodes || db.nodes[n].owner !in db.users {
      return Err(NotFound);
    }
    if n !in db.policies {
      return Err(NotFound);
    }
    var row := db.policies[n];
    if !ValidRetentions(db.retentions) {
      return Err(Invalid);
    }
    var conflicts := ConflictingKeys(db.snapshots);
    var grants: seq<GrantPolicy>, rules: seq<TailnetQoS> := [], [];
    if NodeServes(db, n) {
      var ok;
      ok, grants, rules := CollectGrants(db, n, conflicts);
      if !ok {
        return Err(Invalid);
      }
    }
    var content := Content(grants, QoSPolicy(row.budgetBps, row.ownerWeight, row.sharedWeight, row.sharedMaxBps, rules));
    assert content == View(db, n);
    if row.desired < 0 || row.desired >= MAX_INT64 {
      return Err(Conflict);
    }
    if row.body.Some? {
      var previous := row.body.value;
      var valid := ValidatePolicy(previous, env.clusterId, n);
      if !valid || !env.fits(previous) || previous.revision != row.desired {
        return Err(Invalid);
      }
      if ContentOf(previous) == content {
        return Ok(row);
      }
      if now < previous.generatedAt {
        return Err(Conflict);
      }
    }
    var p := PolicyWith(env, n, row.desired + 1, now, content);
    var valid := ValidatePolicy(p, env.clusterId, n);
    if !valid || !env.fits(p) {
      return Err(Invalid);
    }
    return Ok(row.(desired := row.desired + 1, body := Some(p)));
  }

  /** Building one policy leaves every other node's build unchanged: a view reads no
      stored body or revision but its own. */
  lemma BuildIgnoresOtherRows(env: Env, db: Database, policies: map<Id, PolicyRow>, n: Id, now: int)
    requires policies.Keys == db.policies.Keys && (n in policies ==> policies[n] == db.policies[n])
    ensures BuildRow(env, db.(policies := policies), n, now) == BuildRow(env, db, n, now)
  {
    hide ValidPolicy, View;
    SameShown(db, policies, n);
    if n in db.nodes && n in db.policies { SameView(db, policies, n); }
  }

  lemma SameShown(db: Database, policies: map<Id, PolicyRow>, n: Id)
    ensures ShownTailnets(db.(policies := policies), n) == ShownTailnets(db, n)
  {}

  lemma SameView(db: Database, policies: map<Id, PolicyRow>, n: Id)
    requires n in db.nodes && n in db.policies && n in policies && policies[n] == db.policies[n]
    ensures View(db.(policies := policies), n) == View(db, n)
  {
    SameShown(db, policies, n);
    var ts := Sorted(ShownTailnets(db, n));
    assert GrantEntries(db.(policies := policies), n, ts) == GrantEntries(db, n, ts);
    assert RuleEntries(db.(policies := policies), n, ts) == RuleEntries(db, n, ts);
  }

  /** The first `i` policies are built, the rest untouched. */
  ghost predicate BuiltUpTo(env: Env, db: Database, ids: seq<Id>, i: nat, policies: map<Id, PolicyRow>, now: int)
    requires i <= |ids|
  {
    && policies.Keys == db.policies.Keys
    && (forall j :: 0 <= j < i ==> ids[j] in db.policies && BuildRow(env, db, ids[j], now) == Ok(policies[ids[j]]))
    && (forall n :: n in db.policies && n !in ids[..i] ==> policies[n] == db.policies[n])
  }

  lemma AllBuilt(env: Env, db: Database, ns: set<Id>, ids: seq<Id>, policies: map<Id, PolicyRow>, now: int)
    requires ids == Sorted(ns) && BuiltUpTo(env, db, ids, |ids|, policies, now)
    ensures Rebuild(env, db, ns, now) == Ok(db.(policies := policies))
  {
    hide BuildRow;
    assert ids[..|ids|] == ids;
    forall n | n in ns ensures n in db.policies && BuildRow(env, db, n, now) == Ok(policies[n]) {
      assert n in ids;
    }
    assert FailingBuilds(env, db, ns, now) == {};
    var r := Rebuild(env, db, ns, now);
    assert r.Ok? && r.value == db.(policies := r.value.policies);
    assert r.value.policies == policies;
  }

  lemma BuiltNext(env: Env, db: Database, ids: seq<Id>, i: nat, policies: map<Id, PolicyRow>, row: PolicyRow, now: int)
    requires i < |ids| && Increasing(ids) && BuiltUpTo(env, db, ids, i, policies, now)
    requires BuildRow(env, db, ids[i], now) == Ok(row)
    ensures BuiltUpTo(env, db, ids, i + 1, policies[ids[i] := row], now)
  {
    hide BuildRow;
    BuildNeedsRow(env, db, ids[i], now);
    forall j | 0 <= j < i ensures ids[j] != ids[i] { LessTotal(ids[j], ids[j]); }
    assert ids[..i + 1] == ids[..i] + [ids[i]];
  }

  lemma BuildNeedsRow(env: Env, db: Database, n: Id, now: int)
    ensures BuildRow(env, db, n, now).Ok? ==> n in db.policies
  {}

  /** Building policies one after the other, in node order, computes the simultaneous rebuild. */
  method RebuildPolicies(env: Env, db: Database, ns: set<Id>, now: int) returns (r: Outcome<Database>)
    ensures r == Rebuild(env, db, ns, now)
  {
    hide BuildRow, Rebuild;
    var ids := InOrder(ns);
    var policies := db.policies;
    for i := 0 to |ids|
      invariant BuiltUpTo(env, db, ids, i, policies, now)
    {
      var built := BuildPolicy(env, db.(policies := policies), ids[i], now);
      RowStillOld(env, db, ids, i, policies, now);
      BuildIgnoresOtherRows(env, db, policies, ids[i], now);
      if built.Err? {
        FirstFailure(env, db, ns, ids, i, now);
        return Err(built.error);
      }
      BuiltNext(env, db, ids, i, policies, built.value, now);
      policies := policies[ids[i] := built.value];
    }
    AllBuilt(env, db, ns, ids, policies, now);
    return Ok(db.(policies := policies));
  }

  lemma RowStillOld(env: Env, db: Database, ids: seq<Id>, i: nat, policies: map<Id, PolicyRow>, now: int)
    requires i < |ids| && Increasing(ids) && BuiltUpTo(env, db, ids, i, policies, now)
    ensures ids[i] in policies ==> policies[ids[i]] == db.policies[ids[i]]
  {
    hide BuildRow;
    forall j | 0 <= j < i ensures ids[j] != ids[i] { LessTotal(ids[j], ids[j]); }
  }

  lemma FirstFailure(env: Env, db: Database, ns: set<Id>, ids: seq<Id>, i: nat, now: int)
    requires i < |ids| && ids == Sorted(ns)
    requires forall j :: 0 <= j < i ==> BuildRow(env, db, ids[j], now).Ok?
    requires BuildRow(env, db, ids[i], now).Err?
    ensures Rebuild(env, db, ns, now) == Err(BuildRow(env, db, ids[i], now).error)
  {
    var failing := FailingBuilds(env, db, ns, now);
    var bad := Sorted(failing);
    assert ids[i] in ids && ids[i] in failing && ids[i] in bad;
    assert bad[0] in bad && bad[0] in ids;
    var j :| 0 <= j < |ids| && ids[j] == bad[0];
    if j != i {
      var k :| 0 <= k < |bad| && bad[k] == ids[i];
      LessTotal(ids[i], ids[j]);
    }
  }
}
