/** The policy a controller publishes for one relay node, its validation, and the
    deadline that ends a device key's admission (internal/cluster/protocol.go). */
module Protocol {
  import opened Ids

  /** Go's zero time.Time in seconds from the Unix epoch. */
  const ZERO_TIME := -62135596800
  const MAX_INT64 := 0x7FFF_FFFF_FFFF_FFFF
  const MAX_TAILNETS := 4096
  const MAX_KEYS := 65536

  /** The text of a device public key: either it does not unmarshal, or it is the
      canonical text of a 32-byte value. */
  datatype NodePublic = Garbled(text: string) | Public(value: nat)

  datatype DeviceKey = DeviceKey(nodePublic: NodePublic, notAfter: int)

  datatype GrantPolicy = GrantPolicy(
    grantId: Id, grantRevision: int, tailnetId: Id,
    lastIdentitySuccess: int, identityUntil: int, controlUntil: int, explicitUntil: int,
    keys: seq<DeviceKey>)

  datatype Group = Owner | Shared | Unknown(name: string)

  datatype TailnetQoS = TailnetQoS(tailnetId: Id, group: Group, weight: int, maxBps: int)

  datatype QoSPolicy = QoSPolicy(budgetBps: int, ownerWeight: int, sharedWeight: int, sharedMaxBps: int,
                                 tailnets: seq<TailnetQoS>)

  datatype Policy = Policy(clusterId: Id, nodeId: Id, revision: int, generatedAt: int,
                           grants: seq<GrantPolicy>, qos: QoSPolicy)

  /** The deadlines that bound a key besides the identity deadline. */
  function OtherDeadlines(g: GrantPolicy, k: DeviceKey): seq<int> {
    [g.controlUntil, g.explicitUntil, k.notAfter]
  }

  /** A bound that is at or before every deadline that is set. */
  predicate BoundsDeadlines(g: GrantPolicy, k: DeviceKey, until: int) {
    && until <= g.identityUntil
    && forall d :: d in OtherDeadlines(g, k) && d != ZERO_TIME ==> until <= d
  }

  /** The earliest deadline that is set; the identity deadline always counts. */
  function EarliestDeadline(g: GrantPolicy, k: DeviceKey): (until: int)
    ensures BoundsDeadlines(g, k, until)
    ensures forall t :: BoundsDeadlines(g, k, t) ==> t <= until
  {
    var a := if g.controlUntil != ZERO_TIME && g.controlUntil < g.identityUntil then g.controlUntil else g.identityUntil;
    var b := if g.explicitUntil != ZERO_TIME && g.explicitUntil < a then g.explicitUntil else a;
    var r := if k.notAfter != ZERO_TIME && k.notAfter < b then k.notAfter else b;
    assert r == g.identityUntil || (r in OtherDeadlines(g, k) && r != ZERO_TIME);
    r
  }

  method EffectiveUntil(g: GrantPolicy, k: DeviceKey) returns (until: int)
    ensures BoundsDeadlines(g, k, until)
    ensures forall t :: BoundsDeadlines(g, k, t) ==> t <= until
    ensures until == EarliestDeadline(g, k)
  {
    until := g.identityUntil;
    var deadlines := OtherDeadlines(g, k);
    for i := 0 to |deadlines|
      invariant until <= g.identityUntil
      invariant forall j :: 0 <= j < i && deadlines[j] != ZERO_TIME ==> until <= deadlines[j]
      invariant until == g.identityUntil || (until in deadlines && until != ZERO_TIME)
    {
      if deadlines[i] != ZERO_TIME && deadlines[i] < until {
        until := deadlines[i];
      }
    }
    assert BoundsDeadlines(g, k, until);
    assert BoundsDeadlines(g, k, EarliestDeadline(g, k));
  }

  // Validation.

  predicate ValidWeight(w: int) { 0 < w <= 1024 }

  predicate ValidCeiling(bps: int) { bps == 0 || 8 <= bps <= MAX_INT64 }

  predicate ValidTailnetQoS(t: TailnetQoS) {
    ValidId(t.tailnetId) && t.group in {Owner, Shared} && ValidWeight(t.weight) && ValidCeiling(t.maxBps)
  }

  ghost predicate DistinctTailnets(ts: seq<TailnetQoS>) {
    forall i, j :: 0 <= i < j < |ts| ==> ts[i].tailnetId != ts[j].tailnetId
  }

  predicate ValidBudget(q: QoSPolicy) {
    && 8 <= q.budgetBps <= MAX_INT64 && ValidCeiling(q.sharedMaxBps)
    && ValidWeight(q.ownerWeight) && ValidWeight(q.sharedWeight)
  }

  ghost predicate ValidQoS(q: QoSPolicy) {
    && ValidBudget(q)
    && |q.tailnets| <= MAX_TAILNETS
    && (forall i :: 0 <= i < |q.tailnets| ==> ValidTailnetQoS(q.tailnets[i]))
    && DistinctTailnets(q.tailnets)
  }

  predicate ValidGrant(g: GrantPolicy) {
    && ValidId(g.grantId) && ValidId(g.tailnetId) && g.grantRevision != 0
    && g.lastIdentitySuccess != ZERO_TIME && g.identityUntil != ZERO_TIME && g.controlUntil != ZERO_TIME
    && g.lastIdentitySuccess <= g.identityUntil
  }

  ghost predicate DistinctGrants(gs: seq<GrantPolicy>) {
    forall i, j :: 0 <= i < j < |gs| ==> gs[i].tailnetId != gs[j].tailnetId && gs[i].grantId != gs[j].grantId
  }

  /** Every device key of every grant, in order. */
  function AllKeys(gs: seq<GrantPolicy>): seq<DeviceKey> {
    if gs == [] then [] else AllKeys(gs[..|gs| - 1]) + gs[|gs| - 1].keys
  }

  predicate RealKey(k: DeviceKey) { k.nodePublic.Public? && k.nodePublic.value != 0 }

  ghost predicate DistinctKeys(ks: seq<DeviceKey>) {
    && (forall i :: 0 <= i < |ks| ==> RealKey(ks[i]))
    && (forall i, j :: 0 <= i < j < |ks| ==> ks[i].nodePublic != ks[j].nodePublic)
  }

  ghost predicate ValidHeader(p: Policy, clusterId: Id, nodeId: Id) {
    && ValidId(p.clusterId) && ValidId(p.nodeId) && p.clusterId == clusterId && p.nodeId == nodeId
    && p.revision != 0 && p.generatedAt != ZERO_TIME
  }

  /** The size limits of a policy; everything else in ValidPolicy is about its contents. */
  ghost predicate WithinLimits(p: Policy) {
    |p.grants| <= MAX_TAILNETS && |p.qos.tailnets| <= MAX_TAILNETS && |AllKeys(p.grants)| <= MAX_KEYS
  }

  ghost predicate RulesMatchGrants(p: Policy) {
    RuleTailnets(p.qos.tailnets) == GrantTailnets(p.grants)
  }

  /** What a policy must be for a node to accept it: bound to this node, within the
      limits, with distinct tailnets, grants and keys, and exactly one rule per tailnet. */
  ghost predicate ValidPolicy(p: Policy, clusterId: Id, nodeId: Id) {
    && ValidHeader(p, clusterId, nodeId)
    && ValidQoS(p.qos)
    && WithinLimits(p)
    && (forall i :: 0 <= i < |p.grants| ==> ValidGrant(p.grants[i]))
    && DistinctGrants(p.grants)
    && DistinctKeys(AllKeys(p.grants))
    && RulesMatchGrants(p)
  }

  method ValidateQoS(q: QoSPolicy) returns (ok: bool)
    ensures ok <==> ValidQoS(q)
  {
    if !ValidBudget(q) || |q.tailnets| > MAX_TAILNETS {
      return false;
    }
    var seen: set<Id> := {};
    for i := 0 to |q.tailnets|
      invariant seen == set j | 0 <= j < i :: q.tailnets[j].tailnetId
      invariant forall j :: 0 <= j < i ==> ValidTailnetQoS(q.tailnets[j])
      invariant DistinctTailnets(q.tailnets[..i])
    {
      var t := q.tailnets[i];
      if !ValidTailnetQoS(t) || t.tailnetId in seen {
        return false;
      }
      seen := seen + {t.tailnetId};
    }
    assert q.tailnets[..|q.tailnets|] == q.tailnets;
    return true;
  }

  lemma AllKeysStep(gs: seq<GrantPolicy>, i: nat)
    requires i < |gs|
    ensures AllKeys(gs[..i + 1]) == AllKeys(gs[..i]) + gs[i].keys
  {
    assert gs[..i + 1][..i] == gs[..i];
  }

  /** The keys of the first grants are a prefix of all keys, so a clash there is a clash overall. */
  lemma {:induction false} AllKeysPrefix(gs: seq<GrantPolicy>, i: nat)
    requires i <= |gs|
    ensures AllKeys(gs[..i]) <= AllKeys(gs)
    decreases |gs| - i
  {
    if i == |gs| {
      assert gs[..i] == gs;
    } else {
      AllKeysStep(gs, i);
      AllKeysPrefix(gs, i + 1);
    }
  }

  lemma SubsetOfSameSize<T>(a: set<T>, b: set<T>)
    requires a <= b && |a| == |b|
    ensures a == b
  {
    assert b == a + (b - a);
  }

  /** `keys` holds the distinct, well-formed keys of `ks`, within the limit. */
  ghost predicate KeySet(ks: seq<DeviceKey>, keys: set<NodePublic>) {
    && DistinctKeys(ks) && |ks| <= MAX_KEYS && |keys| == |ks| && keys == KeysOf(ks)
  }

  ghost function KeysOf(ks: seq<DeviceKey>): set<NodePublic> { set k | k in ks :: k.nodePublic }

  /** The inner loop of validation: add one grant's keys to those already seen. */
  method CollectKeys(ghost before: seq<DeviceKey>, ks: seq<DeviceKey>, seen: set<NodePublic>)
    returns (ok: bool, keys: set<NodePublic>)
    requires KeySet(before, seen)
    ensures ok <==> DistinctKeys(before + ks) && |before + ks| <= MAX_KEYS
    ensures ok ==> KeySet(before + ks, keys)
  {
    keys := seen;
    assert before + ks[..0] == before;
    for i := 0 to |ks|
      invariant KeySet(before + ks[..i], keys)
    {
      ghost var done := before + ks[..i];
      assert before + ks[..i + 1] == done + [ks[i]];
      assert forall j :: 0 <= j < |done| ==> (before + ks)[j] == done[j];
      assert (before + ks)[|before| + i] == ks[i];
      assert KeysOf(done + [ks[i]]) == KeysOf(done) + {ks[i].nodePublic};
      var k := ks[i].nodePublic;
      if !k.Public? || k.value == 0 || k in keys {
        assert !DistinctKeys(before + ks);
        return false, keys;
      }
      keys := keys + {k};
      if |keys| > MAX_KEYS {
        return false, keys;
      }
    }
    assert ks[..|ks|] == ks;
    return true, keys;
  }

  /** The tailnets a list of rules or grants speaks about. */
  ghost function RuleTailnets(ts: seq<TailnetQoS>): set<Id> { set i | 0 <= i < |ts| :: ts[i].tailnetId }

  ghost function GrantTailnets(gs: seq<GrantPolicy>): set<Id> { set i | 0 <= i < |gs| :: gs[i].tailnetId }

  ghost predicate ValidGrants(gs: seq<GrantPolicy>) {
    && (forall i :: 0 <= i < |gs| ==> ValidGrant(gs[i]))
    && DistinctGrants(gs)
    && DistinctKeys(AllKeys(gs)) && |AllKeys(gs)| <= MAX_KEYS
  }

  lemma ValidGrantsPrefix(gs: seq<GrantPolicy>, i: nat)
    requires i <= |gs| && ValidGrants(gs)
    ensures ValidGrants(gs[..i])
  {
    AllKeysPrefix(gs, i);
  }

  ghost function GrantIds(gs: seq<GrantPolicy>): set<Id> { set i | 0 <= i < |gs| :: gs[i].grantId }

  /** One more grant keeps a valid prefix valid exactly when it is valid, new, and its keys are new. */
  lemma ValidGrantsStep(gs: seq<GrantPolicy>, i: nat)
    requires i < |gs| && ValidGrants(gs[..i])
    ensures GrantTailnets(gs[..i + 1]) == GrantTailnets(gs[..i]) + {gs[i].tailnetId}
    ensures GrantIds(gs[..i + 1]) == GrantIds(gs[..i]) + {gs[i].grantId}
    ensures ValidGrants(gs[..i + 1]) <==>
              && ValidGrant(gs[i]) && gs[i].tailnetId !in GrantTailnets(gs[..i]) && gs[i].grantId !in GrantIds(gs[..i])
              && DistinctKeys(AllKeys(gs[..i]) + gs[i].keys) && |AllKeys(gs[..i]) + gs[i].keys| <= MAX_KEYS
  {
    AllKeysStep(gs, i);
    assert gs[..i + 1] == gs[..i] + [gs[i]];
    forall t ensures t in GrantTailnets(gs[..i + 1]) <==> t in GrantTailnets(gs[..i]) + {gs[i].tailnetId} {}
    forall t ensures t in GrantIds(gs[..i + 1]) <==> t in GrantIds(gs[..i]) + {gs[i].grantId} {}
    assert ValidGrants(gs[..i + 1]) ==> gs[..i + 1][i] == gs[i];
  }

  method ValidateGrants(gs: seq<GrantPolicy>) returns (ok: bool, tailnets: set<Id>)
    ensures ok <==> ValidGrants(gs)
    ensures ok ==> tailnets == GrantTailnets(gs) && |tailnets| == |gs|
  {
    tailnets := {};
    var grants: set<Id>, keys: set<NodePublic> := {}, {};
    for i := 0 to |gs|
      invariant tailnets == GrantTailnets(gs[..i]) && |tailnets| == i
      invariant grants == GrantIds(gs[..i])
      invariant ValidGrants(gs[..i])
      invariant KeySet(AllKeys(gs[..i]), keys)
    {
      ValidGrantsStep(gs, i);
      AllKeysStep(gs, i);
      if ValidGrants(gs) { ValidGrantsPrefix(gs, i + 1); }
      var g := gs[i];
      if !ValidGrant(g) || g.tailnetId in tailnets || g.grantId in grants {
        return false, tailnets;
      }
      tailnets, grants := tailnets + {g.tailnetId}, grants + {g.grantId};
      var keysOk;
      keysOk, keys := CollectKeys(AllKeys(gs[..i]), g.keys, keys);
      if !keysOk {
        return false, tailnets;
      }
    }
    assert gs[..|gs|] == gs;
    return true, tailnets;
  }

  /** The last loop of validation: every rule names a granted tailnet, and none is missing. */
  method MatchRules(ts: seq<TailnetQoS>, tailnets: set<Id>) returns (ok: bool)
    requires DistinctTailnets(ts)
    ensures ok <==> RuleTailnets(ts) == tailnets
  {
    var seen: set<Id> := {};
    for i := 0 to |ts|
      invariant seen == RuleTailnets(ts[..i])
      invariant |seen| == i && seen <= tailnets
    {
      if ts[i].tailnetId !in tailnets || ts[i].tailnetId in seen {
        assert ts[i].tailnetId in RuleTailnets(ts);
        return false;
      }
      seen := seen + {ts[i].tailnetId};
    }
    assert ts[..|ts|] == ts;
    if |seen| != |tailnets| {
      return false;
    }
    SubsetOfSameSize(seen, tailnets);
    return true;
  }

  method ValidatePolicy(p: Policy, clusterId: Id, nodeId: Id) returns (ok: bool)
    ensures ok <==> ValidPolicy(p, clusterId, nodeId)
  {
    if !ValidId(p.clusterId) || !ValidId(p.nodeId) || p.clusterId != clusterId || p.nodeId != nodeId
       || p.revision == 0 || p.generatedAt == ZERO_TIME {
      return false;
    }
    var qosOk := ValidateQoS(p.qos);
    if !qosOk || |p.grants| > MAX_TAILNETS || |p.qos.tailnets| > MAX_TAILNETS {
      return false;
    }
    var grantsOk, tailnets := ValidateGrants(p.grants);
    if !grantsOk {
      return false;
    }
    ok := MatchRules(p.qos.tailnets, tailnets);
  }
}
