/** Device identities of tailnets: which devices of a complete listing become keys, and
    which keys are blocked because two tailnets present them
    (internal/control/identity.go, internal/control/identity_store.go). */
module Identity {
  import opened Ids
  import opened Protocol

  datatype Expiry = Unparsable | Parsed(at: int)

  /** One record of the device listing; a field absent from the response is None. */
  datatype Device = Device(nodeKey: NodePublic, authorized: Option<bool>, isExternal: Option<bool>,
                           keyExpiryDisabled: Option<bool>, expires: Option<Expiry>)

  predicate BadExpiry(d: Device) {
    d.keyExpiryDisabled == Some(false) && d.expires.Some? && (d.expires.value.Unparsable? || d.expires.value.at == ZERO_TIME)
  }

  /** A record that makes the whole listing unusable. */
  predicate Malformed(d: Device) {
    || d.isExternal.None?
    || (!d.isExternal.value && (
          || d.authorized.None? || d.keyExpiryDisabled.None? || d.expires.None?
          || d.nodeKey.Garbled? || d.nodeKey.value == 0 || BadExpiry(d)))
  }

  function ExpiryOf(d: Device): int
    requires !Malformed(d) && !d.isExternal.value
  {
    if d.keyExpiryDisabled.value then ZERO_TIME else d.expires.value.at
  }

  /** A device of this tailnet that is authorized and whose key has not expired. */
  predicate Kept(d: Device, now: int) {
    !Malformed(d) && !d.isExternal.value && d.authorized.value && (ExpiryOf(d) == ZERO_TIME || now < ExpiryOf(d))
  }

  function KeptKeys(ds: seq<Device>, now: int): seq<DeviceKey> {
    if ds == [] then [] else
      var d := ds[|ds| - 1];
      KeptKeys(ds[..|ds| - 1], now) + (if Kept(d, now) then [DeviceKey(d.nodeKey, ExpiryOf(d))] else [])
  }

  lemma {:induction false} KeptKeysPrefix(ds: seq<Device>, i: nat, now: int)
    requires i <= |ds|
    ensures KeptKeys(ds[..i], now) <= KeptKeys(ds, now)
    decreases |ds| - i
  {
    if i == |ds| {
      assert ds[..i] == ds;
    } else {
      KeptKeysPrefix(ds, i + 1, now);
      assert ds[..i + 1][..i] == ds[..i];
    }
  }

  /** One record: refused, or skipped, or kept with its expiry. */
  method ReadDevice(d: Device, now: int) returns (ok: bool, key: Option<DeviceKey>)
    ensures ok <==> !Malformed(d)
    ensures ok ==> key == if Kept(d, now) then Some(DeviceKey(d.nodeKey, ExpiryOf(d))) else None
  {
    if d.isExternal.None? {
      return false, None;
    }
    if d.isExternal.value {
      return true, None;
    }
    if d.authorized.None? || d.keyExpiryDisabled.None? || d.expires.None? {
      return false, None;
    }
    if d.nodeKey.Garbled? || d.nodeKey.value == 0 {
      return false, None;
    }
    var expiry := ZERO_TIME;
    if !d.keyExpiryDisabled.value {
      if d.expires.value.Unparsable? || d.expires.value.at == ZERO_TIME {
        return false, None;
      }
      expiry := d.expires.value.at;
    }
    if !d.authorized.value || (expiry != ZERO_TIME && now >= expiry) {
      return true, None;
    }
    return true, Some(DeviceKey(d.nodeKey, expiry));
  }

  lemma KeptKeysStep(ds: seq<Device>, i: nat, now: int)
    requires i < |ds|
    ensures KeptKeys(ds[..i + 1], now) == KeptKeys(ds[..i], now) + if Kept(ds[i], now) then [DeviceKey(ds[i].nodeKey, ExpiryOf(ds[i]))] else []
  {
    assert ds[..i + 1][..i] == ds[..i];
  }

  /** A kept key that was listed before makes the whole listing ambiguous. */
  lemma RepeatedKey(ds: seq<Device>, i: nat, now: int, result: seq<DeviceKey>)
    requires i < |ds| && Kept(ds[i], now) && result == KeptKeys(ds[..i], now)
    requires exists j :: 0 <= j < |result| && result[j].nodePublic == ds[i].nodeKey
    ensures !DistinctKeys(KeptKeys(ds, now))
  {
    KeptKeysPrefix(ds, i + 1, now);
    KeptKeysStep(ds, i, now);
    var all := KeptKeys(ds, now);
    var j :| 0 <= j < |result| && result[j].nodePublic == ds[i].nodeKey;
    assert all[j] == result[j] && all[|result|].nodePublic == ds[i].nodeKey;
  }

  /** The key of an authorised device of this tailnet that has not expired: with the expiry listed, or none if it was disabled. */
  predicate Presents(d: Device, k: DeviceKey, now: int) {
    && d.isExternal == Some(false) && d.authorized == Some(true) && d.nodeKey == k.nodePublic
    && (d.keyExpiryDisabled == Some(true) ==> k.notAfter == ZERO_TIME)
    && (d.keyExpiryDisabled != Some(true) ==> d.expires == Some(Parsed(k.notAfter)) && now < k.notAfter)
  }

  lemma {:induction false} KeptKeysMembers(ds: seq<Device>, now: int, k: DeviceKey)
    requires forall i :: 0 <= i < |ds| ==> !Malformed(ds[i])
    ensures k in KeptKeys(ds, now) <==> exists i :: 0 <= i < |ds| && Presents(ds[i], k, now)
  {
    if ds != [] {
      var init, d := ds[..|ds| - 1], ds[|ds| - 1];
      KeptKeysMembers(init, now, k);
      assert Kept(d, now) && k == DeviceKey(d.nodeKey, ExpiryOf(d)) <==> Presents(d, k, now);
      if k in KeptKeys(init, now) {
        var i :| 0 <= i < |init| && Presents(init[i], k, now);
        assert ds[i] == init[i];
      }
    }
  }

  /** A listing is accepted exactly when no record is malformed and no kept key repeats;
      the keys are then distinct, real, and the kept devices in order. */
  method ParseIdentity(ds: seq<Device>, now: int) returns (r: Option<seq<DeviceKey>>)
    ensures r.Some? <==> (forall i :: 0 <= i < |ds| ==> !Malformed(ds[i])) && DistinctKeys(KeptKeys(ds, now))
    ensures r.Some? ==> r.value == KeptKeys(ds, now)
    ensures r.Some? ==> forall k :: k in r.value <==> exists i :: 0 <= i < |ds| && Presents(ds[i], k, now)
  {
    var result: seq<DeviceKey>, seen: set<NodePublic> := [], {};
    for i := 0 to |ds|
      invariant result == KeptKeys(ds[..i], now) && DistinctKeys(result)
      invariant seen == set k | k in result :: k.nodePublic
      invariant forall j :: 0 <= j < i ==> !Malformed(ds[j])
    {
      var ok, key := ReadDevice(ds[i], now);
      if !ok {
        return None;
      }
      KeptKeysStep(ds, i, now);
      if key.Some? {
        if key.value.nodePublic in seen {
          RepeatedKey(ds, i, now, result);
          return None;
        }
        seen := seen + {key.value.nodePublic};
        result := result + [key.value];
      }
    }
    assert ds[..|ds|] == ds;
    forall k ensures k in result <==> exists i :: 0 <= i < |ds| && Presents(ds[i], k, now) { KeptKeysMembers(ds, now, k); }
    return Some(result);
  }

  // Keys presented by more than one tailnet.

  datatype Snapshot = Snapshot(revision: int, lastSuccess: int, keys: seq<DeviceKey>)

  ghost predicate Lists(ks: seq<DeviceKey>, k: NodePublic) {
    exists i :: 0 <= i < |ks| && ks[i].nodePublic == k
  }

  ghost predicate Holds(all: map<Id, Snapshot>, id: Id, k: NodePublic) {
    id in all && Lists(all[id].keys, k)
  }

  /** Two different tailnets hold the key. */
  ghost predicate Conflicted(all: map<Id, Snapshot>, k: NodePublic) {
    exists a, b :: a != b && Holds(all, a, k) && Holds(all, b, k)
  }

  type Holding = set<(Id, NodePublic)>

  ghost predicate Clash(held: Holding, k: NodePublic) {
    exists a, b :: a != b && (a, k) in held && (b, k) in held
  }

  /** `owners` names, for every key seen so far, one tailnet that holds it, and
      `conflicts` are the keys for which a second holder was seen. */
  ghost predicate Tally(held: Holding, owners: map<NodePublic, Id>, conflicts: set<NodePublic>) {
    && (forall id, k :: (id, k) in held ==> k in owners)
    && (forall k :: k in owners ==> (owners[k], k) in held)
    && (forall k :: k in conflicts <==> Clash(held, k))
  }

  lemma TallyStep(held: Holding, id: Id, k: NodePublic, owners: map<NodePublic, Id>, conflicts: set<NodePublic>)
    requires Tally(held, owners, conflicts)
    ensures if k in owners && owners[k] != id then Tally(held + {(id, k)}, owners, conflicts + {k})
            else Tally(held + {(id, k)}, owners[k := id], conflicts)
  {
    var held' := held + {(id, k)};
    forall x ensures Clash(held', x) <==> Clash(held, x) || (x == k && k in owners && owners[k] != id) {
      if Clash(held, x) {
        var a, b :| a != b && (a, x) in held && (b, x) in held;
        assert (a, x) in held' && (b, x) in held';
      } else if x == k && k in owners && owners[k] != id {
        assert (owners[k], k) in held' && (id, k) in held';
      }
    }
  }

  /** Who holds what among the snapshots in `done`. */
  ghost function Gathered(all: map<Id, Snapshot>, done: set<Id>): Holding
    requires done <= all.Keys
  {
    set t, j | t in done && 0 <= j < |all[t].keys| :: (t, all[t].keys[j].nodePublic)
  }

  ghost function FirstKeys(id: Id, ks: seq<DeviceKey>, i: nat): Holding
    requires i <= |ks|
  {
    set j | 0 <= j < i :: (id, ks[j].nodePublic)
  }

  lemma FirstKeysStep(id: Id, ks: seq<DeviceKey>, i: nat)
    requires i < |ks|
    ensures FirstKeys(id, ks, i + 1) == FirstKeys(id, ks, i) + {(id, ks[i].nodePublic)}
  {}

  lemma GatheredStep(all: map<Id, Snapshot>, done: set<Id>, id: Id)
    requires done <= all.Keys && id in all
    ensures Gathered(all, done + {id}) == Gathered(all, done) + FirstKeys(id, all[id].keys, |all[id].keys|)
  {}

  lemma GatheredAll(all: map<Id, Snapshot>)
    ensures forall k :: Clash(Gathered(all, all.Keys), k) <==> Conflicted(all, k)
  {
    var held := Gathered(all, all.Keys);
    assert forall id, k :: Holds(all, id, k) <==> (id, k) in held;
    forall k ensures Clash(held, k) <==> Conflicted(all, k) {
      if Clash(held, k) {
        var a, b :| a != b && (a, k) in held && (b, k) in held;
        assert Holds(all, a, k) && Holds(all, b, k);
      }
    }
  }

  /** The inner loop: enter one snapshot's keys. */
  method TallySnapshot(id: Id, keys: seq<DeviceKey>, owners0: map<NodePublic, Id>, conflicts0: set<NodePublic>, ghost before: Holding)
    returns (owners: map<NodePublic, Id>, conflicts: set<NodePublic>)
    requires Tally(before, owners0, conflicts0)
    ensures Tally(before + FirstKeys(id, keys, |keys|), owners, conflicts)
  {
    owners, conflicts := owners0, conflicts0;
    ghost var held := before;
    assert held == before + FirstKeys(id, keys, 0);
    for i := 0 to |keys|
      invariant held == before + FirstKeys(id, keys, i)
      invariant Tally(held, owners, conflicts)
    {
      var k := keys[i].nodePublic;
      TallyStep(held, id, k, owners, conflicts);
      FirstKeysStep(id, keys, i);
      held := held + {(id, k)};
      if k in owners && owners[k] != id {
        conflicts := conflicts + {k};
      } else {
        owners := owners[k := id];
      }
    }
  }

  /** Whatever order the snapshots are visited in, the result is exactly the set of keys
      held by two or more tailnets. */
  method ConflictingKeys(all: map<Id, Snapshot>) returns (conflicts: set<NodePublic>)
    ensures forall k :: k in conflicts <==> Conflicted(all, k)
  {
    var owners: map<NodePublic, Id>;
    owners, conflicts := map[], {};
    var rest := all.Keys;
    while rest != {}
      invariant rest <= all.Keys
      invariant Tally(Gathered(all, all.Keys - rest), owners, conflicts)
    {
      var id :| id in rest;
      GatheredStep(all, all.Keys - rest, id);
      assert all.Keys - (rest - {id}) == all.Keys - rest + {id};
      owners, conflicts := TallySnapshot(id, all[id].keys, owners, conflicts, Gathered(all, all.Keys - rest));
      rest := rest - {id};
    }
    assert all.Keys - rest == all.Keys;
    GatheredAll(all);
  }
}
