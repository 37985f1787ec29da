/** Account and tailnet transactions keep the invariant. */
module AccountKeeps {
  import opened Ids
  import opened Protocol
  import opened Identity
  import opened Tables
  import opened PolicyView
  import opened AccountTx
  import opened Invariants

  /** Rebuilding everything covers any change of other tables. */
  lemma RebuildAllCovers(env: Env, db: Database, mid: Database)
    requires RowsReady(env, db.policies) && mid.policies == db.policies
    ensures Covered(env, db, mid, AllPolicies(db))
  {}

  /** Statements that touch nothing a view reads need no rebuild. */
  lemma NothingToRebuild(env: Env, db: Database, mid: Database)
    requires References(db) && RowsReady(env, db.policies) && mid.policies == db.policies
    requires mid.tailnets == db.tailnets && mid.snapshots == db.snapshots && mid.retentions == db.retentions
    requires mid.grants == db.grants && mid.rules == db.rules
    requires forall u :: u in db.users ==> u in mid.users && mid.users[u].enabled == db.users[u].enabled
    requires forall n :: n in db.policies ==> n in mid.nodes && mid.nodes[n].owner == db.nodes[n].owner
                                              && NodeServes(mid, n) == NodeServes(db, n)
    ensures Covered(env, db, mid, {})
  {
    forall n | n in mid.policies ensures NeedsNoBuild(db, mid, n) {
      forall p | p in db.grants && p.node == n ensures SameTailnet(db, mid, p.tailnet) {}
      ViewFrame(db, mid, n);
    }
  }

  // Tables stay sound.

  lemma CreateUserTables(db: Database, actor: Actor, id: Id, role: Role, initial: bool)
    requires TablesSound(db) && IsToken(id) && id !in db.drawn
    ensures var tx := CreateUser(db, actor, id, role, initial); tx.Commit? ==> TablesSound(tx.db)
  {}

  lemma SetUserRoleTables(db: Database, actor: Actor, user: Id, role: Role)
    requires TablesSound(db)
    ensures var tx := SetUserRole(db, actor, user, role); tx.Commit? ==> TablesSound(tx.db)
  {}

  lemma SetUserEnabledTables(db: Database, actor: Actor, user: Id, on: bool)
    requires TablesSound(db)
    ensures var tx := SetUserEnabled(db, actor, user, on); tx.Commit? ==> TablesSound(tx.db)
  {}

  lemma SetRetentionsTables(db: Database, actor: Actor, r: Retentions)
    requires TablesSound(db)
    ensures var tx := SetRetentions(db, actor, r); tx.Commit? ==> TablesSound(tx.db)
  {}

  lemma IdentityUpdate(credentials: map<Id, Credential>, snapshots: map<Id, Snapshot>, t: Id, c: Credential, s: Snapshot)
    requires SnapshotsSound(snapshots) && CredentialsSound(credentials, snapshots)
    requires DistinctKeys(s.keys) && s.lastSuccess > 0 && c.revision >= 1 && c.refreshSeq >= 0 && (c.status.Missing? ==> s.keys == [])
    ensures SnapshotsSound(snapshots[t := s]) && CredentialsSound(credentials[t := c], snapshots[t := s])
  {}

  lemma NewIdentityTables(db: Database, t: Id, c: Credential, s: Snapshot)
    requires TablesSound(db) && t in db.tailnets
    requires DistinctKeys(s.keys) && s.lastSuccess > 0 && c.revision >= 1 && c.refreshSeq >= 0 && (c.status.Missing? ==> s.keys == [])
    ensures TablesSound(db.(credentials := db.credentials[t := c], snapshots := db.snapshots[t := s]))
  {
    IdentityUpdate(db.credentials, db.snapshots, t, c, s);
  }

  lemma PublishTables(db: Database, t: Id, c: Credential, keys: seq<DeviceKey>, now: int)
    requires TablesSound(db) && t in db.tailnets && DistinctKeys(keys) && now > 0
    requires c.revision >= 1 && c.refreshSeq >= 0 && !c.status.Missing?
    ensures var tx := PublishIdentity(db.(credentials := db.credentials[t := c]), t, keys, now); tx.Commit? ==> TablesSound(tx.db)
  {
    var tx := PublishIdentity(db.(credentials := db.credentials[t := c]), t, keys, now);
    if tx.Commit? {
      var s := Snapshot(if t in db.snapshots then db.snapshots[t].revision + 1 else 1, now, keys);
      assert tx.db == db.(credentials := db.credentials[t := c], snapshots := db.snapshots[t := s]);
      NewIdentityTables(db, t, c, s);
    }
  }

  lemma NewTailnetTables(db: Database, id: Id, tailnet: Tailnet)
    requires TablesSound(db) && IsToken(id) && id !in db.drawn && tailnet.owner in db.users
    ensures TablesSound(db.(tailnets := db.tailnets[id := tailnet], drawn := db.drawn + {id}))
  {
    var mid := db.(tailnets := db.tailnets[id := tailnet], drawn := db.drawn + {id});
    assert References(mid);
    assert OwnerRulesHome(mid.rules, mid.nodes, mid.tailnets);
  }

  lemma AddTailnetTables(db: Database, actor: Actor, id: Id, apiId: Id, keys: seq<DeviceKey>, now: int)
    requires TablesSound(db) && IsToken(id) && id !in db.drawn && DistinctKeys(keys) && now > 0
    ensures var tx := AddTailnet(db, actor, id, apiId, keys, now); tx.Commit? ==> TablesSound(tx.db)
  {
    if actor.id in db.users {
      var t := Tailnet(actor.id, apiId, true);
      NewTailnetTables(db, id, t);
      PublishTables(db.(tailnets := db.tailnets[id := t], drawn := db.drawn + {id}), id, Credential(Valid, 1, 0), keys, now);
    }
  }

  lemma ReplaceCredentialTables(db: Database, actor: Actor, t: Id, seen: int, keys: seq<DeviceKey>, now: int)
    requires TablesSound(db) && DistinctKeys(keys) && now > 0
    ensures var tx := ReplaceCredential(db, actor, t, seen, keys, now); tx.Commit? ==> TablesSound(tx.db)
  {
    if t in db.tailnets && CredentialRevision(db, t) == seen {
      PublishTables(db, t, Credential(Valid, seen + 1, 0), keys, now);
    }
  }

  lemma BeginRefreshTables(db: Database, t: Id)
    requires TablesSound(db)
    ensures var tx := BeginRefresh(db, t); tx.Commit? ==> TablesSound(tx.db)
  {}

  lemma CommitRefreshTables(db: Database, t: Id, revision: int, refreshSeq: int, keys: Option<seq<DeviceKey>>, now: int)
    requires TablesSound(db) && (keys.Some? ==> DistinctKeys(keys.value)) && now > 0
    ensures var tx := CommitRefresh(db, t, revision, refreshSeq, keys, now); tx.Commit? ==> TablesSound(tx.db)
  {
    if t in db.credentials && keys.Some? {
      PublishTables(db, t, db.credentials[t].(status := Valid), keys.value, now);
    }
  }

  lemma DeleteCredentialTables(db: Database, actor: Actor, t: Id)
    requires TablesSound(db)
    ensures var tx := DeleteCredential(db, actor, t); tx.Commit? ==> TablesSound(tx.db)
  {
    if t in db.credentials && t in db.snapshots {
      NewIdentityTables(db, t, Credential(Missing, db.credentials[t].revision + 1, 0),
                        db.snapshots[t].(keys := [], revision := db.snapshots[t].revision + 1));
    }
  }

  lemma SetTailnetEnabledTables(db: Database, actor: Actor, t: Id, on: bool)
    requires TablesSound(db)
    ensures var tx := SetTailnetEnabled(db, actor, t, on); tx.Commit? ==> TablesSound(tx.db)
  {
    if t in db.tailnets { PausedRules(db.rules, db.nodes, db.tailnets, t, on); }
  }

  lemma PausedRules(rules: map<Pair, Rule>, nodes: map<Id, Node>, tailnets: map<Id, Tailnet>, t: Id, on: bool)
    requires OwnerRulesHome(rules, nodes, tailnets) && t in tailnets
    ensures OwnerRulesHome(rules, nodes, tailnets[t := tailnets[t].(enabled := on)])
  {}

  lemma DeleteTailnetTables(db: Database, actor: Actor, t: Id)
    requires TablesSound(db)
    ensures var tx := DeleteTailnet(db, actor, t); tx.Commit? ==> TablesSound(tx.db)
  {
    WithoutTailnetReferences(db, t);
    WithoutTailnetSharing(db, t);
  }

  lemma WithoutTailnetReferences(db: Database, t: Id)
    requires References(db)
    ensures References(WithoutTailnet(db, t))
  {}

  lemma WithoutTailnetSharing(db: Database, t: Id)
    requires SharingSound(db)
    ensures SharingSound(WithoutTailnet(db, t))
  {}

  /** A transfer demotes exactly the owner-group rules that would become foreign. */
  lemma TransferRules(db: Database, t: Id, newOwner: Id)
    requires RulesValid(db.rules) && OwnerRulesHome(db.rules, db.nodes, db.tailnets)
    requires t in db.tailnets && PairRefs(db.nodes.Keys, db.tailnets.Keys, db.rules.Keys)
    ensures var rules, tailnets := DemotedRules(db, t, newOwner), db.tailnets[t := db.tailnets[t].(owner := newOwner)];
            rules.Keys == db.rules.Keys && RulesValid(rules) && OwnerRulesHome(rules, db.nodes, tailnets)
  {}

  lemma TransferEffect(db: Database, actor: Actor, t: Id, newOwner: Id)
    ensures var tx := TransferTailnet(db, actor, t, newOwner);
            tx.Commit? ==> t in db.tailnets && newOwner in db.users
                           && tx.db == db.(tailnets := db.tailnets[t := db.tailnets[t].(owner := newOwner)], rules := DemotedRules(db, t, newOwner))
  {
    hide DemotedRules, ActiveActor, RequireOwner;
  }

  lemma TransferTailnetTables(db: Database, actor: Actor, t: Id, newOwner: Id)
    requires TablesSound(db)
    ensures var tx := TransferTailnet(db, actor, t, newOwner); tx.Commit? ==> TablesSound(tx.db)
  {
    hide TransferTailnet, DemotedRules;
    TransferEffect(db, actor, t, newOwner);
    if t in db.tailnets {
      TransferRules(db, t, newOwner);
      assert db.tailnets[t := db.tailnets[t].(owner := newOwner)].Keys == db.tailnets.Keys;
    }
  }

  // What must be rebuilt.

  lemma QuietAccountCovers(env: Env, db: Database, mid: Database)
    requires References(db) && RowsReady(env, db.policies)
    requires mid == db.(users := mid.users, credentials := mid.credentials, drawn := mid.drawn)
    requires forall u :: u in db.users ==> u in mid.users && mid.users[u].enabled == db.users[u].enabled
    ensures Covered(env, db, mid, {})
  {
    hide PairRefs, SessionRefs, ChallengeRefs, TailnetOwners, RowsReady, Covered;
    NothingToRebuild(env, db, mid) by { OwnersStay(db, mid); }
  }

  lemma OwnersStay(db: Database, mid: Database)
    requires References(db) && mid.nodes == db.nodes
    requires forall u :: u in db.users ==> u in mid.users && mid.users[u].enabled == db.users[u].enabled
    ensures forall n :: n in db.policies ==> n in db.nodes && NodeServes(mid, n) == NodeServes(db, n)
  {}

  /** The publishing and pausing transactions change other tables and rebuild everything. */
  lemma PublishCovers(env: Env, db: Database, mid: Database, t: Id, keys: seq<DeviceKey>, now: int)
    requires RowsReady(env, db.policies) && mid.policies == db.policies
    ensures var tx := PublishIdentity(mid, t, keys, now); tx.Commit? ==> Covered(env, db, tx.db, tx.rebuild)
  {
    var tx := PublishIdentity(mid, t, keys, now);
    if tx.Commit? { RebuildAllCovers(env, db, tx.db); }
  }

  lemma AddTailnetCovers(env: Env, db: Database, actor: Actor, id: Id, apiId: Id, keys: seq<DeviceKey>, now: int)
    requires RowsReady(env, db.policies)
    ensures var tx := AddTailnet(db, actor, id, apiId, keys, now); tx.Commit? ==> Covered(env, db, tx.db, tx.rebuild)
  {
    hide Covered, RowsReady, PublishIdentity;
    PublishCovers(env, db, db.(tailnets := db.tailnets[id := Tailnet(actor.id, apiId, true)],
                               credentials := db.credentials[id := Credential(Valid, 1, 0)], drawn := db.drawn + {id}), id, keys, now);
  }

  lemma ReplaceCredentialCovers(env: Env, db: Database, actor: Actor, t: Id, seen: int, keys: seq<DeviceKey>, now: int)
    requires RowsReady(env, db.policies)
    ensures var tx := ReplaceCredential(db, actor, t, seen, keys, now); tx.Commit? ==> Covered(env, db, tx.db, tx.rebuild)
  {
    hide Covered, RowsReady, PublishIdentity;
    PublishCovers(env, db, db.(credentials := db.credentials[t := Credential(Valid, seen + 1, 0)]), t, keys, now);
  }

  lemma CommitRefreshCovers(env: Env, db: Database, t: Id, r: int, s: int, found: Option<seq<DeviceKey>>, now: int)
    requires References(db) && RowsReady(env, db.policies)
    ensures var tx := CommitRefresh(db, t, r, s, found, now); tx.Commit? ==> Covered(env, db, tx.db, tx.rebuild)
  {
    hide Covered, RowsReady, PublishIdentity, References;
    var tx := CommitRefresh(db, t, r, s, found, now);
    if tx.Commit? {
      if found.None? {
        QuietAccountCovers(env, db, tx.db);
      } else {
        PublishCovers(env, db, db.(credentials := db.credentials[t := db.credentials[t].(status := Valid)]), t, found.value, now);
      }
    }
  }
}
