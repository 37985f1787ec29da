/** Grant and bandwidth transactions keep the invariant. */
module GrantKeeps {
  import opened Ids
  import opened Protocol
  import opened Tables
  import opened GrantTx
  import opened Invariants

  /** A transaction about node `n` that leaves everything another node's view reads alone. */
  ghost predicate OtherNodesSame(db: Database, mid: Database, n: Id) {
    && mid.users == db.users && mid.tailnets == db.tailnets && mid.snapshots == db.snapshots && mid.retentions == db.retentions
    && (forall m :: m in mid.policies && m != n ==> m in db.policies && mid.policies[m] == db.policies[m])
    && (forall m :: m in db.nodes && m != n ==> m in mid.nodes && mid.nodes[m] == db.nodes[m])
    && (forall p: Pair :: p.node != n ==> (p in db.grants <==> p in mid.grants) && (p in db.rules <==> p in mid.rules))
    && (forall p :: p in db.grants && p.node != n ==> mid.grants[p] == db.grants[p])
    && (forall p :: p in db.rules && p.node != n ==> mid.rules[p] == db.rules[p])
  }

  lemma OtherNodeView(env: Env, db: Database, mid: Database, n: Id, m: Id)
    requires References(db) && RowsReady(env, db.policies) && OtherNodesSame(db, mid, n)
    requires m in mid.policies && m != n
    ensures NeedsNoBuild(db, mid, m)
  {
    assert m in db.nodes && m in mid.nodes;
    UntouchedTables(db, mid, m);
  }

  lemma OneNodeCovers(env: Env, db: Database, mid: Database, n: Id, ns: set<Id>)
    requires References(db) && RowsReady(env, db.policies) && OtherNodesSame(db, mid, n) && ns <= {n}
    requires n in mid.policies ==> if n in ns then ReadyToBuild(env, mid.policies[n], n) else NeedsNoBuild(db, mid, n)
    ensures Covered(env, db, mid, ns)
  {
    forall m | m in mid.policies && m != n ensures NeedsNoBuild(db, mid, m) {
      OtherNodeView(env, db, mid, n, m);
    }
  }

  /** A grant may be written if it keeps its id or takes a new one, and never on a pending node. */
  lemma GrantWritten(grants: map<Pair, Grant>, nodes: map<Id, Node>, drawn: set<string>, p: Pair, g: Grant)
    requires GrantsSound(grants) && GrantIdsDrawn(drawn, grants) && PendingRevoked(nodes, grants)
    requires g.revision >= 1 && !g.state.Expired?
    requires p.node in nodes && nodes[p.node].state.Pending? ==> g.state.Revoked?
    requires if p in grants then g.id == grants[p].id else g.id !in drawn
    ensures GrantsSound(grants[p := g]) && GrantIdsDrawn(drawn + {g.id}, grants[p := g]) && PendingRevoked(nodes, grants[p := g])
    ensures p in grants ==> GrantIdsDrawn(drawn, grants[p := g])
  {}

  lemma GrantWrittenTables(db: Database, p: Pair, g: Grant)
    requires TablesSound(db) && p.node in db.nodes && p.tailnet in db.tailnets
    requires g.revision >= 1 && !g.state.Expired?
    requires db.nodes[p.node].state.Pending? ==> g.state.Revoked?
    requires if p in db.grants then g.id == db.grants[p].id else g.id !in db.drawn && IsToken(g.id)
    ensures p in db.grants ==> TablesSound(db.(grants := db.grants[p := g]))
    ensures p !in db.grants ==> TablesSound(db.(grants := db.grants[p := g], drawn := db.drawn + {g.id}))
  {
    GrantWritten(db.grants, db.nodes, db.drawn, p, g);
  }

  /** What a request writes: one grant, on a serving node, one revision on, active only if both sides have one owner. */
  lemma RequestEffect(db: Database, actor: Actor, p: Pair, expected: nat, until: int, id: Id, now: int)
    ensures var tx := RequestGrant(db, actor, p, expected, until, id, now);
            tx.Commit? ==>
              && p in tx.db.grants && ResourcesEnabled(db, p) && tx.rebuild == {p.node}
              && ActiveActor(db, actor) && RequireOwner(actor, db.tailnets[p.tailnet].owner)
              && var g := tx.db.grants[p];
                 && g.state == (if SameOwner(db, p) then Active else Requested)
                 && g.explicitUntil == until && g.lastControl == (if g.state.Active? then now else 0)
                 && (until != 0 ==> now < until)
                 && if p in db.grants then
                      && tx.db == db.(grants := db.grants[p := g]) && g.id == db.grants[p].id && g.revision == db.grants[p].revision + 1
                      && expected == db.grants[p].revision && Ended(DerivedState(db.grants[p], now))
                    else
                      tx.db == db.(grants := db.grants[p := g], drawn := db.drawn + {id}) && g.id == id && g.revision == 1 && expected == 0
  {}

  lemma GrantRevisionPositive(db: Database, p: Pair)
    requires TablesSound(db) && p in db.grants
    ensures db.grants[p].revision >= 1
  {}

  lemma RequestGrantTables(db: Database, actor: Actor, p: Pair, expected: nat, until: int, id: Id, now: int)
    requires TablesSound(db) && IsToken(id) && id !in db.drawn
    ensures var tx := RequestGrant(db, actor, p, expected, until, id, now); tx.Commit? ==> TablesSound(tx.db)
  {
    hide RequestGrant, TablesSound, ActiveActor, RequireOwner;
    var tx := RequestGrant(db, actor, p, expected, until, id, now);
    if tx.Commit? {
      RequestEffect(db, actor, p, expected, until, id, now);
      if p in db.grants { GrantRevisionPositive(db, p); }
      GrantWrittenTables(db, p, tx.db.grants[p]);
    }
  }

  lemma GrantCovers(env: Env, db: Database, mid: Database, p: Pair)
    requires References(db) && RowsReady(env, db.policies) && mid.policies == db.policies && mid.nodes == db.nodes && mid.rules == db.rules
    requires mid.users == db.users && mid.tailnets == db.tailnets && mid.snapshots == db.snapshots && mid.retentions == db.retentions
    requires p in mid.grants && mid.grants == db.grants[p := mid.grants[p]]
    ensures Covered(env, db, mid, {p.node})
  {
    OneNodeCovers(env, db, mid, p.node, {p.node});
  }

  /** What an action writes: the grant's next state, one revision on, under the authority of the side it belongs to. */
  lemma ActionEffect(db: Database, actor: Actor, p: Pair, expected: nat, a: Action, now: int)
    requires p in db.grants && p.node in db.nodes && p.tailnet in db.tailnets
    ensures var tx := ActOnPair(db, actor, p, expected, a, now);
            tx.Commit? ==>
              && tx.rebuild == {p.node} && RequireOwner(actor, ActionOwner(db, a, p))
              && db.grants[p].revision == expected && Allowed(a, DerivedState(db.grants[p], now))
              && (a.Approve? || a.Confirm? ==> ResourcesEnabled(db, p))
              && tx.db == db.(grants := db.grants[p := db.grants[p].(state := NextState(a), revision := expected + 1,
                                                                     lastControl := if a.Confirm? then now else 0)])
  {}

  /** Allowed actions never touch a pending node's grants: those are all revoked. */
  lemma GrantActionTables(db: Database, actor: Actor, p: Pair, expected: nat, a: Action, now: int)
    requires TablesSound(db) && p in db.grants && p.node in db.nodes && p.tailnet in db.tailnets
    ensures var tx := ActOnPair(db, actor, p, expected, a, now); tx.Commit? ==> TablesSound(tx.db)
  {
    hide ActOnPair, RequireOwner;
    var tx := ActOnPair(db, actor, p, expected, a, now);
    if tx.Commit? {
      ActionEffect(db, actor, p, expected, a, now);
      GrantWrittenTables(db, p, tx.db.grants[p]);
    }
  }

  lemma RequestGrantCovers(env: Env, db: Database, actor: Actor, p: Pair, expected: nat, until: int, id: Id, now: int)
    requires References(db) && RowsReady(env, db.policies)
    ensures var tx := RequestGrant(db, actor, p, expected, until, id, now); tx.Commit? ==> Covered(env, db, tx.db, tx.rebuild)
  {
    hide RequestGrant, Covered, RowsReady, References;
    RequestEffect(db, actor, p, expected, until, id, now);
    var tx := RequestGrant(db, actor, p, expected, until, id, now);
    if tx.Commit? { GrantCovers(env, db, tx.db, p); }
  }

  /** The action by grant id is the action on the pair that has it. */
  lemma ActionByPair(db: Database, actor: Actor, id: Id, expected: nat, a: Action, now: int) returns (p: Pair)
    requires ApplyGrantAction(db, actor, id, expected, a, now).Commit?
    ensures 0 < expected < MAX_INT64 && ActiveActor(db, actor) && HasGrant(db, id, p)
    ensures ApplyGrantAction(db, actor, id, expected, a, now) == ActOnPair(db, actor, p, expected, a, now)
  {
    p :| HasGrant(db, id, p) && ApplyGrantAction(db, actor, id, expected, a, now) == ActOnPair(db, actor, p, expected, a, now);
  }

  lemma ApplyGrantActionTables(db: Database, actor: Actor, id: Id, expected: nat, a: Action, now: int)
    requires TablesSound(db)
    ensures var tx := ApplyGrantAction(db, actor, id, expected, a, now); tx.Commit? ==> TablesSound(tx.db)
  {
    hide ApplyGrantAction, ActOnPair, TablesSound;
    if ApplyGrantAction(db, actor, id, expected, a, now).Commit? {
      var p := ActionByPair(db, actor, id, expected, a, now);
      GrantActionTables(db, actor, p, expected, a, now);
    }
  }

  lemma ApplyGrantActionCovers(env: Env, db: Database, actor: Actor, id: Id, expected: nat, a: Action, now: int)
    requires References(db) && RowsReady(env, db.policies)
    ensures var tx := ApplyGrantAction(db, actor, id, expected, a, now); tx.Commit? ==> Covered(env, db, tx.db, tx.rebuild)
  {
    hide ApplyGrantAction, ActOnPair, Covered, RowsReady, References;
    var tx := ApplyGrantAction(db, actor, id, expected, a, now);
    if tx.Commit? {
      var p := ActionByPair(db, actor, id, expected, a, now);
      ActionEffect(db, actor, p, expected, a, now);
      GrantCovers(env, db, tx.db, p);
    }
  }

  // Bandwidth rules.

  lemma {:induction false} InsertedRules(rules: map<Pair, Rule>, n: Id, ts: seq<TailnetQoS>)
    ensures forall p :: p in InsertRules(rules, n, ts) <==> p in rules || (p.node == n && exists i :: 0 <= i < |ts| && ts[i].tailnetId == p.tailnet)
    ensures forall p :: p in rules && p.node != n ==> InsertRules(rules, n, ts)[p] == rules[p]
    ensures forall p :: p in InsertRules(rules, n, ts) ==>
              || (p in rules && InsertRules(rules, n, ts)[p] == rules[p])
              || exists i :: 0 <= i < |ts| && p == Pair(n, ts[i].tailnetId) && InsertRules(rules, n, ts)[p] == Rule(ts[i].group, ts[i].weight, ts[i].maxBps)
  {
    if ts != [] {
      var front, t := ts[..|ts| - 1], ts[|ts| - 1];
      InsertedRules(rules, n, front);
      var inner := InsertRules(rules, n, front);
      var all := InsertRules(rules, n, ts);
      assert all == inner[Pair(n, t.tailnetId) := Rule(t.group, t.weight, t.maxBps)];
      forall p ensures p in all <==> p in rules || (p.node == n && exists i :: 0 <= i < |ts| && ts[i].tailnetId == p.tailnet) {
        if p in all && p != Pair(n, t.tailnetId) && p !in rules {
          var i :| 0 <= i < |front| && front[i].tailnetId == p.tailnet;
          assert ts[i].tailnetId == p.tailnet;
        }
        if p == Pair(n, t.tailnetId) { assert ts[|ts| - 1].tailnetId == p.tailnet; }
        if i :| 0 <= i < |ts| && ts[i].tailnetId == p.tailnet && p.node == n {
          if i < |front| { assert front[i].tailnetId == p.tailnet; }
        }
      }
      forall p | p in all && !(p in rules && all[p] == rules[p])
        ensures exists i :: 0 <= i < |ts| && p == Pair(n, ts[i].tailnetId) && all[p] == Rule(ts[i].group, ts[i].weight, ts[i].maxBps)
      {
        if p == Pair(n, t.tailnetId) {
          assert ts[|ts| - 1] == t;
        } else {
          var i :| 0 <= i < |front| && p == Pair(n, front[i].tailnetId) && inner[p] == Rule(front[i].group, front[i].weight, front[i].maxBps);
          assert ts[i] == front[i];
        }
      }
    }
  }

  lemma NewRulesSound(db: Database, n: Id, ts: seq<TailnetQoS>)
    requires RulesValid(db.rules) && OwnerRulesHome(db.rules, db.nodes, db.tailnets) && n in db.nodes
    requires PairRefs(db.nodes.Keys, db.tailnets.Keys, db.rules.Keys)
    requires forall i :: 0 <= i < |ts| ==> ValidTailnetQoS(ts[i]) && RuleAllowed(db, n, ts[i])
    ensures var rules := InsertRules(RulesOfOthers(db, n), n, ts);
            && RulesValid(rules) && OwnerRulesHome(rules, db.nodes, db.tailnets) && PairRefs(db.nodes.Keys, db.tailnets.Keys, rules.Keys)
            && (forall p: Pair :: p.node != n ==> (p in rules <==> p in db.rules))
            && (forall p :: p in db.rules && p.node != n ==> rules[p] == db.rules[p])
  {
    InsertedRules(RulesOfOthers(db, n), n, ts);
  }

  lemma SetQoSTables(db: Database, actor: Actor, n: Id, q: QoSPolicy)
    requires TablesSound(db)
    ensures var tx := SetNodeQoS(db, actor, n, q); tx.Commit? ==> TablesSound(tx.db)
  {
    var tx := SetNodeQoS(db, actor, n, q);
    if tx.Commit? {
      NewRulesSound(db, n, q.tailnets);
      assert BudgetsValid(tx.db.policies);
      assert tx.db.policies.Keys == db.policies.Keys;
    }
  }

  lemma SetQoSCovers(env: Env, db: Database, actor: Actor, n: Id, q: QoSPolicy)
    requires References(db) && RulesValid(db.rules) && OwnerRulesHome(db.rules, db.nodes, db.tailnets) && RowsReady(env, db.policies)
    ensures var tx := SetNodeQoS(db, actor, n, q); tx.Commit? ==> Covered(env, db, tx.db, tx.rebuild)
  {
    var tx := SetNodeQoS(db, actor, n, q);
    if tx.Commit? {
      NewRulesSound(db, n, q.tailnets);
      assert OtherNodesSame(db, tx.db, n);
      OneNodeCovers(env, db, tx.db, n, {n});
    }
  }
}
