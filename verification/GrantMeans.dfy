/** What requests, actions and bandwidth edits do, as the tables before and after, and which answer everyone else gets
    (internal/control/grants.go, internal/control/qos.go). */
module GrantMeans {
  import opened Ids
  import opened Protocol
  import opened Tables
  import opened AccountTx
  import opened GrantTx
  import opened Transactions
  import opened Invariants
  import opened GrantKeeps
  import opened Effects
  import opened Runs
  import opened GrantRuns
  import opened Meaning
  import opened AccountMeans

  // Requests.

  /** The request is well formed, for the tailnet's owner, and both sides are on. */
  ghost predicate MayAsk(db: Database, actor: Actor, p: Pair, expected: nat, until: int, now: int) {
    && expected < MAX_INT64 && (until == 0 || now < until) && Known(db, actor)
    && NodeOn(db, p.node) && TailnetOn(db, p.tailnet) && Speaks(actor, db.tailnets[p.tailnet].owner)
  }

  /** With one owner on both sides a request is consent enough. */
  function AskedState(db: Database, p: Pair): GrantState
    requires p.node in db.nodes && p.tailnet in db.tailnets
  {
    if db.nodes[p.node].owner == db.tailnets[p.tailnet].owner then Active else Requested
  }

  predicate Over(g: Grant, now: int) { Lapsed(g, now) || g.state == Cancelled || g.state == Rejected || g.state == Revoked || g.state == Expired }

  ghost predicate GrantRequested(db: Database, db': Database, actor: Actor, p: Pair, expected: nat, until: int, id: Id, now: int) {
    && MayAsk(db, actor, p, expected, until, now)
    && (p !in db.grants ==> expected == 0 && db'.drawn == db.drawn + {id})
    && (p in db.grants ==> expected == db.grants[p].revision && Over(db.grants[p], now) && db'.drawn == db.drawn)
    && db' == db.(drawn := db'.drawn, policies := db'.policies,
                  grants := db.grants[p := Grant(if p in db.grants then db.grants[p].id else id, AskedState(db, p), expected + 1, until,
                                                 if AskedState(db, p) == Active then now else 0)])
    && SameRows(db.policies, db'.policies)
  }

  lemma RequestGrantRefused(db: Database, actor: Actor, p: Pair, expected: nat, until: int, id: Id, now: int)
    ensures var tx, fits := RequestGrant(db, actor, p, expected, until, id, now), expected < MAX_INT64 && (until == 0 || now < until);
            && (tx == Abort(Invalid) <==> !fits)
            && (tx == Abort(NotFound) <==> fits && Known(db, actor) && (p.node !in db.nodes || p.tailnet !in db.tailnets))
            && (tx == Abort(Forbidden) <==> fits && (!Known(db, actor) || (p.node in db.nodes && p.tailnet in db.tailnets
                                                                           && !Speaks(actor, db.tailnets[p.tailnet].owner))))
            && tx != Abort(Unauthorized) && (!MayAsk(db, actor, p, expected, until, now) ==> tx.Abort?)
  {
    hide Known, Speaks, ActiveActor, RequireOwner, ResourcesEnabled, DerivedState, Ended;
    Sides(db, p);
    Authority(db, actor, if p.tailnet in db.tailnets then db.tailnets[p.tailnet].owner else "");
  }

  lemma RequestGrantTaken(db: Database, actor: Actor, p: Pair, expected: nat, until: int, id: Id, now: int)
    requires MayAsk(db, actor, p, expected, until, now)
    ensures p.node in db.nodes && p.tailnet in db.tailnets
    ensures var tx := RequestGrant(db, actor, p, expected, until, id, now);
            && (tx.Commit? ==> GrantRequested(db, tx.db, actor, p, expected, until, id, now))
            && (tx.Commit? <==> if p in db.grants then expected == db.grants[p].revision && Over(db.grants[p], now) else expected == 0)
            && (tx == Keep <==> p in db.grants && !Lapsed(db.grants[p], now)
                                && db.grants[p].state == AskedState(db, p) && db.grants[p].explicitUntil == until
                                && (expected == db.grants[p].revision || expected + 1 == db.grants[p].revision))
  {
    AskedSides(db, p);
    hide Known, Speaks, ActiveActor, RequireOwner, ResourcesEnabled, Columns, NodeOn, TailnetOn;
    Sides(db, p);
    Authority(db, actor, db.tailnets[p.tailnet].owner);
  }

  /** The answer to a request. */
  lemma RequestGrantMeans(db: Database, actor: Actor, p: Pair, expected: nat, until: int, id: Id, now: int)
    ensures var tx, fits := RequestGrant(db, actor, p, expected, until, id, now), expected < MAX_INT64 && (until == 0 || now < until);
            && (tx.Commit? ==> GrantRequested(db, tx.db, actor, p, expected, until, id, now))
            && (tx.Commit? <==> MayAsk(db, actor, p, expected, until, now)
                                && if p in db.grants then expected == db.grants[p].revision && Over(db.grants[p], now) else expected == 0)
            && (tx == Keep <==> MayAsk(db, actor, p, expected, until, now) && p in db.grants && !Lapsed(db.grants[p], now)
                                && db.grants[p].state == AskedState(db, p) && db.grants[p].explicitUntil == until
                                && (expected == db.grants[p].revision || expected + 1 == db.grants[p].revision))
            && (tx == Abort(Invalid) <==> !fits)
            && (tx == Abort(NotFound) <==> fits && Known(db, actor) && (p.node !in db.nodes || p.tailnet !in db.tailnets))
            && (tx == Abort(Forbidden) <==> fits && (!Known(db, actor) || (p.node in db.nodes && p.tailnet in db.tailnets
                                                                           && !Speaks(actor, db.tailnets[p.tailnet].owner))))
            && tx != Abort(Unauthorized)
  {
    hide RequestGrant, GrantRequested, MayAsk, Over, Lapsed;
    RequestGrantRefused(db, actor, p, expected, until, id, now);
    if MayAsk(db, actor, p, expected, until, now) { RequestGrantTaken(db, actor, p, expected, until, id, now); }
  }

  lemma AskedSides(db: Database, p: Pair)
    ensures NodeOn(db, p.node) ==> p.node in db.nodes
    ensures TailnetOn(db, p.tailnet) ==> p.tailnet in db.tailnets
  {}

  // Actions.

  /** The action leads to this state. */
  predicate LeadsTo(a: Action, s: GrantState) {
    || (a == Approve && s == OwnerApproved) || (a == Confirm && s == Active) || (a == Cancel && s == Cancelled)
    || (a == Reject && s == Rejected) || ((a == Revoke || a == Leave) && s == Revoked)
  }

  /** Nothing stands in the way of the action but its authority. */
  predicate Possible(db: Database, a: Action, p: Pair, expected: nat, now: int)
    requires p in db.grants
  {
    && expected == db.grants[p].revision && !Lapsed(db.grants[p], now)
    && (exists s :: Transition(a, db.grants[p].state, s))
    && (a == Approve || a == Confirm ==> NodeOn(db, p.node) && TailnetOn(db, p.tailnet))
  }

  /** The grant has moved to the state the action leads to, one revision on; a confirmation starts the control clock. */
  ghost predicate ActionWritten(db: Database, db': Database, p: Pair, expected: nat, a: Action, now: int) {
    && p in db.grants && p in db'.grants && Transition(a, db.grants[p].state, db'.grants[p].state)
    && db' == db.(policies := db'.policies,
                  grants := db.grants[p := Grant(db.grants[p].id, db'.grants[p].state, expected + 1, db.grants[p].explicitUntil, if a == Confirm then now else 0)])
    && SameRows(db.policies, db'.policies)
  }

  ghost predicate GrantActed(db: Database, db': Database, actor: Actor, p: Pair, expected: nat, a: Action, now: int) {
    p in db.grants && MayAct(db, actor, a, p) && Possible(db, a, p, expected, now) && ActionWritten(db, db', p, expected, a, now)
  }

  /** The action has been taken already, at this revision or the one before. */
  predicate Taken(db: Database, a: Action, p: Pair, expected: nat, now: int)
    requires p in db.grants
  {
    && !Lapsed(db.grants[p], now) && LeadsTo(a, db.grants[p].state)
    && (expected == db.grants[p].revision || expected + 1 == db.grants[p].revision)
  }

  /** The answer to an action on the grant of `p`: it belongs to one side, happens at the revision it expects, from the
      states it is for; a repetition changes nothing. */
  lemma ActionMeans(db: Database, actor: Actor, p: Pair, expected: nat, a: Action, now: int)
    requires p in db.grants && p.node in db.nodes && p.tailnet in db.tailnets
    ensures var tx := ActOnPair(db, actor, p, expected, a, now);
            && (tx.Commit? ==> ActionWritten(db, tx.db, p, expected, a, now) && tx.rebuild == {p.node})
            && (tx == Abort(Forbidden) <==> !OnItsSide(db, actor, a, p))
            && (tx.Commit? <==> OnItsSide(db, actor, a, p) && Possible(db, a, p, expected, now))
            && (tx == Keep <==> OnItsSide(db, actor, a, p) && Taken(db, a, p, expected, now))
            && (tx.Abort? ==> tx.error == Forbidden || tx.error == Conflict)
  {
    hide ActOnPair, OnItsSide, Possible, Taken, ActionWritten;
    ActionGuards(db, actor, p, expected, a, now);
    if ActOnPair(db, actor, p, expected, a, now).Commit? { ActionWrites(db, actor, p, expected, a, now); }
  }

  lemma ActionGuards(db: Database, actor: Actor, p: Pair, expected: nat, a: Action, now: int)
    requires p in db.grants && p.node in db.nodes && p.tailnet in db.tailnets
    ensures var tx := ActOnPair(db, actor, p, expected, a, now);
            && (tx == Abort(Forbidden) <==> !OnItsSide(db, actor, a, p))
            && (tx.Commit? <==> OnItsSide(db, actor, a, p) && Possible(db, a, p, expected, now))
            && (tx == Keep <==> OnItsSide(db, actor, a, p) && Taken(db, a, p, expected, now))
            && (tx.Abort? ==> tx.error == Forbidden || tx.error == Conflict)
  {
    hide OnItsSide, RequireOwner, ActionOwner, ResourcesEnabled, NodeOn, TailnetOn, Lapsed, LeadsTo, Transition, Allowed, NextState, DerivedState, NodeSide;
    Sides(db, p);
    Actions(db, actor, a, p, now);
    AimMeans(a, db.grants[p], now);
    ShownMeans(db.grants[p], now);
  }

  lemma ShownMeans(g: Grant, now: int)
    ensures DerivedState(g, now) == if Lapsed(g, now) then Expired else g.state
  {}

  lemma ActionWrites(db: Database, actor: Actor, p: Pair, expected: nat, a: Action, now: int)
    requires p in db.grants && p.node in db.nodes && p.tailnet in db.tailnets && ActOnPair(db, actor, p, expected, a, now).Commit?
    ensures var tx := ActOnPair(db, actor, p, expected, a, now); ActionWritten(db, tx.db, p, expected, a, now) && tx.rebuild == {p.node}
  {
    hide ActOnPair, RequireOwner, ActionOwner, ResourcesEnabled, Columns;
    ActionEffect(db, actor, p, expected, a, now);
    ActionIsTransition(db.grants[p], a, now);
  }

  lemma AimMeans(a: Action, g: Grant, now: int)
    ensures LeadsTo(a, g.state) <==> g.state == NextState(a)
    ensures NextState(a) != Expired
    ensures Allowed(a, DerivedState(g, now)) <==> !Lapsed(g, now) && exists s :: Transition(a, g.state, s)
    ensures forall s :: Transition(a, g.state, s) ==> s == NextState(a)
    ensures Allowed(a, g.state) ==> Transition(a, g.state, NextState(a)) && g.state != NextState(a)
  {
    if Allowed(a, g.state) { assert Transition(a, g.state, NextState(a)); }
  }

  /** The same by the grant's id. In particular the owner of the tailnet alone can never approve, reject or revoke, and
      the owner of the node alone can never confirm, cancel or leave. */
  lemma ApplyGrantActionMeans(env: Env, db: Database, actor: Actor, id: Id, expected: nat, a: Action, now: int, p: Pair)
    requires Inv(env, db) && HasGrant(db, id, p)
    ensures var tx := ApplyGrantAction(db, actor, id, expected, a, now);
            && (tx == Abort(Invalid) <==> expected == 0 || expected >= MAX_INT64)
            && (tx == Abort(Forbidden) <==> 0 < expected < MAX_INT64 && !MayAct(db, actor, a, p))
            && (tx.Commit? <==> 0 < expected < MAX_INT64 && MayAct(db, actor, a, p) && Possible(db, a, p, expected, now))
            && (tx.Commit? ==> GrantActed(db, tx.db, actor, p, expected, a, now))
            && (tx == Keep <==> 0 < expected < MAX_INT64 && MayAct(db, actor, a, p) && Taken(db, a, p, expected, now))
  {
    hide ActOnPair, ActionWritten, Possible, Known, OnItsSide, ActiveActor, Stored, References, TokensDrawn, NodesSound, Taken;
    Authority(db, actor, "");
    forall q | HasGrant(db, id, q) ensures q == p { OneGrantPerId(db, id, p, q); }
    ActionMeans(db, actor, p, expected, a, now);
  }

  /** In every state of every run, whoever speaks for one side only gets nowhere with the other side's actions. */
  lemma OneSideIsNotEnough(env: Env, states: seq<Database>, events: seq<Event>, i: nat, p: Pair, actor: Actor, expected: nat, a: Action, now: int)
    requires IsRun(env, states, events) && i < |states| && p in states[i].grants && p.node in states[i].nodes && p.tailnet in states[i].tailnets
    requires actor.role != Admin && 0 < expected < MAX_INT64
    requires actor.id != if NodeSide(a) then states[i].nodes[p.node].owner else states[i].tailnets[p.tailnet].owner
    ensures ApplyGrantAction(states[i], actor, states[i].grants[p].id, expected, a, now) == Abort(Forbidden)
  {
    hide IsRun, Inv, ApplyGrantAction, Possible, Taken, GrantActed;
    InvAlways(env, states, events, i);
    ApplyGrantActionMeans(env, states[i], actor, states[i].grants[p].id, expected, a, now, p);
  }

  // Bandwidth.

  predicate RuleFits(db: Database, n: Id, q: TailnetQoS) {
    && n in db.nodes && q.tailnetId in db.tailnets && Pair(n, q.tailnetId) in db.grants
    && db.grants[Pair(n, q.tailnetId)].state in {Requested, OwnerApproved, Active}
    && (q.group == Owner ==> db.nodes[n].owner == db.tailnets[q.tailnetId].owner)
  }

  /** Exactly the rules asked for, one per tailnet. */
  ghost predicate RulesOfNode(rules: map<Pair, Rule>, n: Id, ts: seq<TailnetQoS>) {
    && (forall i :: 0 <= i < |ts| ==> Pair(n, ts[i].tailnetId) in rules && rules[Pair(n, ts[i].tailnetId)] == Rule(ts[i].group, ts[i].weight, ts[i].maxBps))
    && (forall p :: p in rules && p.node == n ==> exists i :: 0 <= i < |ts| && ts[i].tailnetId == p.tailnet)
  }

  ghost predicate SameRulesElsewhere(before: map<Pair, Rule>, after: map<Pair, Rule>, n: Id) {
    forall p: Pair :: p.node != n ==> (p in after <==> p in before) && (p in before ==> after[p] == before[p])
  }

  ghost predicate BandwidthSet(db: Database, db': Database, actor: Actor, n: Id, q: QoSPolicy) {
    && n in db.nodes && ActsFor(db, actor, db.nodes[n].owner) && ValidQoS(q)
    && (forall i :: 0 <= i < |q.tailnets| ==> RuleFits(db, n, q.tailnets[i]))
    && RulesOfNode(db'.rules, n, q.tailnets) && SameRulesElsewhere(db.rules, db'.rules, n)
    && db' == db.(rules := db'.rules, policies := db'.policies) && db'.policies.Keys == db.policies.Keys
    && (forall m :: m in db.policies ==>
          Columns(db'.policies[m]) == if m != n then Columns(db.policies[m])
                                      else Columns(db.policies[m]).(budgetBps := q.budgetBps, ownerWeight := q.ownerWeight,
                                                                    sharedWeight := q.sharedWeight, sharedMaxBps := q.sharedMaxBps))
  }

  lemma {:induction false} InsertedRules(rules: map<Pair, Rule>, n: Id, ts: seq<TailnetQoS>)
    requires DistinctTailnets(ts) && forall p :: p in rules ==> p.node != n
    ensures RulesOfNode(InsertRules(rules, n, ts), n, ts) && SameRulesElsewhere(rules, InsertRules(rules, n, ts), n)
  {
    if ts != [] {
      var init, t := ts[..|ts| - 1], ts[|ts| - 1];
      InsertedRules(rules, n, init);
      var before, after := InsertRules(rules, n, init), InsertRules(rules, n, ts);
      forall i | 0 <= i < |ts| ensures Pair(n, ts[i].tailnetId) in after && after[Pair(n, ts[i].tailnetId)] == Rule(ts[i].group, ts[i].weight, ts[i].maxBps) {
        if i < |init| { assert init[i] == ts[i] && before[Pair(n, init[i].tailnetId)] == Rule(ts[i].group, ts[i].weight, ts[i].maxBps); }
      }
      forall p | p in after && p.node == n ensures exists i :: 0 <= i < |ts| && ts[i].tailnetId == p.tailnet {
        if p in before {
          var i :| 0 <= i < |init| && init[i].tailnetId == p.tailnet;
          assert ts[i].tailnetId == p.tailnet;
        } else {
          assert ts[|ts| - 1].tailnetId == p.tailnet;
        }
      }
    }
  }

  lemma RuleAllowedMeans(db: Database, n: Id, q: TailnetQoS)
    requires n in db.nodes
    ensures RuleAllowed(db, n, q) <==> RuleFits(db, n, q)
  {}

  lemma SetNodeQoSMeans(db: Database, actor: Actor, n: Id, q: QoSPolicy)
    ensures var tx := SetNodeQoS(db, actor, n, q);
            && tx != Keep && (tx.Commit? ==> BandwidthSet(db, tx.db, actor, n, q))
            && (tx == Abort(Forbidden) <==> ValidQoS(q) && (!Known(db, actor) || (n in db.nodes && !Speaks(actor, db.nodes[n].owner))))
            && (tx == Abort(NotFound) <==> ValidQoS(q) && Known(db, actor) && n !in db.nodes)
            && (tx == Abort(Invalid) <==> !ValidQoS(q) || (n in db.nodes && ActsFor(db, actor, db.nodes[n].owner)
                                                           && exists i :: 0 <= i < |q.tailnets| && !RuleFits(db, n, q.tailnets[i])))
            && tx != Abort(Conflict) && tx != Abort(Unauthorized)
  {
    hide RuleAllowed, RuleFits, InsertRules, Known, Speaks, ActiveActor, RequireOwner, RulesOfNode, SameRulesElsewhere;
    Authority(db, actor, if n in db.nodes then db.nodes[n].owner else "");
    if n in db.nodes {
      forall i | 0 <= i < |q.tailnets| ensures RuleAllowed(db, n, q.tailnets[i]) <==> RuleFits(db, n, q.tailnets[i]) { RuleAllowedMeans(db, n, q.tailnets[i]); }
    }
    if ValidQoS(q) {
      InsertedRules(RulesOfOthers(db, n), n, q.tailnets);
      OthersElsewhere(db, n, InsertRules(RulesOfOthers(db, n), n, q.tailnets));
    }
  }

  lemma OthersElsewhere(db: Database, n: Id, rules: map<Pair, Rule>)
    requires SameRulesElsewhere(RulesOfOthers(db, n), rules, n)
    ensures SameRulesElsewhere(db.rules, rules, n)
  {}

  // Of a committed transaction.

  lemma RequestGrantCommits(env: Env, db: Database, actor: Actor, p: Pair, expected: nat, until: int, id: Id, now: int, db': Database)
    requires Commits(env, db, OnGrant(OpRequestGrant(actor, p, expected, until, id)), now, db')
    ensures GrantRequested(db, db', actor, p, expected, until, id, now)
  {
    hide RequestGrant, Columns, MayAsk;
    Committed(env, db, OnGrant(OpRequestGrant(actor, p, expected, until, id)), now, db');
    RequestGrantMeans(db, actor, p, expected, until, id, now);
  }

  lemma ApplyGrantActionCommits(env: Env, db: Database, actor: Actor, id: Id, expected: nat, a: Action, now: int, db': Database, p: Pair)
    requires Inv(env, db) && HasGrant(db, id, p) && Commits(env, db, OnGrant(OpGrantAction(actor, id, expected, a)), now, db')
    ensures GrantActed(db, db', actor, p, expected, a, now)
  {
    hide ApplyGrantAction, Inv, Columns, MayAct, Possible, Transition;
    Committed(env, db, OnGrant(OpGrantAction(actor, id, expected, a)), now, db');
    ApplyGrantActionMeans(env, db, actor, id, expected, a, now, p);
  }

  lemma SetNodeQoSCommits(env: Env, db: Database, actor: Actor, n: Id, q: QoSPolicy, now: int, db': Database)
    requires Commits(env, db, OnGrant(OpSetQoS(actor, n, q)), now, db')
    ensures BandwidthSet(db, db', actor, n, q)
  {
    hide SetNodeQoS, Known, Speaks, ValidQoS, RuleFits, RulesOfNode, SameRulesElsewhere;
    Committed(env, db, OnGrant(OpSetQoS(actor, n, q)), now, db');
    SetNodeQoSMeans(db, actor, n, q);
  }
}
