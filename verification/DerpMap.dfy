/** The relay map a tailnet is given: the regions of the nodes that admit it right now
    (internal/control/derpmap.go). */
module DerpMap {
  import opened Ids
  import opened Protocol
  import opened Tables
  import opened PolicyView
  import opened AccountTx
  import opened NodeTx
  import opened Invariants
  import opened Runs
  import opened DeadlineRuns
  import opened Meaning
  import opened AccountMeans
  import Admission
  import PolicyMeans

  datatype Region = Region(id: int, hostName: string)

  /** The joined rows: an active grant of an enabled tailnet on a serving node with a policy. */
  predicate Candidate(db: Database, t: Id, n: Id) {
    GrantEligible(db, Pair(n, t)) && NodeServes(db, n) && n in db.policies
  }

  /** The policy admits a key of tailnet `t` at `now`. */
  predicate Admits(p: Policy, t: Id, now: int) {
    exists i, j :: 0 <= i < |p.grants| && p.grants[i].tailnetId == t && 0 <= j < |p.grants[i].keys| && now < EarliestDeadline(p.grants[i], p.grants[i].keys[j])
  }

  ghost predicate Offers(db: Database, t: Id, n: Id, now: int) {
    Candidate(db, t, n) && db.policies[n].body.Some? && Admits(db.policies[n].body.value, t, now)
  }

  method Usable(p: Policy, t: Id, now: int) returns (usable: bool)
    ensures usable == Admits(p, t, now)
  {
    usable := false;
    for i := 0 to |p.grants|
      invariant usable <==> exists a, b :: 0 <= a < i && p.grants[a].tailnetId == t && 0 <= b < |p.grants[a].keys|
                                           && now < EarliestDeadline(p.grants[a], p.grants[a].keys[b])
    {
      if p.grants[i].tailnetId == t {
        var live := AnyLive(p.grants[i], now);
        usable := usable || live;
      }
    }
  }

  method AnyLive(g: GrantPolicy, now: int) returns (live: bool)
    ensures live <==> exists b :: 0 <= b < |g.keys| && now < EarliestDeadline(g, g.keys[b])
  {
    live := false;
    for j := 0 to |g.keys|
      invariant live <==> exists b :: 0 <= b < j && now < EarliestDeadline(g, g.keys[b])
    {
      var until := EffectiveUntil(g, g.keys[j]);
      if now < until {
        live := true;
      }
    }
  }

  /** The regions of the offering nodes among `done`, each under its own number. */
  ghost predicate MapsExactly(db: Database, t: Id, now: int, done: set<Id>, m: map<int, Region>) {
    && (forall n :: n in done && Offers(db, t, n, now) ==> db.nodes[n].region in m && m[db.nodes[n].region] == Region(db.nodes[n].region, db.nodes[n].domain))
    && (forall k :: k in m ==> exists n :: n in done && Offers(db, t, n, now) && db.nodes[n].region == k)
  }

  /** On any committed state the map is built, and holds exactly the nodes that admit the tailnet; the guards
      against a foreign or repeated region never fire. */
  method BuildDERPMap(env: Env, db: Database, actor: Actor, t: Id, now: int) returns (r: Outcome<map<int, Region>>)
    ensures forall e :: TailnetDenied(db, actor, t, e) ==> r == Err(e)
    ensures t in db.tailnets && ActsFor(db, actor, db.tailnets[t].owner) && Inv(env, db) ==> r.Ok? && MapsExactly(db, t, now, db.nodes.Keys, r.value)
  {
    hide Inv, Admits, View, MapsExactly, Offers, TailnetDenied, Known, Speaks, TailnetOwner;
    TailnetOwnerMeans(db, actor, t);
    var denied := TailnetOwner(db, actor, t);
    if denied.Some? {
      return Err(denied.value);
    }
    var regions: map<int, Region> := map[];
    var left := set n | n in db.nodes && Candidate(db, t, n);
    ghost var done := db.nodes.Keys - left;
    MapsStart(db, t, now, done);
    while left != {}
      invariant left <= (set n | n in db.nodes && Candidate(db, t, n)) && done == db.nodes.Keys - left
      invariant MapsExactly(db, t, now, done, regions)
      decreases |left|
    {
      var n :| n in left;
      if db.policies[n].body.None? {
        if Inv(env, db) { InvFacts(env, db, n); }
        return Err(Invalid);
      }
      var usable := Usable(db.policies[n].body.value, t, now);
      if usable {
        var region := db.nodes[n].region;
        if region < FIRST_REGION || region > LAST_REGION || region in regions {
          if Inv(env, db) { RegionFree(env, db, t, now, done, regions, n); }
          return Err(Conflict);
        }
        MapsAdd(db, t, now, done, regions, n);
        regions := regions[region := Region(region, db.nodes[n].domain)];
      } else {
        MapsSkip(db, t, now, done, regions, n);
      }
      left := left - {n};
      done := done + {n};
    }
    assert done == db.nodes.Keys;
    return Ok(regions);
  }

  lemma MapsStart(db: Database, t: Id, now: int, done: set<Id>)
    requires forall n :: n in done ==> !Candidate(db, t, n)
    ensures MapsExactly(db, t, now, done, map[])
  {}

  lemma MapsAdd(db: Database, t: Id, now: int, done: set<Id>, m: map<int, Region>, n: Id)
    requires MapsExactly(db, t, now, done, m) && done <= db.nodes.Keys && Candidate(db, t, n)
    requires db.policies[n].body.Some? && Admits(db.policies[n].body.value, t, now) && db.nodes[n].region !in m
    ensures MapsExactly(db, t, now, done + {n}, m[db.nodes[n].region := Region(db.nodes[n].region, db.nodes[n].domain)])
  {
    hide Admits, GrantEligible;
    var m' := m[db.nodes[n].region := Region(db.nodes[n].region, db.nodes[n].domain)];
    assert Offers(db, t, n, now);
    forall k | k in m' ensures exists x :: x in done + {n} && Offers(db, t, x, now) && db.nodes[x].region == k {
      if k in m {
        var x :| x in done && Offers(db, t, x, now) && db.nodes[x].region == k;
        assert x in done + {n};
      } else {
        assert n in done + {n};
      }
    }
  }

  lemma MapsSkip(db: Database, t: Id, now: int, done: set<Id>, m: map<int, Region>, n: Id)
    requires MapsExactly(db, t, now, done, m) && Candidate(db, t, n) && db.policies[n].body.Some? && !Admits(db.policies[n].body.value, t, now)
    ensures MapsExactly(db, t, now, done + {n}, m)
  {
    hide Admits, GrantEligible;
    forall k | k in m ensures exists x :: x in done + {n} && Offers(db, t, x, now) && db.nodes[x].region == k {
      var x :| x in done && Offers(db, t, x, now) && db.nodes[x].region == k;
      assert x in done + {n};
    }
  }

  lemma InvFacts(env: Env, db: Database, n: Id)
    requires Inv(env, db) && n in db.policies
    ensures db.policies[n].body.Some?
  {
    assert Materialised(env, db, n);
  }

  lemma RegionFree(env: Env, db: Database, t: Id, now: int, done: set<Id>, regions: map<int, Region>, n: Id)
    requires Inv(env, db) && MapsExactly(db, t, now, done, regions) && done <= db.nodes.Keys && n in db.nodes && n !in done
    ensures FIRST_REGION <= db.nodes[n].region <= LAST_REGION && db.nodes[n].region !in regions
  {
    hide Offers, Stored, References, TokensDrawn, SharingSound;
  }

  /** A node is offered exactly when its stored policy, which is the view of the tables, admits a key of the tailnet. */
  lemma OfferedIsAdmitted(env: Env, db: Database, t: Id, n: Id, now: int)
    requires Inv(env, db) && n in db.policies && db.policies[n].body.Some? && Admits(db.policies[n].body.value, t, now)
    ensures n in db.nodes && Offers(db, t, n, now)
  {
    hide TablesSound, ValidPolicy, View;
    assert Materialised(env, db, n);
    var p := db.policies[n].body.value;
    var i, j :| 0 <= i < |p.grants| && p.grants[i].tailnetId == t && 0 <= j < |p.grants[i].keys| && now < EarliestDeadline(p.grants[i], p.grants[i].keys[j]);
    StoredEntry(env, db, n, i);
    ServesIfShown(env, db, n);
  }

  lemma ServesIfShown(env: Env, db: Database, n: Id)
    requires n in db.nodes && n in db.policies && Materialised(env, db, n) && db.policies[n].body.value.grants != []
    ensures NodeServes(db, n)
  {
    if !NodeServes(db, n) { IdleView(db, n); }
  }

  /** In every state of every run, a node is offered to a tailnet exactly if the tailnet is to be admitted there and has a
      device of its own whose admission has not run out. */
  lemma OfferedExactly(env: Env, states: seq<Database>, events: seq<Event>, i: nat, t: Id, n: Id, now: int)
    requires IsRun(env, states, events) && i < |states|
    ensures Offers(states[i], t, n, now) <==>
              && n in states[i].policies && Admission.Admitted(states[i], n, t)
              && exists k :: Admission.OwnKey(states[i], t, k) && PolicyMeans.WithinDeadlines(states[i], n, t, k, now)
  {
    hide IsRun, Inv, Offers, Admission.OwnKey, Admission.Admitted, PolicyMeans.WithinDeadlines;
    InvAlways(env, states, events, i);
    OfferedHasPolicy(states[i], t, n, now);
    if n in states[i].policies {
      InvFacts(env, states[i], n);
      var p := states[i].policies[n].body.value;
      if Admits(p, t, now) {
        OfferedIsAdmitted(env, states[i], t, n, now);
        var a, b :| 0 <= a < |p.grants| && p.grants[a].tailnetId == t && 0 <= b < |p.grants[a].keys| && now < EarliestDeadline(p.grants[a], p.grants[a].keys[b]);
        assert p.grants[a].keys[b] in p.grants[a].keys;
        assert PolicyMeans.Admits(p, t, p.grants[a].keys[b], now);
        PolicyMeans.AdmissionExactly(env, states, events, i, n, t, p.grants[a].keys[b], now);
      } else {
        forall k ensures !PolicyMeans.Admits(p, t, k, now) {}
        forall k { PolicyMeans.AdmissionExactly(env, states, events, i, n, t, k, now); }
      }
    }
  }

  lemma OfferedHasPolicy(db: Database, t: Id, n: Id, now: int)
    ensures Offers(db, t, n, now) ==> n in db.policies && db.policies[n].body.Some? && Admits(db.policies[n].body.value, t, now)
  {}
}
