/** The node's handling of one policy message, as the code runs it, is a path of the policy
    protocol (internal/cluster/client.go controlConnection and RunControl, internal/derper/policy.go ApplyPolicy). */
module NodeAgent {
  import opened Ids
  import opened Protocol
  import opened Cache
  import opened ControlProtocol

  /** A path of protocol steps from one system state to another. */
  ghost predicate Path(cfg: Config, from: System, steps: seq<Step>, to: System)
    decreases |steps|
  {
    if steps == [] then to == from
    else exists mid :: Moves(cfg, from, steps[0], mid) && Path(cfg, mid, steps[1..], to)
  }

  lemma {:induction false} PathExtends(cfg: Config, from: System, steps: seq<Step>, mid: System, step: Step, to: System)
    requires Path(cfg, from, steps, mid) && Moves(cfg, mid, step, to)
    ensures Path(cfg, from, steps + [step], to)
    decreases |steps|
  {
    hide Moves;
    if steps == [] {
      assert [step][1..] == [];
      assert Path(cfg, to, [], to);
      assert ([] + [step])[0] == step && ([] + [step])[1..] == [];
    } else {
      var next :| Moves(cfg, from, steps[0], next) && Path(cfg, next, steps[1..], mid);
      PathExtends(cfg, next, steps[1..], mid, step, to);
      assert (steps + [step])[1..] == steps[1..] + [step];
      assert (steps + [step])[0] == steps[0];
    }
  }

  /** What became of telling the relay child: it was not reached, it did not answer, or it answered. */
  datatype Exchange = NotReached | NoAnswer | Answered(revision: int, failed: bool)

  /** How a post to the controller went: whether the message entered the network, and whether the node saw success. */
  datatype Post = Post(sent: bool, ok: bool)

  class Agent {
    const cfg: Config
    const cache: PolicyCache
    /** The whole system around the node; its disk is the cache. */
    ghost var world: System

    ghost predicate Linked()
      reads this, cache
    {
      cache.codec == cfg.codec && world.disk == cache.Contents()
    }

    constructor (cfg: Config, cache: PolicyCache, ghost world: System)
      requires cache.codec == cfg.codec && world.disk == cache.Contents()
      ensures this.cfg == cfg && this.cache == cache && this.world == world && Linked()
    {
      this.cfg := cfg;
      this.cache := cache;
      this.world := world;
    }

    /** One step of the protocol, appended to the path taken so far. */
    ghost method Took(from: System, steps: seq<Step>, step: Step, to: System) returns (longer: seq<Step>)
      requires Path(cfg, from, steps, world) && Moves(cfg, world, step, to)
      modifies this`world
      ensures world == to && Path(cfg, from, longer, world) && longer == steps + [step]
    {
      PathExtends(cfg, from, steps, world, step, to);
      longer := steps + [step];
      world := to;
    }

    /** Save again, tell the child, and accept only the answer that names this revision. */
    method ApplyPolicy(p: Policy, now: int, f1: Fate, f2: Fate, x: Exchange, ghost from: System, ghost steps: seq<Step>)
      returns (applied: bool, ghost longer: seq<Step>)
      requires Linked() && world.held.Some? && (world.work.Stored? || world.work.Reloaded?) && world.work.p == p
      requires Path(cfg, from, steps, world)
      modifies this`world, cache
      ensures Linked() && Path(cfg, from, longer, world) && world.held == old(world.held)
      ensures var saved := Save(cfg.codec, old(world.disk), p, now, f1, f2);
              && (applied <==> saved.ok && x == Answered(p.revision, false)) && world.disk == saved.disk
              && world.handed == old(world.handed) + if saved.ok && x != NotReached then [p.revision] else []
      ensures world.work == if applied && old(world.work.Stored?) then Confirmed(p) else Idle
      ensures world.confirmed == old(world.confirmed) + if applied then {p.revision} else {}
      ensures world.acks == old(world.acks)
    {
      hide Path, Save;
      ghost var streamed := world.work.Stored?;
      var saved := cache.SaveAt(p, now, f1, f2);
      longer := Took(from, steps, Apply(now, f1, f2), world.(disk := cache.Contents(), work := if saved then Ready(p, streamed) else Idle));
      applied := false;
      if !saved {
        return;
      }
      if x.NotReached? {
        longer := Took(from, longer, Crash, world.(work := Idle));
        return;
      }
      longer := Took(from, longer, Notify, world.(handed := world.handed + [p.revision], work := Notified(p, streamed)));
      if x.Answered? && !x.failed && x.revision == p.revision {
        applied := true;
        longer := Took(from, longer, ChildAnswers(p.revision),
                       world.(confirmed := world.confirmed + {p.revision}, work := if streamed then Confirmed(p) else Idle));
      } else if x.Answered? && x.revision != p.revision {
        longer := Took(from, longer, ChildAnswers(x.revision), world.(work := Idle));
      } else {
        longer := Took(from, longer, Crash, world.(work := Idle));
      }
    }

    /** Store a published policy and acknowledge that it was received. */
    method StoreAndAcknowledge(p: Policy, now: int, f1: Fate, f2: Fate, sent: bool) returns (saved: bool, ghost steps: seq<Step>)
      requires Linked() && world.held.Some? && world.work.Idle? && IsPublished(world.bodies, p)
      modifies this`world, cache
      ensures Linked() && Path(cfg, old(world), steps, world) && world.held == old(world.held)
      ensures var first := Save(cfg.codec, old(world.disk), p, now, f1, f2); saved == first.ok && world.disk == first.disk
      ensures world.work == (if saved then Stored(p) else Idle) && world.handed == old(world.handed) && world.confirmed == old(world.confirmed)
      ensures world.acks == old(world.acks) + if saved && sent then {AckMessage(world.held.value, p.revision, false)} else {}
    {
      hide Path, Save;
      PathStarts(world);
      ghost var from := world;
      saved := cache.SaveAt(p, now, f1, f2);
      steps := Took(from, [], Receive(p.revision, now, f1, f2), world.(disk := cache.Contents(), work := if saved then Stored(p) else Idle));
      if saved && sent {
        steps := Took(from, steps, SendReceived, world.(acks := world.acks + {AckMessage(world.held.value, p.revision, false)}));
      }
    }

    /** Apply a stored policy, and report it applied if it was and the first acknowledgement got through. */
    method ApplyAndReport(p: Policy, now: int, f1: Fate, f2: Fate, x: Exchange, got: bool, report: Post, ghost from: System, ghost steps: seq<Step>)
      returns (applied: bool, ghost longer: seq<Step>)
      requires Linked() && world.held.Some? && world.work.Stored? && world.work.p == p && Path(cfg, from, steps, world)
      modifies this`world, cache
      ensures Linked() && Path(cfg, from, longer, world) && world.held == old(world.held) && world.work.Idle?
      ensures var saved := Save(cfg.codec, old(world.disk), p, now, f1, f2);
              && (applied <==> saved.ok && x == Answered(p.revision, false))
              && world.handed == old(world.handed) + if saved.ok && x != NotReached then [p.revision] else []
      ensures world.confirmed == old(world.confirmed) + if applied then {p.revision} else {}
      ensures world.acks == old(world.acks) + if applied && got && report.sent then {AckMessage(world.held.value, p.revision, true)} else {}
    {
      hide Path, Save;
      applied, longer := ApplyPolicy(p, now, f1, f2, x, from, steps);
      if applied {
        if got && report.sent {
          longer := Took(from, longer, SendApplied, world.(acks := world.acks + {AckMessage(world.held.value, p.revision, true)}, work := Idle));
        } else {
          longer := Took(from, longer, Crash, world.(work := Idle));
        }
      }
    }

    /** One policy message from the stream: validate, store, acknowledge, apply, acknowledge. A lost first
        acknowledgement does not keep the policy from being applied, but ends the connection before the second. A
        policy that is refused, not stored or not applied is reported as such. */
    method HandlePolicy(p: Policy, now: int, again: int, f1: Fate, f2: Fate, f3: Fate, f4: Fate, x: Exchange, received: Post, report: Post)
      returns (end: Ending, nack: Option<string>, goesOn: bool, ghost steps: seq<Step>)
      requires Linked() && world.held.Some? && world.work.Idle? && IsPublished(world.bodies, p)
      modifies this`world, cache
      ensures Linked() && Path(cfg, old(world), steps, world) && world.work.Idle? && world.held == old(world.held)
      ensures var first := Save(cfg.codec, old(world.disk), p, now, f1, f2);
              var second := Save(cfg.codec, first.disk, p, again, f3, f4);
              && end == (if !ValidPolicy(p, cfg.clusterId, cfg.nodeId) then Refused
                         else if !first.ok then NotStored
                         else if second.ok && x == Answered(p.revision, false) then Applied else NotApplied)
              && world.handed == old(world.handed) + if (end.NotApplied? || end.Applied?) && second.ok && x != NotReached then [p.revision] else []
      ensures world.confirmed == old(world.confirmed) + if end.Applied? then {p.revision} else {}
      ensures world.acks == old(world.acks)
                            + (if (end.NotApplied? || end.Applied?) && received.sent then {AckMessage(world.held.value, p.revision, false)} else {})
                            + (if end.Applied? && received.ok && report.sent then {AckMessage(world.held.value, p.revision, true)} else {})
      ensures nack == match end
                      case Refused => Some("invalid_policy")
                      case NotStored => Some("persist_failed")
                      case NotApplied => if received.ok then Some("apply_failed") else None
                      case Applied => None
      ensures goesOn <==> report.ok && (end.NotApplied? || end.Applied? ==> received.ok)
    {
      hide Path, Save, ValidPolicy, Moves;
      PathStarts(world);
      ghost var from := world;
      steps := [];
      var valid := ValidatePolicy(p, cfg.clusterId, cfg.nodeId);
      if !valid {
        return Refused, Some("invalid_policy"), report.ok, steps;
      }
      var saved;
      saved, steps := StoreAndAcknowledge(p, now, f1, f2, received.sent);
      if !saved {
        return NotStored, Some("persist_failed"), report.ok, steps;
      }
      var applied;
      applied, steps := ApplyAndReport(p, again, f3, f4, x, received.ok, report, from, steps);
      end := if applied then Applied else NotApplied;
      nack := if !applied && received.ok then Some("apply_failed") else None;
      goesOn := received.ok && report.ok;
    }

    /** A start: what the cache still holds is applied, without an acknowledgement. */
    method ApplyCached(now: int, again: int, f: Fate, f3: Fate, f4: Fate, x: Exchange) returns (applied: bool, ghost steps: seq<Step>)
      requires Linked() && world.held.Some? && world.work.Idle?
      modifies this`world, cache
      ensures Linked() && Path(cfg, old(world), steps, world) && world.work.Idle? && world.acks == old(world.acks)
      ensures var loaded := Load(cfg.codec, old(world.disk), cfg.clusterId, cfg.nodeId, now, f);
              applied <==> loaded.policy.Some? && Save(cfg.codec, loaded.disk, loaded.policy.value, again, f3, f4).ok
                           && x == Answered(loaded.policy.value.revision, false)
    {
      hide Path, Save, Load;
      PathStarts(world);
      ghost var from := world;
      var loaded := cache.LoadAt(cfg.clusterId, cfg.nodeId, now, f);
      steps := Took(from, [], Start(now, f), world.(disk := cache.Contents(), work := if loaded.Some? then Reloaded(loaded.value) else Idle));
      applied := false;
      if loaded.Some? {
        applied, steps := ApplyPolicy(loaded.value, again, f3, f4, x, from, steps);
      }
    }

    lemma PathStarts(w: System)
      ensures Path(cfg, w, [], w)
    {}
  }

  datatype Ending = Refused | NotStored | NotApplied | Applied

  lemma {:induction false} PathKeepsSound(cfg: Config, from: System, steps: seq<Step>, to: System)
    requires Faithful(cfg.codec) && Sound(cfg, from) && Path(cfg, from, steps, to)
    ensures Sound(cfg, to)
    decreases |steps|
  {
    hide Sound, Moves, Faithful;
    if steps != [] {
      var mid :| Moves(cfg, from, steps[0], mid) && Path(cfg, mid, steps[1..], to);
      MoveKeepsSound(cfg, from, steps[0], mid);
      PathKeepsSound(cfg, mid, steps[1..], to);
    }
  }
}
