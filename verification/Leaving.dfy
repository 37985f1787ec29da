/** Leaving a cluster: the order in which the daemon stops the relay, clears its registration and removes the
    policy cache, every way it starts the relay again, and a crash or an error possible at every
    step (internal/daemon/local_cluster.go, local_config.go, daemon.go, node.go, internal/derper/args.go). */
module Leaving {
  import opened Ids
  import opened Protocol
  import opened Tables
  import opened Cache
  import opened NodeClient

  /** The cluster and node a registration names; both are empty without a session. */
  datatype Binding = Binding(clusterId: Id, nodeId: Id)

  const UNBOUND := Binding("", "")

  function BindingOf(r: Registration): Binding {
    if r.session.Some? then Binding(r.session.value.clusterId, r.session.value.nodeId) else UNBOUND
  }

  /** The registration on disk and in memory, whether this process knows where the policy is, the two cache files,
      and whether the relay child and the control loop run. */
  datatype Machine = Machine(file: Binding, memory: Binding, prepared: bool, disk: Disk, child: bool, control: bool)

  // The check before a start.

  ghost function Checked(codec: Codec, disk: Disk, b: Binding, now: int, f: Fate, d: Fate): Disk {
    var loaded := Load(codec, disk, b.clusterId, b.nodeId, now, f);
    if loaded.policy.Some? then loaded.disk else Discard(loaded.disk, d)
  }

  ghost predicate CheckOk(codec: Codec, disk: Disk, b: Binding, now: int, f: Fate, d: Fate) {
    Load(codec, disk, b.clusterId, b.nodeId, now, f).policy.Some? || d.Done?
  }

  /** Whatever does not load under the registration in memory is discarded; only then is the child told. */
  ghost function Prepared(codec: Codec, m: Machine, now: int, f: Fate, d: Fate): Machine {
    m.(disk := Checked(codec, m.disk, m.memory, now, f, d), prepared := m.prepared || CheckOk(codec, m.disk, m.memory, now, f, d))
  }

  /** A child that runs is left alone; a stopped one starts if it was told where the policy is and comes up. */
  function Launched(m: Machine, up: bool): Machine { m.(child := m.child || (m.prepared && up)) }

  // The daemon's operations.

  ghost function Booted(codec: Codec, m: Machine, now: int, f: Fate, d: Fate, up: bool): Machine {
    var p := Prepared(codec, m.(memory := m.file, prepared := false, child := false), now, f, d);
    var l := if p.prepared then Launched(p, up) else p;
    l.(control := l.child)
  }

  /** The control loop ends first; it runs again only with a child, and once the controller knows the ports. */
  ghost function AppliedLocal(codec: Codec, m: Machine, stopped: bool, now: int, f: Fate, d: Fate, up: bool, ported: bool): Machine {
    if !stopped then m.(control := false)
    else
      var p := Prepared(codec, m.(child := false, control := false), now, f, d);
      if CheckOk(codec, m.disk, m.memory, now, f, d) then var l := Launched(p, up); l.(control := l.child && ported) else p
  }

  function Restarted(m: Machine, stopped: bool, up: bool): Machine {
    if stopped then Launched(m.(child := false), up) else m
  }

  /** The control loop writes the registration it holds, with a new lease or session. */
  function WroteBack(m: Machine, w: Fate): Machine {
    if m.control && !w.Lost? then m.(file := m.memory) else m
  }

  /** Leaving up to the removal of the cache, each step only if the one before succeeded. An error in clearing the
      registration restores it in memory, even if the file was replaced; a cache whose place is not known is
      not removed. */
  function Left(m: Machine, stopped: bool, cleared: Fate, f1: Fate, f2: Fate): Machine {
    if !stopped then m.(control := false)
    else match cleared
      case Lost => m.(child := false, control := false)
      case DoneUnseen => m.(file := UNBOUND, child := false, control := false)
      case Done => m.(file := UNBOUND, memory := UNBOUND, child := false, control := false,
                      disk := if m.prepared then Remove(m.disk, f1, f2) else m.disk)
  }

  class Daemon {
    const cache: PolicyCache
    const client: EnrollmentClient
    var prepared: bool
    var child: bool
    var control: bool

    constructor (cache: PolicyCache, client: EnrollmentClient)
      ensures this.cache == cache && this.client == client && !prepared && !child && !control
    {
      this.cache, this.client := cache, client;
      prepared, child, control := false, false, false;
    }

    function State(): Machine
      reads this, cache, client
    {
      Machine(BindingOf(client.file), BindingOf(client.state), prepared, cache.Contents(), child, control)
    }

    /** The registration in memory decides; the child is told where the policy is only if the check succeeds. */
    method PrepareNodePolicy(now: int, f: Fate, d: Fate) returns (ok: bool)
      modifies this`prepared, cache
      ensures State() == Prepared(cache.codec, old(State()), now, f, d)
      ensures ok == CheckOk(cache.codec, old(cache.Contents()), old(State().memory), now, f, d)
    {
      var binding := BindingOf(client.state);
      var loaded := cache.LoadAt(binding.clusterId, binding.nodeId, now, f);
      if loaded.None? {
        cache.DiscardSnapshot(d);
        if !d.Done? {
          return false;
        }
      }
      prepared := true;
      return true;
    }

    /** Start a stopped child, without looking at the cache; it is refused where no policy path is known. */
    method SyncDerper(up: bool)
      modifies this`child
      ensures State() == Launched(old(State()), up)
    {
      if !child && prepared && up {
        child := true;
      }
    }

    method Boot(now: int, f: Fate, d: Fate, up: bool)
      modifies this, cache, client`state
      ensures State() == Booted(cache.codec, old(State()), now, f, d, up)
    {
      client.Reopen();
      prepared, child := false, false;
      var ok := PrepareNodePolicy(now, f, d);
      if ok {
        SyncDerper(up);
      }
      control := child;
    }

    method ApplyLocalConfig(stopped: bool, now: int, f: Fate, d: Fate, up: bool, ported: bool) returns (ok: bool)
      modifies this, cache
      ensures State() == AppliedLocal(cache.codec, old(State()), stopped, now, f, d, up, ported)
      ensures ok ==> stopped && child && control
    {
      control := false;
      if !stopped {
        return false;
      }
      child := false;
      ok := PrepareNodePolicy(now, f, d);
      if ok {
        SyncDerper(up);
        control := child && ported;
        ok := control;
      }
    }

    method ReloadConfig(up: bool)
      modifies this`child
      ensures State() == Launched(old(State()), up)
    {
      SyncDerper(up);
    }

    method RestartDerper(stopped: bool, up: bool)
      modifies this`child
      ensures State() == Restarted(old(State()), stopped, up)
    {
      if stopped {
        child := false;
        SyncDerper(up);
      }
    }

    /** What the control loop does with the answer to a heartbeat. */
    method Heartbeat(beat: Heartbeat, w: Fate)
      requires client.Valid()
      modifies client`state, client`file
      ensures State() == if old(client.state.session.Some? && GoodBeat(client.state.session.value, beat)) then WroteBack(old(State()), w) else old(State())
    {
      if control && client.state.session.Some? {
        var _ := client.KeepLease(beat, w);
      }
    }

    /** And with the answer to a renewal, which is for the same cluster and node. */
    method Renew(challenge: Option<Challenge>, answer: Answer, now: int, w: Fate)
      requires client.Valid()
      modifies client`state, client`file
      ensures State() == if old(client.state.session.Some? && client.RenewalFits(client.state.session.value, challenge, now))
                            && answer.Granted? && Acceptable(answer.session, challenge.value, now)
                         then WroteBack(old(State()), w) else old(State())
    {
      if control {
        var _ := client.RenewSession(challenge, answer, now, w);
      }
    }

    /** Stop, clear, remove; then tell the controller if there was a session, save the configuration and apply it. */
    method Leave(stopped: bool, cleared: Fate, f1: Fate, f2: Fate, answered: bool, configSaved: bool, again: bool, now: int, f: Fate, d: Fate, up: bool, ported: bool)
      returns (released: bool, ok: bool)
      requires client.Valid()
      modifies this, cache, client`state, client`file
      ensures var left := Left(old(State()), stopped, cleared, f1, f2);
              State() == if stopped && cleared.Done? && old(prepared) && f1.Done? && f2.Done? && configSaved
                         then AppliedLocal(cache.codec, left, again, now, f, d, up, ported) else left
      ensures released ==> answered && old(client.state.session.Some?) && old(prepared) && State().memory == UNBOUND
      ensures ok ==> stopped && cleared.Done? && old(prepared) && f1.Done? && f2.Done? && configSaved && again
    {
      released, ok := false, false;
      control := false;
      if !stopped {
        return;
      }
      child := false;
      var previous, gone := client.ClearRegistration(cleared);
      if !gone || !prepared {
        return;
      }
      var removed := cache.RemoveAll(f1, f2);
      if !removed {
        return;
      }
      if previous.Some? {
        released := answered;
      }
      if !configSaved {
        return;
      }
      ok := ApplyLocalConfig(again, now, f, d, up, ported);
    }
  }

  // What can happen between leaving and the next enrollment.

  datatype DaemonEvent =
    | Booting(now: int, f: Fate, d: Fate, up: bool)                                       // a new process
    | ApplyingLocal(stopped: bool, now: int, f: Fate, d: Fate, up: bool, ported: bool)    // local settings applied in this process
    | Reloading(up: bool)                                                                 // the configuration file is read again
    | Restarting(stopped: bool, up: bool)                                                 // only the child is restarted
    | Exiting                                                                             // the child ends by itself
    | LeavingAgain(stopped: bool, cleared: Fate, f1: Fate, f2: Fate)                      // a leave that failed is tried again
    // The control loop, while a registration is still in memory:
    | Reading(now: int, f: Fate)                                                          // it looks at the cache
    | Storing(p: Policy, now: int, f1: Fate, f2: Fate)                                    // it stores a policy
    | Persisting(w: Fate)                                                                 // it writes the lease or a renewed session
    | Conflicting(d: Fate, stopped: bool)                                                 // it learns of a conflict, drops the snapshot and ends

  predicate Controlled(m: Machine) { m.control && m.memory != UNBOUND }

  ghost function After(codec: Codec, m: Machine, e: DaemonEvent): Machine {
    match e
    case Booting(now, f, d, up) => Booted(codec, m, now, f, d, up)
    case ApplyingLocal(stopped, now, f, d, up, ported) => AppliedLocal(codec, m, stopped, now, f, d, up, ported)
    case Reloading(up) => Launched(m, up)
    case Restarting(stopped, up) => Restarted(m, stopped, up)
    case Exiting => m.(child := false)
    case LeavingAgain(stopped, cleared, f1, f2) => Left(m, stopped, cleared, f1, f2)
    case Reading(now, f) => if Controlled(m) then m.(disk := Load(codec, m.disk, m.memory.clusterId, m.memory.nodeId, now, f).disk) else m
    case Storing(p, now, f1, f2) => if Controlled(m) then m.(disk := Save(codec, m.disk, p, now, f1, f2).disk) else m
    case Persisting(w) => if Controlled(m) then WroteBack(m, w) else m
    case Conflicting(d, stopped) =>
      if Controlled(m) then m.(disk := Discard(m.disk, d), control := false, child := m.child && !stopped) else m
  }

  ghost predicate AfterAt(codec: Codec, ms: seq<Machine>, events: seq<DaemonEvent>, i: nat)
    requires i < |events| && i + 1 < |ms|
  {
    ms[i + 1] == After(codec, ms[i], events[i])
  }

  /** From the moment the cleared registration is on disk, until a new enrollment. Memory may still hold the
      old one if clearing it reported an error, and the control loop may then write it back. */
  ghost predicate IsAftermath(codec: Codec, ms: seq<Machine>, events: seq<DaemonEvent>) {
    && |ms| == |events| + 1 && ms[0].file == UNBOUND && !ms[0].child && !ms[0].control
    && forall i :: 0 <= i < |events| ==> AfterAt(codec, ms, events, i)
  }

  /** No watermark is bound to an empty registration, so nothing loads under it. */
  lemma NothingLoadsUnbound(codec: Codec, disk: Disk, now: int, f: Fate)
    ensures Load(codec, disk, "", "", now, f) == Loaded(disk, None)
  {
    hide ValidPolicy;
  }

  // Which registration is where.

  /** The file holds nothing or what memory holds, and memory nothing or the registration that was left. */
  predicate Bound(m: Machine, held: Binding) {
    (m.file == UNBOUND || m.file == m.memory) && (m.memory == UNBOUND || m.memory == held) && (m.child ==> m.prepared)
  }

  /** The control loop writes the registration that was left to the file again. */
  predicate WritesBack(m: Machine, e: DaemonEvent) { e.Persisting? && !e.w.Lost? && Controlled(m) }

  /** The event clears the file. */
  predicate Clears(e: DaemonEvent) { e.LeavingAgain? && e.stopped && !e.cleared.Lost? }

  lemma BoundStep(codec: Codec, m: Machine, e: DaemonEvent, held: Binding)
    requires Bound(m, held)
    ensures Bound(After(codec, m, e), held)
    ensures After(codec, m, e).file != UNBOUND <==> WritesBack(m, e) || (m.file != UNBOUND && !Clears(e))
    ensures m.memory == UNBOUND ==> After(codec, m, e).memory == UNBOUND
  {
    hide Load, Save;
  }

  lemma {:induction false} BoundAlways(codec: Codec, ms: seq<Machine>, events: seq<DaemonEvent>, i: nat)
    requires IsAftermath(codec, ms, events) && i < |ms|
    ensures Bound(ms[i], ms[0].memory)
    ensures ms[0].memory == UNBOUND ==> ms[i].memory == UNBOUND
    decreases i
  {
    hide After;
    if i > 0 {
      BoundAlways(codec, ms, events, i - 1);
      assert AfterAt(codec, ms, events, i - 1);
      BoundStep(codec, ms[i - 1], events[i - 1], ms[0].memory);
    }
  }

  predicate NotCleared(events: seq<DaemonEvent>, k: nat, i: nat)
    requires i <= |events|
  {
    forall l :: k < l < i ==> !Clears(events[l])
  }

  /** The control loop wrote the old registration back, and nothing has cleared the file since. */
  predicate WrittenBack(ms: seq<Machine>, events: seq<DaemonEvent>, i: nat)
    requires i <= |events| < |ms|
  {
    exists k :: 0 <= k < i && WritesBack(ms[k], events[k]) && NotCleared(events, k, i)
  }

  lemma WrittenBackNext(ms: seq<Machine>, events: seq<DaemonEvent>, i: nat)
    requires i < |events| < |ms|
    ensures WrittenBack(ms, events, i + 1) <==> WritesBack(ms[i], events[i]) || (WrittenBack(ms, events, i) && !Clears(events[i]))
  {
    hide WritesBack, Clears;
    if WrittenBack(ms, events, i) && !Clears(events[i]) {
      var k :| 0 <= k < i && WritesBack(ms[k], events[k]) && NotCleared(events, k, i);
      assert NotCleared(events, k, i + 1);
    }
    assert NotCleared(events, i, i + 1);
    if WrittenBack(ms, events, i + 1) && !WritesBack(ms[i], events[i]) {
      var k :| 0 <= k < i + 1 && WritesBack(ms[k], events[k]) && NotCleared(events, k, i + 1);
      assert k < i && NotCleared(events, k, i) && !Clears(events[i]);
    }
  }

  /** After a leave the file names the old registration again exactly if the control loop wrote it back. */
  lemma {:induction false} FileIsBound(codec: Codec, ms: seq<Machine>, events: seq<DaemonEvent>, i: nat)
    requires IsAftermath(codec, ms, events) && i < |ms|
    ensures ms[i].file == if WrittenBack(ms, events, i) then ms[0].memory else UNBOUND
    ensures WrittenBack(ms, events, i) ==> ms[0].memory != UNBOUND
    decreases i
  {
    hide After, WrittenBack, WritesBack, Clears;
    BoundAlways(codec, ms, events, i);
    if i == 0 {
      assert !WrittenBack(ms, events, 0) by { NothingWritten(ms, events); }
    } else {
      FileIsBound(codec, ms, events, i - 1);
      BoundAlways(codec, ms, events, i - 1);
      assert AfterAt(codec, ms, events, i - 1);
      BoundStep(codec, ms[i - 1], events[i - 1], ms[0].memory);
      WrittenBackNext(ms, events, i - 1);
    }
  }

  lemma NothingWritten(ms: seq<Machine>, events: seq<DaemonEvent>)
    requires |events| < |ms|
    ensures !WrittenBack(ms, events, 0)
  {}

  /** Once registration and snapshot are gone they stay gone. */
  lemma {:induction false} GoneStaysGone(codec: Codec, ms: seq<Machine>, events: seq<DaemonEvent>, i: nat, j: nat)
    requires IsAftermath(codec, ms, events) && i <= j < |ms| && ms[i].memory == UNBOUND && ms[i].disk.snapshot.Absent?
    ensures ms[j].memory == UNBOUND && ms[j].disk.snapshot.Absent?
    decreases j - i
  {
    hide After, Deletes;
    if i < j {
      GoneStaysGone(codec, ms, events, i, j - 1);
      BoundAlways(codec, ms, events, j - 1);
      assert AfterAt(codec, ms, events, j - 1);
      BoundStep(codec, ms[j - 1], events[j - 1], ms[0].memory);
      UnboundEffect(codec, ms[j - 1], events[j - 1]);
    }
  }

  // Starts that check the cache.

  /** The registration that the check of this start looks at. */
  function CheckedUnder(m: Machine, e: DaemonEvent): Binding { if e.Booting? then m.file else m.memory }

  lemma CheckedStart(codec: Codec, m: Machine, e: DaemonEvent)
    requires e.Booting? || (e.ApplyingLocal? && e.stopped)
    ensures var b, after := CheckedUnder(m, e), After(codec, m, e);
            && (after.child && !after.disk.snapshot.Absent? <==> e.up && Load(codec, m.disk, b.clusterId, b.nodeId, e.now, e.f).policy.Some?)
            && (after.child && !after.disk.snapshot.Absent? ==> after.disk.snapshot == m.disk.snapshot)
  {
    hide ValidPolicy;
  }

  /** Whatever crashed, a boot that starts the child finds the old snapshot deleted from the disk, unless the control
      loop wrote the old registration back since it was cleared; so do settings applied once the
      registration is also gone from memory. Nothing loads without a registration. */
  lemma OldSnapshotGone(codec: Codec, ms: seq<Machine>, events: seq<DaemonEvent>, i: nat, now: int, f: Fate)
    requires IsAftermath(codec, ms, events) && i < |events| && ms[i + 1].child
    requires || (events[i].Booting? && !WrittenBack(ms, events, i))
             || (events[i].ApplyingLocal? && events[i].stopped && ms[i].memory == UNBOUND)
    ensures ms[i + 1].disk.snapshot.Absent? && Load(codec, ms[i + 1].disk, "", "", now, f).policy.None?
  {
    hide After, Load, WrittenBack;
    FileIsBound(codec, ms, events, i);
    assert AfterAt(codec, ms, events, i);
    CheckedStart(codec, ms[i], events[i]);
    NothingLoadsUnbound(codec, ms[i].disk, events[i].now, events[i].f);
    NothingLoadsUnbound(codec, ms[i + 1].disk, now, f);
  }

  /** A boot after a leave runs the child over the old snapshot exactly if the control loop wrote the old registration
      back since the file was cleared, and the snapshot loads under it. */
  lemma BootRunsOver(codec: Codec, ms: seq<Machine>, events: seq<DaemonEvent>, i: nat)
    requires IsAftermath(codec, ms, events) && i < |events| && events[i].Booting?
    ensures ms[i + 1].child && !ms[i + 1].disk.snapshot.Absent? <==>
              && events[i].up && WrittenBack(ms, events, i)
              && Load(codec, ms[i].disk, ms[0].memory.clusterId, ms[0].memory.nodeId, events[i].now, events[i].f).policy.Some?
  {
    hide After, Load, WrittenBack;
    FileIsBound(codec, ms, events, i);
    assert AfterAt(codec, ms, events, i);
    CheckedStart(codec, ms[i], events[i]);
    NothingLoadsUnbound(codec, ms[i].disk, events[i].now, events[i].f);
  }

  /** Settings applied while the old registration is still in memory run the child over the old snapshot exactly
      if it loads under that registration. */
  lemma OldMemoryLoads(codec: Codec, ms: seq<Machine>, events: seq<DaemonEvent>, i: nat)
    requires IsAftermath(codec, ms, events) && i < |events| && events[i].ApplyingLocal? && events[i].stopped
    ensures ms[i + 1].child && !ms[i + 1].disk.snapshot.Absent? <==>
              && events[i].up
              && Load(codec, ms[i].disk, ms[i].memory.clusterId, ms[i].memory.nodeId, events[i].now, events[i].f).policy.Some?
  {
    hide After, Load;
    assert AfterAt(codec, ms, events, i);
    CheckedStart(codec, ms[i], events[i]);
  }

  /** An input where that happens: clearing the registration replaced the file and still reported an error. */
  lemma UnseenClearStartsOver(codec: Codec, m: Machine, f1: Fate, f2: Fate, now: int, d: Fate, ported: bool)
    requires Load(codec, m.disk, m.memory.clusterId, m.memory.nodeId, now, Done).policy.Some?
    ensures var left := Left(m, true, DoneUnseen, f1, f2);
            var after := After(codec, left, ApplyingLocal(true, now, Done, d, true, ported));
            left.file == UNBOUND && after.child && after.disk.snapshot == m.disk.snapshot && !after.disk.snapshot.Absent?
  {
    hide ValidPolicy;
  }

  /** An input where a boot does: after that, the control loop writes the lease, and the machine starts again. */
  lemma WrittenBackBootsOver(codec: Codec, m: Machine, f1: Fate, f2: Fate, now: int, d: Fate)
    requires Load(codec, m.disk, m.memory.clusterId, m.memory.nodeId, now, Done).policy.Some?
    ensures var left := Left(m, true, DoneUnseen, f1, f2);
            var applied := After(codec, left, ApplyingLocal(true, now, Done, d, true, true));
            var booted := After(codec, After(codec, applied, Persisting(Done)), Booting(now, Done, d, true));
            left.file == UNBOUND && booted.child && booted.disk.snapshot == m.disk.snapshot && !booted.disk.snapshot.Absent?
  {
    hide ValidPolicy;
    NothingLoadsUnbound(codec, m.disk, now, Done);
  }

  // Starts that do not.

  /** Reading the configuration again and restarting the child start it without looking at the cache. */
  predicate UncheckedStart(e: DaemonEvent) {
    (e.Reloading? && e.up) || (e.Restarting? && e.stopped && e.up)
  }

  /** An input where the child runs over the old snapshot: the deletion failed, and the child is started unchecked. */
  lemma UncheckedStartsOver(codec: Codec, m: Machine, f2: Fate, e: DaemonEvent)
    requires m.prepared && UncheckedStart(e)
    ensures var after := After(codec, Left(m, true, Done, Lost, f2), e);
            after.memory == UNBOUND && after.child && after.disk.snapshot == m.disk.snapshot
  {}

  /** The event deletes the snapshot, once the registration is gone from memory. A leave does so only if the place
      of the cache is known. */
  predicate Deletes(m: Machine, e: DaemonEvent) {
    match e
    case Booting(_, _, d, _) => !d.Lost?
    case ApplyingLocal(stopped, _, _, d, _, _) => stopped && !d.Lost?
    case LeavingAgain(stopped, cleared, f1, _) => stopped && cleared.Done? && m.prepared && !f1.Lost?
    case _ => false
  }

  /** The event leaves the child stopped, if it does not delete the snapshot. */
  predicate Stops(e: DaemonEvent) {
    match e
    case Booting(_, _, _, _) => true
    case ApplyingLocal(stopped, _, _, _, _, _) => stopped
    case Restarting(stopped, up) => stopped && !up
    case Exiting => true
    case LeavingAgain(stopped, _, _, _) => stopped
    case _ => false
  }

  lemma UnboundEffect(codec: Codec, m: Machine, e: DaemonEvent)
    requires m.file == UNBOUND && m.memory == UNBOUND && (m.child ==> m.prepared)
    ensures After(codec, m, e).disk.snapshot == if Deletes(m, e) then Absent else m.disk.snapshot
    ensures !Deletes(m, e) ==> After(codec, m, e).prepared == (m.prepared && !e.Booting?)
    ensures !Deletes(m, e) ==> After(codec, m, e).child == if UncheckedStart(e) then m.prepared else m.child && !Stops(e)
  {
    hide Load;
    if e.Booting? || e.ApplyingLocal? { NothingLoadsUnbound(codec, m.disk, e.now, e.f); }
  }

  /** Nothing after event `k` stopped the child. */
  predicate NotStopped(events: seq<DaemonEvent>, k: nat, i: nat)
    requires i <= |events|
  {
    forall l :: k < l < i ==> !Stops(events[l])
  }

  /** An unchecked start, and nothing since that stopped the child. */
  ghost predicate StartedUnchecked(events: seq<DaemonEvent>, i: nat)
    requires i <= |events|
  {
    exists k :: 0 <= k < i && UncheckedStart(events[k]) && NotStopped(events, k, i)
  }

  lemma StartedNext(events: seq<DaemonEvent>, i: nat)
    requires i < |events|
    ensures StartedUnchecked(events, i + 1) <==> UncheckedStart(events[i]) || (StartedUnchecked(events, i) && !Stops(events[i]))
  {
    if StartedUnchecked(events, i) && !Stops(events[i]) {
      var k :| 0 <= k < i && UncheckedStart(events[k]) && NotStopped(events, k, i);
      assert NotStopped(events, k, i + 1);
    }
    assert NotStopped(events, i, i + 1);
    if StartedUnchecked(events, i + 1) && !UncheckedStart(events[i]) {
      var k :| 0 <= k < i + 1 && UncheckedStart(events[k]) && NotStopped(events, k, i + 1);
      assert k < i && NotStopped(events, k, i) && !Stops(events[i]);
    }
  }

  /** The leaving process is still running and nothing has deleted the snapshot. */
  predicate Untouched(ms: seq<Machine>, events: seq<DaemonEvent>, i: nat)
    requires i <= |events| < |ms|
  {
    forall k :: 0 <= k < i ==> !events[k].Booting? && !Deletes(ms[k], events[k])
  }

  lemma {:induction false} SnapshotLeft(codec: Codec, ms: seq<Machine>, events: seq<DaemonEvent>, i: nat)
    requires IsAftermath(codec, ms, events) && i < |ms| && ms[0].memory == UNBOUND
    ensures !ms[i].disk.snapshot.Absent? <==> !ms[0].disk.snapshot.Absent? && forall k :: 0 <= k < i ==> !Deletes(ms[k], events[k])
    ensures !ms[i].disk.snapshot.Absent? ==> ms[i].prepared == (ms[0].prepared && Untouched(ms, events, i))
    decreases i
  {
    hide After, Deletes;
    if i > 0 {
      SnapshotLeft(codec, ms, events, i - 1);
      BoundAlways(codec, ms, events, i - 1);
      assert AfterAt(codec, ms, events, i - 1);
      UnboundEffect(codec, ms[i - 1], events[i - 1]);
    }
  }

  /** With the registration cleared, the child runs over the old snapshot exactly if the leaving process could start a
      child and is still running, nothing has deleted the snapshot, and the child was started by a reload or a
      restart since it was last stopped. */
  lemma {:induction false} RunsOverOldSnapshot(codec: Codec, ms: seq<Machine>, events: seq<DaemonEvent>, i: nat)
    requires IsAftermath(codec, ms, events) && i < |ms| && ms[0].memory == UNBOUND
    ensures ms[i].child && !ms[i].disk.snapshot.Absent? <==>
              !ms[0].disk.snapshot.Absent? && ms[0].prepared && Untouched(ms, events, i) && StartedUnchecked(events, i)
    decreases i
  {
    hide After, Deletes, Stops, UncheckedStart, StartedUnchecked;
    if i == 0 {
      assert !StartedUnchecked(events, 0) by { NothingStarted(events); }
    } else {
      RunsOverOldSnapshot(codec, ms, events, i - 1);
      SnapshotLeft(codec, ms, events, i - 1);
      SnapshotLeft(codec, ms, events, i);
      BoundAlways(codec, ms, events, i - 1);
      assert AfterAt(codec, ms, events, i - 1);
      UnboundEffect(codec, ms[i - 1], events[i - 1]);
      StartedNext(events, i - 1);
      BootingStops(events[i - 1]);
    }
  }

  lemma NothingStarted(events: seq<DaemonEvent>)
    ensures !StartedUnchecked(events, 0)
  {}

  lemma BootingStops(e: DaemonEvent)
    ensures e.Booting? ==> Stops(e) && !UncheckedStart(e)
  {}

  /** What the leave itself contributes: the child is down, and the snapshot survives exactly when its deletion
      failed or was not reached. */
  lemma LeaveDeletes(m: Machine, cleared: Fate, f1: Fate, f2: Fate)
    ensures var m' := Left(m, true, cleared, f1, f2);
            && !m'.child && !m'.control
            && (m'.memory == UNBOUND && m'.disk.snapshot.Absent? <==>
                  (|| (cleared.Done? && m.prepared && !f1.Lost?)
                   || (m.disk.snapshot.Absent? && (cleared.Done? || m.memory == UNBOUND))))
  {}
}
