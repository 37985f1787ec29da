/** The policy protocol between the controller and one node: published revisions travel over a
    channel that loses, repeats and delays them, the node stores each one before it
    acknowledges and applies it, and may crash between any two steps
    (internal/cluster/client.go, internal/derper/policy.go, internal/control/control_stream.go). */
module ControlProtocol {
  import opened Ids
  import opened Protocol
  import opened Cache
  import opened CacheRuns

  /** The controller's row for the node. */
  datatype Row = Row(desired: int, received: int, applied: int, body: Policy)

  /** What the node is doing in memory; a crash forgets it. */
  datatype Work =
    | Idle
    | Stored(p: Policy)                     // saved from the stream
    | Reloaded(p: Policy)                   // found in the cache at start
    | Ready(p: Policy, streamed: bool)         // saved again, about to notify the relay child
    | Notified(p: Policy, streamed: bool)      // the child has been told
    | Confirmed(p: Policy)                  // the child answered with this revision

  /** An acknowledgement under the session of registration `epoch`. */
  datatype AckMessage = AckMessage(epoch: nat, revision: int, applied: bool)

  /** `epoch` counts the registrations the controller has given out or will give out next; `held` is the one
      the node has on disk and `last` the latest it ever had. `handed` are the revisions the child was
      told since the node joined, and `confirmed` those it answered. */
  datatype System = System(
    row: Row, epoch: nat, bodies: map<int, Policy>,
    held: Option<nat>, last: nat, disk: Disk, work: Work, handed: seq<int>, confirmed: set<int>,
    acks: set<AckMessage>)

  datatype Config = Config(codec: Codec, clusterId: Id, nodeId: Id)

  predicate BoundTo(cfg: Config, p: Policy) { p.clusterId == cfg.clusterId && p.nodeId == cfg.nodeId }

  // The controller's moves.

  predicate Publishes(r: Row, r': Row) {
    r'.desired == r.desired + 1 == r'.body.revision && r'.received == r.received && r'.applied == r.applied
  }

  predicate Releases(r: Row, r': Row) {
    r'.desired == r.desired + 1 == r'.body.revision && r'.received == 0 && r'.applied == 0
  }

  predicate Records(r: Row, r': Row, revision: int, applied: bool) {
    if applied then r.applied <= revision <= r.received && r' == r.(applied := revision)
    else r.received <= revision <= r.desired && r' == r.(received := revision)
  }

  datatype Step =
    | Publish(row: Row)
    | Release(row: Row)
    | AckArrives(ack: AckMessage)
    | Enroll(epoch: nat)
    | Receive(revision: int, now: int, f1: Fate, f2: Fate)
    | SendReceived
    | Start(now: int, f: Fate)
    | Apply(now: int, f1: Fate, f2: Fate)
    | Notify
    | ChildAnswers(revision: int)
    | SendApplied
    | Crash
    | DropSnapshot(f: Fate)
    | ClearRegistration
    | RemoveFiles(f1: Fate, f2: Fate)

  /** One step of the whole system. Messages stay available once sent, so they may be
      delivered late, twice, or never. */
  ghost predicate Moves(cfg: Config, s: System, step: Step, s': System) {
    match step
    case Publish(row) =>
      && Publishes(s.row, row) && BoundTo(cfg, row.body)
      && s' == s.(row := row, bodies := s.bodies[row.desired := row.body])
    case Release(row) =>
      && Releases(s.row, row) && BoundTo(cfg, row.body)
      && s' == s.(row := row, bodies := s.bodies[row.desired := row.body], epoch := s.epoch + 1)
    case AckArrives(a) =>
      && a in s.acks
      && (s' == s || (a.epoch == s.epoch && Records(s.row, s'.row, a.revision, a.applied) && s' == s.(row := s'.row)))
    case Enroll(epoch) =>
      && s.held.None? && s.last < epoch <= s.epoch
      && s' == s.(held := Some(epoch), last := epoch, work := Idle)
    case Receive(revision, now, f1, f2) =>
      && s.held.Some? && s.work.Idle? && revision in s.bodies
      && var saved := Save(cfg.codec, s.disk, s.bodies[revision], now, f1, f2);
         s' == s.(disk := saved.disk, work := if saved.ok then Stored(s.bodies[revision]) else Idle)
    case SendReceived =>
      && s.held.Some? && s.work.Stored?
      && s' == s.(acks := s.acks + {AckMessage(s.held.value, s.work.p.revision, false)})
    case Start(now, f) =>
      && s.held.Some? && s.work.Idle?
      && var loaded := Load(cfg.codec, s.disk, cfg.clusterId, cfg.nodeId, now, f);
         s' == s.(disk := loaded.disk, work := if loaded.policy.Some? then Reloaded(loaded.policy.value) else Idle)
    case Apply(now, f1, f2) =>
      && s.held.Some? && (s.work.Stored? || s.work.Reloaded?)
      && var saved := Save(cfg.codec, s.disk, s.work.p, now, f1, f2);
         s' == s.(disk := saved.disk, work := if saved.ok then Ready(s.work.p, s.work.Stored?) else Idle)
    case Notify =>
      && s.held.Some? && s.work.Ready?
      && s' == s.(handed := s.handed + [s.work.p.revision], work := Notified(s.work.p, s.work.streamed))
    case ChildAnswers(revision) =>
      && s.held.Some? && s.work.Notified?
      && s' == if revision != s.work.p.revision then s.(work := Idle)
               else s.(confirmed := s.confirmed + {revision}, work := if s.work.streamed then Confirmed(s.work.p) else Idle)
    case SendApplied =>
      && s.held.Some? && s.work.Confirmed?
      && s' == s.(acks := s.acks + {AckMessage(s.held.value, s.work.p.revision, true)}, work := Idle)
    case Crash => s' == s.(work := Idle)
    case DropSnapshot(f) => s' == s.(disk := Discard(s.disk, f))
    case ClearRegistration =>
      s.held.Some? && s' == s.(held := None, work := Idle, handed := [], confirmed := {})
    case RemoveFiles(f1, f2) =>
      s.held.None? && s' == s.(disk := Remove(s.disk, f1, f2))
  }

  /** Before the first registration: one published policy, nothing stored. */
  ghost predicate Initial(cfg: Config, s: System) {
    && s.row.desired == 1 && s.row.received == 0 && s.row.applied == 0 && s.row.body.revision == 1 && BoundTo(cfg, s.row.body)
    && s.epoch == 1 && s.bodies == map[1 := s.row.body]
    && s.held.None? && s.last == 0 && s.disk == Disk(Absent, Absent) && s.work.Idle? && s.handed == [] && s.confirmed == {} && s.acks == {}
  }

  // The invariant.

  function Mark(disk: Disk): int { if disk.watermark.Good? then disk.watermark.value.revision else 0 }

  ghost predicate BodiesOk(cfg: Config, row: Row, bodies: map<int, Policy>) {
    && 0 <= row.applied <= row.received <= row.desired && row.desired in bodies && bodies[row.desired] == row.body
    && forall r :: r in bodies ==> 0 < r <= row.desired && bodies[r].revision == r && BoundTo(cfg, bodies[r])
  }

  /** `p` is what the controller published at its revision. */
  predicate IsPublished(bodies: map<int, Policy>, p: Policy) { p.revision in bodies && bodies[p.revision] == p }

  ghost predicate DiskOk(cfg: Config, disk: Disk, bodies: map<int, Policy>) {
    && Guarded(cfg.codec, disk) && !disk.watermark.Bad?
    && (disk.watermark.Good? ==> disk.watermark.value.revision in bodies && StandsFor(cfg.codec, disk.watermark.value, bodies[disk.watermark.value.revision]))
    && !disk.snapshot.Bad? && (disk.snapshot.Good? ==> IsPublished(bodies, disk.snapshot.value))
  }

  ghost predicate WorkOk(s: System) {
    && (s.held.None? ==> s.work.Idle?)
    && (!s.work.Idle? ==> IsPublished(s.bodies, s.work.p) && s.work.p.revision == Mark(s.disk))
    && (s.work.Confirmed? ==> s.work.p.revision in s.confirmed)
  }

  /** Acknowledgements of the registration the node holds are about revisions it has stored and applied. */
  ghost predicate AcksOk(s: System) {
    && (forall a :: a in s.acks ==> a.epoch <= s.last)
    && (forall a :: a in s.acks && s.held == Some(a.epoch) ==> 0 < a.revision <= Mark(s.disk) && (a.applied ==> a.revision in s.confirmed))
  }

  ghost predicate HandedOk(s: System) {
    && (s.held.None? ==> s.handed == [])
    && (forall i :: 0 <= i < |s.handed| ==> s.handed[i] <= Mark(s.disk))
    && (forall i, j :: 0 <= i < j < |s.handed| ==> s.handed[i] <= s.handed[j])
    && (forall r :: r in s.confirmed ==> r in s.handed) && (s.work.Notified? ==> s.work.p.revision in s.handed)
  }

  ghost predicate EpochsOk(s: System) {
    && s.last <= s.epoch && (s.held.Some? ==> s.held.value == s.last)
    && (s.last < s.epoch ==> s.row.received == 0 && s.row.applied == 0)
    && (s.held == Some(s.epoch) ==> s.row.received <= Mark(s.disk) && (s.row.applied > 0 ==> s.row.applied in s.confirmed))
  }

  ghost predicate Sound(cfg: Config, s: System) {
    BodiesOk(cfg, s.row, s.bodies) && DiskOk(cfg, s.disk, s.bodies) && WorkOk(s) && AcksOk(s) && HandedOk(s) && EpochsOk(s)
  }

  // Disk steps.

  /** A save of a published policy never lowers the mark, and leaves it at that policy if it succeeds. */
  lemma SaveKeeps(cfg: Config, disk: Disk, bodies: map<int, Policy>, p: Policy, now: int, f1: Fate, f2: Fate)
    requires Faithful(cfg.codec) && DiskOk(cfg, disk, bodies) && IsPublished(bodies, p) && forall r :: r in bodies ==> r > 0
    ensures var saved := Save(cfg.codec, disk, p, now, f1, f2);
            DiskOk(cfg, saved.disk, bodies) && Mark(saved.disk) >= Mark(disk) && (saved.ok ==> Mark(saved.disk) == p.revision)
  {
    hide Faithful, SaveAdmitted;
    MarkStep(cfg.codec, disk, Saving(p, now, f1, f2));
    SavedMark(cfg.codec, disk, p, now, f1, f2);
  }

  lemma SavedMark(codec: Codec, disk: Disk, p: Policy, now: int, f1: Fate, f2: Fate)
    ensures var saved := Save(codec, disk, p, now, f1, f2);
            && (saved.ok ==> Marks(codec, disk, Saving(p, now, f1, f2)))
            && (saved.disk.snapshot == disk.snapshot || saved.disk.snapshot == Good(p))
  {
    hide ValidPolicy;
  }

  lemma LoadKeeps(cfg: Config, disk: Disk, bodies: map<int, Policy>, now: int, f: Fate)
    requires Faithful(cfg.codec) && DiskOk(cfg, disk, bodies)
    ensures var loaded := Load(cfg.codec, disk, cfg.clusterId, cfg.nodeId, now, f);
            && DiskOk(cfg, loaded.disk, bodies) && Mark(loaded.disk) == Mark(disk)
            && (loaded.policy.Some? ==> IsPublished(bodies, loaded.policy.value) && loaded.policy.value.revision == Mark(disk))
  {
    hide Faithful, ValidPolicy;
    MarkStep(cfg.codec, disk, Loading(cfg.clusterId, cfg.nodeId, now, f));
  }

  // Every step keeps the invariant.

  lemma ControllerKeeps(cfg: Config, s: System, step: Step, s': System)
    requires Sound(cfg, s) && Moves(cfg, s, step, s') && (step.Publish? || step.Release? || step.AckArrives?)
    ensures Sound(cfg, s')
  {
    hide Guarded, StandsFor, Save, Load;
  }

  lemma MachineKeeps(cfg: Config, s: System, step: Step, s': System)
    requires Faithful(cfg.codec) && Sound(cfg, s) && Moves(cfg, s, step, s')
    requires step.Receive? || step.Start? || step.Apply?
    ensures Sound(cfg, s')
  {
    hide Faithful, Save, Load;
    match step
    case Receive(revision, now, f1, f2) => SaveKeeps(cfg, s.disk, s.bodies, s.bodies[revision], now, f1, f2);
    case Apply(now, f1, f2) => SaveKeeps(cfg, s.disk, s.bodies, s.work.p, now, f1, f2);
    case Start(now, f) => LoadKeeps(cfg, s.disk, s.bodies, now, f);
  }

  lemma MemoryKeeps(cfg: Config, s: System, step: Step, s': System)
    requires Sound(cfg, s) && Moves(cfg, s, step, s')
    requires || step.Enroll? || step.SendReceived? || step.Notify? || step.ChildAnswers? || step.SendApplied?
             || step.Crash? || step.DropSnapshot? || step.ClearRegistration? || step.RemoveFiles?
    ensures Sound(cfg, s')
  {
    hide StandsFor, Save, Load;
  }

  lemma MoveKeepsSound(cfg: Config, s: System, step: Step, s': System)
    requires Faithful(cfg.codec) && Sound(cfg, s) && Moves(cfg, s, step, s')
    ensures Sound(cfg, s')
  {
    hide Faithful, Sound, Moves;
    match step
    case Publish(_) => ControllerKeeps(cfg, s, step, s');
    case Release(_) => ControllerKeeps(cfg, s, step, s');
    case AckArrives(_) => ControllerKeeps(cfg, s, step, s');
    case Receive(_, _, _, _) => MachineKeeps(cfg, s, step, s');
    case Start(_, _) => MachineKeeps(cfg, s, step, s');
    case Apply(_, _, _) => MachineKeeps(cfg, s, step, s');
    case _ => MemoryKeeps(cfg, s, step, s');
  }

  // Whole runs.

  ghost predicate MovesAt(cfg: Config, systems: seq<System>, steps: seq<Step>, i: nat)
    requires i < |steps| && i + 1 < |systems|
  {
    Moves(cfg, systems[i], steps[i], systems[i + 1])
  }

  ghost predicate IsSystemRun(cfg: Config, systems: seq<System>, steps: seq<Step>) {
    && |systems| == |steps| + 1 && Faithful(cfg.codec) && Initial(cfg, systems[0])
    && forall i :: 0 <= i < |steps| ==> MovesAt(cfg, systems, steps, i)
  }

  lemma {:induction false} SoundAlways(cfg: Config, systems: seq<System>, steps: seq<Step>, i: nat)
    requires IsSystemRun(cfg, systems, steps) && i < |systems|
    ensures Sound(cfg, systems[i])
    decreases i
  {
    hide Moves, Faithful;
    if i > 0 {
      SoundAlways(cfg, systems, steps, i - 1);
      assert MovesAt(cfg, systems, steps, i - 1);
      MoveKeepsSound(cfg, systems[i - 1], steps[i - 1], systems[i]);
    }
  }

  /** While the node holds the current registration, its records, the controller's and the published
      revisions are in order across the two machines. */
  lemma OrderAcrossMachines(cfg: Config, systems: seq<System>, steps: seq<Step>, i: nat)
    requires IsSystemRun(cfg, systems, steps) && i < |systems| && systems[i].held == Some(systems[i].epoch)
    ensures var s := systems[i]; 0 <= s.row.applied <= s.row.received <= Mark(s.disk) <= s.row.desired
  {
    hide IsSystemRun;
    SoundAlways(cfg, systems, steps, i);
  }

  /** What the node can load is exactly what the controller published at that revision. */
  lemma LoadedWasPublished(cfg: Config, systems: seq<System>, steps: seq<Step>, i: nat, now: int, f: Fate)
    requires IsSystemRun(cfg, systems, steps) && i < |systems|
    requires Load(cfg.codec, systems[i].disk, cfg.clusterId, cfg.nodeId, now, f).policy.Some?
    ensures IsPublished(systems[i].bodies, Load(cfg.codec, systems[i].disk, cfg.clusterId, cfg.nodeId, now, f).policy.value)
  {
    hide Moves, Faithful;
    SoundAlways(cfg, systems, steps, i);
    LoadKeeps(cfg, systems[i].disk, systems[i].bodies, now, f);
  }

  /** A received record means the node has stored that revision or a later one, and an applied record
      means the relay child answered with exactly that revision under this registration. */
  lemma RecordsAreTrue(cfg: Config, systems: seq<System>, steps: seq<Step>, i: nat)
    requires IsSystemRun(cfg, systems, steps) && i < |systems| && systems[i].held == Some(systems[i].epoch)
    ensures systems[i].row.received > 0 ==> systems[i].disk.watermark.Good? && systems[i].disk.watermark.value.revision >= systems[i].row.received
    ensures systems[i].row.applied > 0 ==> systems[i].row.applied in systems[i].confirmed
  {
    hide IsSystemRun;
    SoundAlways(cfg, systems, steps, i);
  }

  /** The revisions the relay child is told never decrease until the node leaves. */
  lemma NoResurrection(cfg: Config, systems: seq<System>, steps: seq<Step>, i: nat)
    requires IsSystemRun(cfg, systems, steps) && i < |systems|
    ensures forall a, b :: 0 <= a < b < |systems[i].handed| ==> systems[i].handed[a] <= systems[i].handed[b]
  {
    hide IsSystemRun;
    SoundAlways(cfg, systems, steps, i);
  }

  /** When the controller has recorded the desired revision as applied, that revision is the last thing the
      relay child was told: an empty policy applied before a removal is what the child still runs on. */
  lemma AppliedIsLastTold(cfg: Config, systems: seq<System>, steps: seq<Step>, i: nat)
    requires IsSystemRun(cfg, systems, steps) && i < |systems| && systems[i].held == Some(systems[i].epoch)
    requires systems[i].row.applied == systems[i].row.desired
    ensures systems[i].handed != [] && systems[i].handed[|systems[i].handed| - 1] == systems[i].row.desired
  {
    hide IsSystemRun;
    SoundAlways(cfg, systems, steps, i);
    var s := systems[i];
    assert s.row.applied in s.handed;
    var k :| 0 <= k < |s.handed| && s.handed[k] == s.row.desired;
    assert s.handed[k] <= s.handed[|s.handed| - 1];
  }
}
