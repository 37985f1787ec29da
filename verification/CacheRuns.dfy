/** The policy cache over whole histories of saves, loads, discards and removals, each of
    which may crash or fail at any file replacement. */
module CacheRuns {
  import opened Ids
  import opened Protocol
  import opened Cache

  datatype CacheEvent =
    | Saving(p: Policy, now: int, f1: Fate, f2: Fate)
    | Loading(clusterId: Id, nodeId: Id, now: int, f: Fate)
    | Removing(f1: Fate, f2: Fate)
    | Discarding(f: Fate)

  ghost function Next(codec: Codec, disk: Disk, e: CacheEvent): Disk {
    match e
    case Saving(p, now, f1, f2) => Save(codec, disk, p, now, f1, f2).disk
    case Loading(c, n, now, f) => Load(codec, disk, c, n, now, f).disk
    case Removing(f1, f2) => Remove(disk, f1, f2)
    case Discarding(f) => Discard(disk, f)
  }

  ghost predicate NextAt(codec: Codec, disks: seq<Disk>, events: seq<CacheEvent>, i: nat)
    requires i < |events| && i + 1 < |disks|
  {
    disks[i + 1] == Next(codec, disks[i], events[i])
  }

  ghost predicate IsHistory(codec: Codec, disks: seq<Disk>, events: seq<CacheEvent>) {
    && |disks| == |events| + 1 && disks[0] == Disk(Absent, Absent) && Faithful(codec)
    && forall i :: 0 <= i < |events| ==> NextAt(codec, disks, events, i)
  }

  /** The watermark is never unreadable: replacement is atomic and every written one is valid. */
  predicate Guarded(codec: Codec, disk: Disk) { disk.watermark.Good? ==> ValidWatermark(codec, disk.watermark.value) }

  /** Event `k` put the watermark of policy `p` in place. */
  ghost predicate Marks(codec: Codec, disk: Disk, e: CacheEvent) {
    e.Saving? && SaveAdmitted(codec, disk, e.p, e.now) && !e.f1.Lost?
  }

  /** Event `e` takes the watermark away. */
  predicate Unmarks(e: CacheEvent) { e.Removing? && !e.f2.Lost? }

  predicate StandsFor(codec: Codec, m: Watermark, p: Policy) {
    m.clusterId == p.clusterId && m.nodeId == p.nodeId && m.revision == p.revision && m.digest == codec.digest(p)
  }

  /** How the watermark changes: a save marks its policy, a load only moves the clock, a removal clears it. */
  lemma MarkStep(codec: Codec, disk: Disk, e: CacheEvent)
    requires Faithful(codec) && Guarded(codec, disk) && !disk.watermark.Bad?
    ensures var disk' := Next(codec, disk, e);
            && Guarded(codec, disk') && !disk'.watermark.Bad?
            && if Unmarks(e) then disk'.watermark.Absent?
               else if Marks(codec, disk, e) then
                 && disk'.watermark.Good? && StandsFor(codec, disk'.watermark.value, e.p) && disk'.watermark.value.observedAt >= e.now
                 && (disk.watermark.Good? ==> Supersedes(codec, disk.watermark.value, e.p) && disk'.watermark.value.observedAt >= disk.watermark.value.observedAt)
               else
                 && disk'.watermark.Good? == disk.watermark.Good?
                 && (disk.watermark.Good? ==>
                      disk'.watermark.value == disk.watermark.value.(observedAt := disk'.watermark.value.observedAt)
                      && disk'.watermark.value.observedAt >= disk.watermark.value.observedAt)
  {
    hide WithinLimits, DistinctGrants, DistinctKeys, RulesMatchGrants, ValidQoS;
  }

  lemma {:induction false} GuardedAlways(codec: Codec, disks: seq<Disk>, events: seq<CacheEvent>, i: nat)
    requires IsHistory(codec, disks, events) && i < |disks|
    ensures Guarded(codec, disks[i]) && !disks[i].watermark.Bad?
    decreases i
  {
    hide Next, Faithful;
    if i > 0 {
      GuardedAlways(codec, disks, events, i - 1);
      assert NextAt(codec, disks, events, i - 1);
      MarkStep(codec, disks[i - 1], events[i - 1]);
    }
  }

  ghost predicate MarksAt(codec: Codec, disks: seq<Disk>, events: seq<CacheEvent>, k: nat)
    requires k < |events| && k < |disks|
  {
    Marks(codec, disks[k], events[k])
  }

  /** Nothing took the watermark away between states `i` and `j`. */
  predicate KeptMark(events: seq<CacheEvent>, i: nat, j: nat)
    requires i <= j <= |events|
  {
    forall k :: i <= k < j ==> !Unmarks(events[k])
  }

  /** Behind every watermark is the save that wrote it, and no later save wrote another. */
  lemma {:induction false} MarkOrigin(codec: Codec, disks: seq<Disk>, events: seq<CacheEvent>, i: nat) returns (k: nat)
    requires IsHistory(codec, disks, events) && i < |disks| && disks[i].watermark.Good?
    ensures k < i && MarksAt(codec, disks, events, k) && StandsFor(codec, disks[i].watermark.value, events[k].p)
    ensures KeptMark(events, k, i) && forall l :: k < l < i ==> !MarksAt(codec, disks, events, l)
    decreases i
  {
    hide Next, Faithful, SaveAdmitted;
    assert i > 0;
    GuardedAlways(codec, disks, events, i - 1);
    assert NextAt(codec, disks, events, i - 1);
    MarkStep(codec, disks[i - 1], events[i - 1]);
    if MarksAt(codec, disks, events, i - 1) {
      k := i - 1;
    } else {
      k := MarkOrigin(codec, disks, events, i - 1);
    }
  }

  /** A load succeeds only with the policy that the last effective save stored: never an older one,
      never a torn mix, whatever crashed in between. */
  lemma LoadReturnsLastSaved(codec: Codec, disks: seq<Disk>, events: seq<CacheEvent>, i: nat, c: Id, n: Id, now: int, f: Fate) returns (k: nat)
    requires IsHistory(codec, disks, events) && i < |disks| && Load(codec, disks[i], c, n, now, f).policy.Some?
    ensures k < i && MarksAt(codec, disks, events, k) && Load(codec, disks[i], c, n, now, f).policy == Some(events[k].p)
    ensures events[k].p.clusterId == c && events[k].p.nodeId == n
    ensures KeptMark(events, k, i) && forall l :: k < l < i ==> !MarksAt(codec, disks, events, l)
  {
    hide Next, SaveAdmitted, ValidPolicy;
    k := MarkOrigin(codec, disks, events, i);
  }

  /** Until the watermark is removed, its revision never falls and one revision stands for one policy. */
  lemma {:induction false} MarkNeverFalls(codec: Codec, disks: seq<Disk>, events: seq<CacheEvent>, i: nat, j: nat)
    requires IsHistory(codec, disks, events) && i <= j < |disks| && KeptMark(events, i, j) && disks[i].watermark.Good?
    ensures disks[j].watermark.Good?
    ensures var a, b := disks[i].watermark.value, disks[j].watermark.value;
            && a.clusterId == b.clusterId && a.nodeId == b.nodeId && a.observedAt <= b.observedAt
            && a.revision <= b.revision && (a.revision == b.revision ==> a.digest == b.digest)
    decreases j - i
  {
    hide Next, Faithful, SaveAdmitted;
    if i < j {
      MarkNeverFalls(codec, disks, events, i, j - 1);
      GuardedAlways(codec, disks, events, j - 1);
      assert NextAt(codec, disks, events, j - 1);
      MarkStep(codec, disks[j - 1], events[j - 1]);
    }
  }

  /** Rollback protection: saves that take effect never go back, through any number of crashes and
      discarded snapshots, and two at one revision are the same policy. */
  lemma SavesNeverGoBack(codec: Codec, disks: seq<Disk>, events: seq<CacheEvent>, i: nat, j: nat)
    requires IsHistory(codec, disks, events) && i < j < |events| && KeptMark(events, i, j)
    requires MarksAt(codec, disks, events, i) && MarksAt(codec, disks, events, j)
    ensures events[i].p.revision <= events[j].p.revision
    ensures events[i].p.revision == events[j].p.revision ==> events[i].p == events[j].p
    ensures events[i].p.nodeId == events[j].p.nodeId && events[i].p.clusterId == events[j].p.clusterId
  {
    hide Next, SaveAdmitted;
    GuardedAlways(codec, disks, events, i);
    assert NextAt(codec, disks, events, i);
    MarkStep(codec, disks[i], events[i]);
    MarkNeverFalls(codec, disks, events, i + 1, j);
    GuardedAlways(codec, disks, events, j);
    MarkStep(codec, disks[j], events[j]);
  }

  // The clock.

  /** The operation was accepted: a save took effect or a load returned a policy. */
  ghost predicate AcceptedAt(codec: Codec, disks: seq<Disk>, events: seq<CacheEvent>, k: nat)
    requires k < |events| && k < |disks|
  {
    var e := events[k];
    || MarksAt(codec, disks, events, k)
    || (e.Loading? && Load(codec, disks[k], e.clusterId, e.nodeId, e.now, e.f).policy.Some?)
  }

  function ClockOf(e: CacheEvent): int
    requires e.Saving? || e.Loading?
  {
    e.now
  }

  lemma AcceptedClock(codec: Codec, disks: seq<Disk>, events: seq<CacheEvent>, k: nat)
    requires IsHistory(codec, disks, events) && k < |events| && AcceptedAt(codec, disks, events, k)
    ensures disks[k].watermark.Good? ==> ClockOf(events[k]) >= disks[k].watermark.value.observedAt - TOLERANCE
    ensures disks[k + 1].watermark.Good? && disks[k + 1].watermark.value.observedAt >= ClockOf(events[k])
  {
    hide ValidPolicy, Faithful;
    GuardedAlways(codec, disks, events, k);
    assert NextAt(codec, disks, events, k);
    MarkStep(codec, disks[k], events[k]);
  }

  /** Every accepted clock is at most five seconds behind every earlier accepted clock, so the tolerance
      does not add up over many operations. */
  lemma ClockNeverDrifts(codec: Codec, disks: seq<Disk>, events: seq<CacheEvent>, i: nat, j: nat)
    requires IsHistory(codec, disks, events) && i < j < |events| && KeptMark(events, i, j)
    requires AcceptedAt(codec, disks, events, i) && AcceptedAt(codec, disks, events, j)
    ensures ClockOf(events[j]) >= ClockOf(events[i]) - 5_000_000_000
  {
    hide Next, Faithful, AcceptedAt;
    AcceptedClock(codec, disks, events, i);
    MarkNeverFalls(codec, disks, events, i + 1, j);
    AcceptedClock(codec, disks, events, j);
  }

  // Exactly what is stored, saved and loaded.

  /** Event `k` wrote the watermark that is in place at `i`. */
  ghost predicate LastMark(codec: Codec, disks: seq<Disk>, events: seq<CacheEvent>, k: nat, i: nat)
    requires i <= |events| < |disks|
  {
    k < i && MarksAt(codec, disks, events, k) && KeptMark(events, k, i) && forall l :: k < l < i ==> !MarksAt(codec, disks, events, l)
  }

  /** The event put its policy in the snapshot file: the guard was written and seen, and then the file replaced. */
  ghost predicate Writes(codec: Codec, disk: Disk, e: CacheEvent) { Marks(codec, disk, e) && e.f1.Done? && !e.f2.Lost? }

  ghost predicate WritesAt(codec: Codec, disks: seq<Disk>, events: seq<CacheEvent>, k: nat)
    requires k < |events| && k < |disks|
  {
    Writes(codec, disks[k], events[k])
  }

  predicate Erases(e: CacheEvent) { (e.Removing? && !e.f1.Lost?) || (e.Discarding? && !e.f.Lost?) }

  /** Event `k` wrote the snapshot that is in place at `i`. */
  ghost predicate LastWrite(codec: Codec, disks: seq<Disk>, events: seq<CacheEvent>, k: nat, i: nat)
    requires i <= |events| < |disks|
  {
    k < i && WritesAt(codec, disks, events, k) && forall l :: k < l < i ==> !WritesAt(codec, disks, events, l) && !Erases(events[l])
  }

  lemma MarkLasts(codec: Codec, disks: seq<Disk>, events: seq<CacheEvent>, k: nat, i: nat)
    requires IsHistory(codec, disks, events) && i < |disks| && LastMark(codec, disks, events, k, i)
    ensures disks[i].watermark.Good? && StandsFor(codec, disks[i].watermark.value, events[k].p)
  {
    hide Next, Faithful, SaveAdmitted;
    GuardedAlways(codec, disks, events, k);
    assert NextAt(codec, disks, events, k);
    MarkStep(codec, disks[k], events[k]);
    MarkNeverFalls(codec, disks, events, k + 1, i);
    var j := MarkOrigin(codec, disks, events, i);
    assert j == k;
  }

  lemma SnapshotStep(codec: Codec, disk: Disk, e: CacheEvent)
    ensures Next(codec, disk, e).snapshot == if Erases(e) then Absent else if Writes(codec, disk, e) then Good(e.p) else disk.snapshot
  {
    hide ValidPolicy;
  }

  lemma {:induction false} WriteOrigin(codec: Codec, disks: seq<Disk>, events: seq<CacheEvent>, i: nat) returns (k: nat)
    requires IsHistory(codec, disks, events) && i < |disks|
    ensures disks[i].snapshot.Absent? || (LastWrite(codec, disks, events, k, i) && disks[i].snapshot == Good(events[k].p))
    decreases i
  {
    hide Next, Faithful, Writes;
    k := 0;
    if i > 0 {
      k := WriteOrigin(codec, disks, events, i - 1);
      assert NextAt(codec, disks, events, i - 1);
      SnapshotStep(codec, disks[i - 1], events[i - 1]);
      if WritesAt(codec, disks, events, i - 1) { k := i - 1; }
    }
  }

  lemma {:induction false} WriteLasts(codec: Codec, disks: seq<Disk>, events: seq<CacheEvent>, k: nat, i: nat)
    requires IsHistory(codec, disks, events) && i < |disks| && LastWrite(codec, disks, events, k, i)
    ensures disks[i].snapshot == Good(events[k].p)
    decreases i - k
  {
    hide Next, Faithful, Writes;
    assert NextAt(codec, disks, events, i - 1);
    SnapshotStep(codec, disks[i - 1], events[i - 1]);
    if i > k + 1 { WriteLasts(codec, disks, events, k, i - 1); } else { WriteDoesNotErase(codec, disks[k], events[k]); }
  }

  lemma WriteDoesNotErase(codec: Codec, disk: Disk, e: CacheEvent)
    requires Writes(codec, disk, e)
    ensures !Erases(e)
  {}

  /** The clock on the watermark is the clock of some save or load since the watermark was last taken away. */
  lemma {:induction false} SeenClock(codec: Codec, disks: seq<Disk>, events: seq<CacheEvent>, i: nat) returns (k: nat)
    requires IsHistory(codec, disks, events) && i < |disks| && disks[i].watermark.Good?
    ensures k < i && KeptMark(events, k, i) && (events[k].Saving? || events[k].Loading?) && ClockOf(events[k]) == disks[i].watermark.value.observedAt
    decreases i
  {
    hide Next, Faithful;
    assert i > 0;
    assert NextAt(codec, disks, events, i - 1);
    ClockStep(codec, disks[i - 1], events[i - 1]);
    if disks[i - 1].watermark.Good? && disks[i - 1].watermark.value.observedAt == disks[i].watermark.value.observedAt {
      k := SeenClock(codec, disks, events, i - 1);
    } else {
      k := i - 1;
    }
  }

  lemma ClockStep(codec: Codec, disk: Disk, e: CacheEvent)
    requires Next(codec, disk, e).watermark.Good?
    ensures !Unmarks(e)
    ensures || (disk.watermark.Good? && Next(codec, disk, e).watermark.value.observedAt == disk.watermark.value.observedAt)
            || ((e.Saving? || e.Loading?) && Next(codec, disk, e).watermark.value.observedAt == ClockOf(e))
  {
    hide ValidPolicy;
  }

  /** `p` is the policy whose watermark is in place at `i`. */
  ghost predicate MarkedLast(codec: Codec, disks: seq<Disk>, events: seq<CacheEvent>, p: Policy, i: nat)
    requires i <= |events| < |disks|
  {
    exists k: nat :: LastMark(codec, disks, events, k, i) && events[k].p == p
  }

  /** `p` is the policy whose snapshot is in place at `i`. */
  ghost predicate WrittenLast(codec: Codec, disks: seq<Disk>, events: seq<CacheEvent>, p: Policy, i: nat)
    requires i <= |events| < |disks|
  {
    exists k: nat :: LastWrite(codec, disks, events, k, i) && events[k].p == p
  }

  lemma MarkOf(codec: Codec, disks: seq<Disk>, events: seq<CacheEvent>, i: nat) returns (p: Policy)
    requires IsHistory(codec, disks, events) && i < |disks| && disks[i].watermark.Good?
    ensures MarkedLast(codec, disks, events, p, i) && StandsFor(codec, disks[i].watermark.value, p)
    ensures ValidPolicy(p, p.clusterId, p.nodeId) && codec.fits(p)
  {
    hide Next, Faithful, ValidPolicy;
    var k := MarkOrigin(codec, disks, events, i);
    assert LastMark(codec, disks, events, k, i);
    p := events[k].p;
  }

  lemma MarkedStands(codec: Codec, disks: seq<Disk>, events: seq<CacheEvent>, p: Policy, i: nat)
    requires IsHistory(codec, disks, events) && i < |disks| && MarkedLast(codec, disks, events, p, i)
    ensures disks[i].watermark.Good? && StandsFor(codec, disks[i].watermark.value, p)
  {
    hide Next, Faithful, SaveAdmitted;
    var k: nat :| LastMark(codec, disks, events, k, i) && events[k].p == p;
    MarkLasts(codec, disks, events, k, i);
  }

  lemma WrittenStands(codec: Codec, disks: seq<Disk>, events: seq<CacheEvent>, p: Policy, i: nat)
    requires IsHistory(codec, disks, events) && i < |disks|
    ensures WrittenLast(codec, disks, events, p, i) <==> disks[i].snapshot == Good(p)
    ensures !disks[i].snapshot.Bad?
  {
    hide Next, Faithful, SaveAdmitted;
    var s := WriteOrigin(codec, disks, events, i);
    if WrittenLast(codec, disks, events, p, i) {
      var k: nat :| LastWrite(codec, disks, events, k, i) && events[k].p == p;
      WriteLasts(codec, disks, events, k, i);
    }
  }

  /** In every state of every history, a policy may be saved exactly if it is valid and encodable and either the cache
      is empty, or it is for the same node, newer than the policy marked last or that policy itself, and the clock is at
      most five seconds behind the latest one seen. */
  lemma SaveExactly(codec: Codec, disks: seq<Disk>, events: seq<CacheEvent>, i: nat, p: Policy, now: int)
    requires IsHistory(codec, disks, events) && i < |disks|
    ensures SaveAdmitted(codec, disks[i], p, now) <==>
              && now != ZERO_CLOCK && ValidPolicy(p, p.clusterId, p.nodeId) && codec.fits(p)
              && (|| (disks[i] == Disk(Absent, Absent) && p.revision > 0)
                  || (disks[i].watermark.Good? && disks[i].watermark.value.observedAt - 5_000_000_000 <= now
                      && exists q :: MarkedLast(codec, disks, events, q, i) && q.clusterId == p.clusterId && q.nodeId == p.nodeId
                                     && (q.revision < p.revision || q == p)))
  {
    hide Next, NextAt, MarkedLast, ValidPolicy;
    GuardedAlways(codec, disks, events, i);
    if disks[i].watermark.Good? {
      var q := MarkOf(codec, disks, events, i);
      forall r | MarkedLast(codec, disks, events, r, i) ensures StandsFor(codec, disks[i].watermark.value, r) { MarkedStands(codec, disks, events, r, i); }
    } else {
      FreshDigest(codec, p);
    }
  }

  lemma FreshDigest(codec: Codec, p: Policy)
    ensures ValidPolicy(p, p.clusterId, p.nodeId) ==> p.revision != 0
  {
    hide WithinLimits, DistinctGrants, DistinctKeys, RulesMatchGrants, ValidQoS;
  }

  /** In every state of every history, a load for a cluster and node returns a policy exactly if it is for them, was both
      marked last and written last, the clock is at most five seconds behind the latest one seen, and a later clock
      could be recorded. */
  lemma LoadExactly(codec: Codec, disks: seq<Disk>, events: seq<CacheEvent>, i: nat, c: Id, n: Id, now: int, f: Fate, p: Policy)
    requires IsHistory(codec, disks, events) && i < |disks|
    ensures Load(codec, disks[i], c, n, now, f).policy == Some(p) <==>
              && now != ZERO_CLOCK && p.clusterId == c && p.nodeId == n && disks[i].watermark.Good?
              && disks[i].watermark.value.observedAt - 5_000_000_000 <= now && (disks[i].watermark.value.observedAt < now ==> f.Done?)
              && MarkedLast(codec, disks, events, p, i) && WrittenLast(codec, disks, events, p, i)
  {
    hide Next, NextAt, MarkedLast, WrittenLast, ValidPolicy;
    GuardedAlways(codec, disks, events, i);
    WrittenStands(codec, disks, events, p, i);
    if disks[i].watermark.Good? {
      var q := MarkOf(codec, disks, events, i);
      if MarkedLast(codec, disks, events, p, i) { MarkedStands(codec, disks, events, p, i); }
    }
  }

  // Repair and removal.

  /** A save interrupted after the guard was written is repaired by saving the same policy again, and
      until then nothing loads. */
  lemma ResaveRepairs(codec: Codec, disk: Disk, p: Policy, now: int, f1: Fate, f2: Fate, again: int, later: int)
    requires Faithful(codec) && SaveAdmitted(codec, disk, p, now) && !f1.Lost?
    requires var m := MarkFor(codec, SaveBase(codec, disk, p, now).value, p, now);
             again != ZERO_CLOCK && ClockAccepts(m, again) && later != ZERO_CLOCK && later >= Later(m.observedAt, again) - TOLERANCE
    ensures var torn := Save(codec, disk, p, now, f1, f2).disk;
            var mended := Save(codec, torn, p, again, Done, Done);
            && mended.ok
            && Load(codec, mended.disk, p.clusterId, p.nodeId, later, Done).policy == Some(p)
  {
    hide WithinLimits, DistinctGrants, DistinctKeys, RulesMatchGrants, ValidQoS;
  }

  lemma TornLoadsNothing(codec: Codec, disk: Disk, p: Policy, now: int, f1: Fate, f2: Fate, c: Id, n: Id, at: int, f: Fate)
    requires Faithful(codec) && SaveAdmitted(codec, disk, p, now) && disk.snapshot != Good(p)
    requires f1.DoneUnseen? || (f1.Done? && f2.Lost?)
    ensures Load(codec, Save(codec, disk, p, now, f1, f2).disk, c, n, at, f).policy == None
  {
    hide ValidPolicy;
  }

  /** Without its snapshot the cache loads nothing but still refuses to go back. */
  lemma DiscardKeepsProtection(codec: Codec, disk: Disk, p: Policy, now: int)
    requires Faithful(codec) && Guarded(codec, disk) && disk.watermark.Good?
    ensures var bare := Discard(disk, Done);
            && (forall c, n, at, f :: Load(codec, bare, c, n, at, f).policy.None?)
            && (SaveAdmitted(codec, bare, p, now) <==> SaveAdmitted(codec, disk, p, now))
            && (SaveAdmitted(codec, bare, p, now) ==> p.revision >= disk.watermark.value.revision)
  {
    hide ValidPolicy;
  }

  /** A removal that stops half way leaves a cache that loads nothing; if the snapshot is what is left, it
      also saves nothing, and if the watermark is left, saves stay guarded by it. */
  lemma HalfRemovedFailsClosed(codec: Codec, disk: Disk, p: Policy, now: int)
    requires Guarded(codec, disk) && !disk.snapshot.Absent?
    ensures forall c, n, at, f :: Load(codec, Remove(disk, Done, Lost), c, n, at, f).policy.None?
    ensures forall c, n, at, f :: Load(codec, Remove(disk, Lost, Done), c, n, at, f).policy.None?
    ensures forall f1, f2 :: !Save(codec, Remove(disk, Lost, Done), p, now, f1, f2).ok
    ensures disk.watermark.Good? && SaveAdmitted(codec, Remove(disk, Done, Lost), p, now) ==> Supersedes(codec, disk.watermark.value, p)
  {
    hide ValidPolicy;
  }
}
