/** The node's policy cache: a snapshot file and a watermark file, replaced one after the
    other, with a crash or an error possible at every replacement (internal/cluster/cache.go). */
module Cache {
  import opened Ids
  import opened Protocol

  /** Clock readings are nanoseconds here. */
  const SECOND := 1_000_000_000
  const TOLERANCE := 5 * SECOND
  const ZERO_CLOCK := ZERO_TIME * SECOND

  datatype Watermark = Watermark(clusterId: Id, nodeId: Id, revision: int, digest: string, observedAt: int)

  /** What reading a file gives: nothing there, bytes that do not decode, or a value. */
  datatype File<T> = Absent | Bad | Good(value: T)

  datatype Disk = Disk(watermark: File<Watermark>, snapshot: File<Policy>)

  /** The digest of a policy's encoding, what a digest looks like, and whether an encoding stays under the size limit. */
  datatype Codec = Codec(digest: Policy -> string, wellFormed: string -> bool, fits: Policy -> bool)

  /** Digests look like digests, and no two policies share one. */
  ghost predicate Faithful(codec: Codec) {
    && (forall p :: codec.wellFormed(codec.digest(p)))
    && (forall p, q :: codec.digest(p) == codec.digest(q) ==> p == q)
  }

  /** How one file replacement ends: in place, not in place, or in place although an error or a crash
      is all the caller sees. A crash and an error look alike: nothing after them happens. */
  datatype Fate = Done | Lost | DoneUnseen

  function Replaced<T>(f: File<T>, v: T, fate: Fate): File<T> { if fate.Lost? then f else Good(v) }

  function Deleted<T>(f: File<T>, fate: Fate): File<T> { if fate.Lost? then f else Absent }

  predicate ValidWatermark(codec: Codec, m: Watermark) {
    m.clusterId != "" && m.nodeId != "" && m.revision != 0 && codec.wellFormed(m.digest) && m.observedAt != ZERO_CLOCK
  }

  function ReadWatermark(codec: Codec, f: File<Watermark>): (r: File<Watermark>)
    ensures r.Good? ==> r == f && ValidWatermark(codec, r.value)
  {
    if f.Good? && !ValidWatermark(codec, f.value) then Bad else f
  }

  function Later(a: int, b: int): int { if a > b then a else b }

  predicate ClockAccepts(m: Watermark, now: int) { now >= m.observedAt - TOLERANCE }

  /** The watermark a save starts from, if it may start. */
  function SaveBase(codec: Codec, disk: Disk, p: Policy, now: int): Option<Watermark> {
    match ReadWatermark(codec, disk.watermark)
    case Absent => if disk.snapshot.Absent? then Some(Watermark(p.clusterId, p.nodeId, 0, "", now)) else None
    case Bad => None
    case Good(m) => Some(m)
  }

  /** The policy may replace what the watermark stands for. */
  predicate Supersedes(codec: Codec, m: Watermark, p: Policy) {
    && m.clusterId == p.clusterId && m.nodeId == p.nodeId
    && (p.revision > m.revision || (p.revision == m.revision && codec.digest(p) == m.digest))
  }

  ghost predicate SaveAdmitted(codec: Codec, disk: Disk, p: Policy, now: int) {
    && now != ZERO_CLOCK && ValidPolicy(p, p.clusterId, p.nodeId) && codec.fits(p)
    && SaveBase(codec, disk, p, now).Some?
    && Supersedes(codec, SaveBase(codec, disk, p, now).value, p) && ClockAccepts(SaveBase(codec, disk, p, now).value, now)
  }

  function MarkFor(codec: Codec, m: Watermark, p: Policy, now: int): Watermark {
    m.(observedAt := Later(m.observedAt, now), revision := p.revision, digest := codec.digest(p))
  }

  datatype Outcome = Outcome(disk: Disk, ok: bool)

  /** A save whose two replacements end as `f1` and `f2`: the guard first, then the snapshot. */
  ghost function Save(codec: Codec, disk: Disk, p: Policy, now: int, f1: Fate, f2: Fate): Outcome {
    if !SaveAdmitted(codec, disk, p, now) then Outcome(disk, false)
    else
      var marked := disk.(watermark := Replaced(disk.watermark, MarkFor(codec, SaveBase(codec, disk, p, now).value, p, now), f1));
      if !f1.Done? then Outcome(marked, false)
      else Outcome(marked.(snapshot := Replaced(disk.snapshot, p, f2)), f2.Done?)
  }

  /** What a load would return, leaving the watermark's clock aside. */
  ghost predicate Loadable(codec: Codec, disk: Disk, clusterId: Id, nodeId: Id, now: int, p: Policy) {
    && now != ZERO_CLOCK && ReadWatermark(codec, disk.watermark).Good? && disk.snapshot == Good(p)
    && var m := disk.watermark.value;
       && m.clusterId == clusterId && m.nodeId == nodeId && ClockAccepts(m, now)
       && codec.digest(p) == m.digest && codec.fits(p) && ValidPolicy(p, clusterId, nodeId) && p.revision == m.revision
  }

  datatype Loaded = Loaded(disk: Disk, policy: Option<Policy>)

  /** A load whose watermark replacement, if it needs one, ends as `f`. */
  ghost function Load(codec: Codec, disk: Disk, clusterId: Id, nodeId: Id, now: int, f: Fate): Loaded {
    if disk.snapshot.Good? && Loadable(codec, disk, clusterId, nodeId, now, disk.snapshot.value) then
      var m := disk.watermark.value;
      if now <= m.observedAt then Loaded(disk, Some(disk.snapshot.value))
      else Loaded(disk.(watermark := Replaced(disk.watermark, m.(observedAt := now), f)), if f.Done? then Some(disk.snapshot.value) else None)
    else Loaded(disk, None)
  }

  /** Remove both files, each deletion with its own end; the second is tried even if the first fails. A crash
      between them leaves the second file, so its fate is then Lost. */
  function Remove(disk: Disk, f1: Fate, f2: Fate): Disk {
    Disk(Deleted(disk.watermark, f2), Deleted(disk.snapshot, f1))
  }

  function Discard(disk: Disk, f: Fate): Disk { disk.(snapshot := Deleted(disk.snapshot, f)) }

  /** The cache as the code works on it: two files under one lock. */
  class PolicyCache {
    const codec: Codec
    var watermark: File<Watermark>
    var snapshot: File<Policy>

    constructor (codec: Codec)
      ensures this.codec == codec && Contents() == Disk(Absent, Absent)
    {
      this.codec := codec;
      watermark, snapshot := Absent, Absent;
    }

    function Contents(): Disk
      reads this
    {
      Disk(watermark, snapshot)
    }

    method SaveAt(p: Policy, now: int, f1: Fate, f2: Fate) returns (ok: bool)
      modifies this
      ensures Outcome(Contents(), ok) == Save(codec, old(Contents()), p, now, f1, f2)
    {
      if now == ZERO_CLOCK {
        return false;
      }
      var valid := ValidatePolicy(p, p.clusterId, p.nodeId);
      if !valid || !codec.fits(p) {
        return false;
      }
      var digest := codec.digest(p);
      var read := ReadWatermark(codec, watermark);
      var m: Watermark;
      match read {
        case Absent =>
          if !snapshot.Absent? {
            return false;
          }
          m := Watermark(p.clusterId, p.nodeId, 0, "", now);
        case Bad =>
          return false;
        case Good(value) =>
          m := value;
      }
      if m.clusterId != p.clusterId || m.nodeId != p.nodeId || p.revision < m.revision || (p.revision == m.revision && digest != m.digest) {
        return false;
      }
      if now < m.observedAt - TOLERANCE {
        return false;
      }
      if now > m.observedAt {
        m := m.(observedAt := now);
      }
      m := m.(revision := p.revision);
      m := m.(digest := digest);
      watermark := Replaced(watermark, m, f1);
      if !f1.Done? {
        return false;
      }
      snapshot := Replaced(snapshot, p, f2);
      return f2.Done?;
    }

    method LoadAt(clusterId: Id, nodeId: Id, now: int, f: Fate) returns (r: Option<Policy>)
      modifies this`watermark
      ensures Loaded(Contents(), r) == Load(codec, old(Contents()), clusterId, nodeId, now, f)
    {
      if now == ZERO_CLOCK {
        return None;
      }
      var read := ReadWatermark(codec, watermark);
      if !read.Good? {
        return None;
      }
      var m := read.value;
      if m.clusterId != clusterId || m.nodeId != nodeId || now < m.observedAt - TOLERANCE {
        return None;
      }
      if !snapshot.Good? {
        return None;
      }
      var p := snapshot.value;
      if codec.digest(p) != m.digest || !codec.fits(p) {
        return None;
      }
      var valid := ValidatePolicy(p, clusterId, nodeId);
      if !valid || p.revision != m.revision {
        return None;
      }
      if now > m.observedAt {
        m := m.(observedAt := now);
        watermark := Replaced(watermark, m, f);
        if !f.Done? {
          return None;
        }
      }
      return Some(p);
    }

    method RemoveAll(f1: Fate, f2: Fate) returns (ok: bool)
      modifies this
      ensures Contents() == Remove(old(Contents()), f1, f2)
      ensures ok <==> f1.Done? && f2.Done?
    {
      ok := true;
      snapshot := Deleted(snapshot, f1);
      if !f1.Done? { ok := false; }
      watermark := Deleted(watermark, f2);
      if !f2.Done? { ok := false; }
    }

    method DiscardSnapshot(f: Fate)
      modifies this`snapshot
      ensures Contents() == Discard(old(Contents()), f)
    {
      snapshot := Deleted(snapshot, f);
    }
  }
}
