/** Timing arithmetic: the instance lease under whole-second truncation, and the heartbeat interval
    (internal/cluster/client.go, internal/control/nodes.go, internal/control/policy.go). */
module Timing {
  import opened Protocol
  import opened Tables
  import opened NodeTx
  import opened Cache

  const LEASE := LEASE_SECONDS * SECOND

  /** Whole Unix seconds of a reading in nanoseconds, for readings since the epoch. */
  function Unix(t: nat): nat { t / SECOND }

  /** The lease the controller stores when it grants one at `t`. */
  function LeaseStored(t: nat): nat { Unix(t + LEASE) }

  lemma DivShift(t: nat, k: nat)
    ensures (t + k * SECOND) / SECOND == t / SECOND + k
  {}

  /** Truncating after adding the lease is the same as adding it to the truncated time. */
  lemma LeaseInSeconds(t: nat)
    ensures LeaseStored(t) == Unix(t) + LEASE_SECONDS
  {
    DivShift(t, LEASE_SECONDS);
  }

  lemma {:induction false} UnixMonotone(a: nat, b: nat)
    requires a <= b
    ensures Unix(a) <= Unix(b)
  {
    assert a / SECOND <= b / SECOND by {
      assert a == SECOND * (a / SECOND) + a % SECOND && b == SECOND * (b / SECOND) + b % SECOND;
    }
  }

  /** A restarted instance that renews at `now` is taken for a clone of the one that was granted a lease at `granted`. */
  predicate FalseConflict(node: Node, instance: string, granted: nat, now: nat) {
    node.leaseUntil == LeaseStored(granted) && Clone(node, instance, Unix(now))
  }

  /** If the last lease was granted no later than the wait began, ninety seconds are enough. */
  lemma WaitPreventsConflict(node: Node, instance: string, granted: nat, began: nat, now: nat)
    requires granted <= began && began + LEASE <= now
    ensures !FalseConflict(node, instance, granted, now)
  {
    UnixMonotone(granted + LEASE, now);
  }

  /** ... and no shorter wait is: for every shorter one some grant and some clock make the conflict. */
  lemma ShorterWaitConflicts(wait: nat, node: Node, instance: string) returns (granted: nat, now: nat)
    requires wait < LEASE && node.instance != instance && node.leaseUntil == LEASE_SECONDS
    ensures granted + wait <= now && FalseConflict(node, instance, granted, now)
  {
    granted, now := 0, wait;
    assert LeaseStored(0) == LEASE_SECONDS by { LeaseInSeconds(0); }
    assert Unix(wait) < LEASE_SECONDS;
  }

  // Heartbeats.

  /** Go's division truncates; both operands are positive here. */
  function IntervalMillis(control: nat): int {
    var third := control * 1000 / 3;
    var capped := if third < 30000 then third else 30000;
    if capped > 250 then capped else 250
  }

  /** For every valid retention the interval is one the client accepts, the longest that is at most half a minute and a
      third of the control retention, so also a third of the lease; and nothing on the way overflows. */
  lemma IntervalFits(r: Retentions)
    requires ValidRetentions(r)
    ensures 250 <= IntervalMillis(r.control) <= 30000
    ensures 3 * IntervalMillis(r.control) <= LEASE_SECONDS * 1000 && 3 * IntervalMillis(r.control) <= r.control * 1000
    ensures forall x :: x <= 30000 && 3 * x <= r.control * 1000 ==> x <= IntervalMillis(r.control)
    ensures r.control * 1000 <= MAX_INT64 && r.control * SECOND <= MAX_INT64 && r.identity * SECOND <= MAX_INT64
  {
    var product := r.control * 1000;
    assert product >= 1000;
    assert product / 3 >= 333 && 3 * (product / 3) <= product;
  }

  /** The limit on retentions is exact: one second more would overflow a duration. */
  lemma RetentionLimitIsTight(s: nat)
    ensures s * SECOND <= MAX_INT64 <==> s <= MAX_RETENTION
  {}
}
