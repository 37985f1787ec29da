/** The controller's open control streams, at most one per node, and the one-slot signal that wakes
    them (internal/control/control_stream.go, internal/control/node_self.go, internal/control/store.go). */
module Streams {
  import opened Ids

  /** One open stream: a full signal slot means a wake-up is waiting; a closed stream never reopens. */
  class Stream {
    var changed: bool
    var done: bool

    constructor ()
      ensures !changed && !done
    {
      changed, done := false, false;
    }

    /** Closing a channel twice would be a fault, so the stream must still be open. */
    method Stop()
      requires !done
      modifies this`done
      ensures done
    {
      done := true;
    }

    /** The handler takes the waiting signal. */
    method Take()
      requires changed
      modifies this`changed
      ensures !changed
    {
      changed := false;
    }

    /** A send that gives up when the slot is full. */
    method Wake()
      modifies this`changed
      ensures changed
    {
      if !changed {
        changed := true;
      }
    }
  }

  class Hub {
    var policyStreams: map<Id, Stream>

    /** Registered streams are open and belong to one node each. */
    ghost predicate Valid()
      reads this, policyStreams.Values
    {
      && (forall n :: n in policyStreams ==> !policyStreams[n].done)
      && (forall m, n :: m in policyStreams && n in policyStreams && m != n ==> policyStreams[m] != policyStreams[n])
    }

    constructor ()
      ensures Valid() && policyStreams == map[]
    {
      policyStreams := map[];
    }

    /** A new stream replaces and stops the one the node had. */
    method Register(n: Id) returns (s: Stream)
      requires Valid()
      modifies this, policyStreams.Values
      ensures Valid() && fresh(s) && policyStreams == old(policyStreams)[n := s] && !s.changed
      ensures n in old(policyStreams) ==> old(policyStreams[n]).done && old(policyStreams[n]).changed == old(policyStreams[n].changed)
      ensures forall m :: m in old(policyStreams) && m != n ==> unchanged(old(policyStreams[m]))
    {
      if n in policyStreams {
        policyStreams[n].Stop();
      }
      s := new Stream();
      policyStreams := policyStreams[n := s];
    }

    /** A handler that ends takes its own stream out, never its successor. */
    method Unregister(n: Id, s: Stream)
      requires Valid()
      modifies this`policyStreams
      ensures Valid()
      ensures policyStreams == if n in old(policyStreams) && old(policyStreams[n]) == s then old(policyStreams) - {n} else old(policyStreams)
    {
      if n in policyStreams && policyStreams[n] == s {
        policyStreams := policyStreams - {n};
      }
    }

    method NotifyPolicy(n: Id)
      requires Valid()
      modifies policyStreams.Values
      ensures Valid() && policyStreams == old(policyStreams)
      ensures forall m :: m in policyStreams ==> policyStreams[m].changed == (m == n || old(policyStreams[m].changed))
    {
      if n in policyStreams {
        policyStreams[n].Wake();
      }
    }

    method NotifyPolicies()
      requires Valid()
      modifies policyStreams.Values
      ensures Valid() && policyStreams == old(policyStreams)
      ensures forall m :: m in policyStreams ==> policyStreams[m].changed
    {
      var left := policyStreams.Keys;
      while left != {}
        invariant Valid() && left <= policyStreams.Keys
        invariant forall m :: m in policyStreams && m !in left ==> policyStreams[m].changed
        decreases |left|
      {
        var n :| n in left;
        policyStreams[n].Wake();
        left := left - {n};
      }
    }

    method CloseNodeStream(n: Id)
      requires Valid()
      modifies this, policyStreams.Values
      ensures Valid() && policyStreams == old(policyStreams) - {n}
      ensures n in old(policyStreams) ==> old(policyStreams[n]).done && old(policyStreams[n]).changed == old(policyStreams[n].changed)
      ensures forall m :: m in policyStreams ==> unchanged(policyStreams[m])
    {
      if n in policyStreams {
        policyStreams[n].Stop();
        policyStreams := policyStreams - {n};
      }
    }

    method Close()
      requires Valid()
      modifies this, policyStreams.Values
      ensures Valid() && policyStreams == map[]
      ensures forall n :: n in old(policyStreams) ==> old(policyStreams[n]).done
    {
      ghost var all := policyStreams;
      while policyStreams != map[]
        invariant Valid()
        invariant policyStreams.Keys <= all.Keys && forall n :: n in policyStreams ==> policyStreams[n] == all[n]
        invariant forall n :: n in all && n !in policyStreams ==> all[n].done
        decreases |policyStreams|
      {
        var n :| n in policyStreams;
        CloseNodeStream(n);
      }
    }
  }
}
