/** The registry of open streams carries out the moves of the stream protocol: each call on it, seen from one
    node, is the move that the protocol allows there (internal/control/control_stream.go). */
module StreamSteps {
  import opened Ids
  import S = Streams
  import W = WakeUps

  /** One stream for each handler, in the handler's state. */
  ghost predicate Mirrors(streams: map<nat, S.Stream>, handlers: map<nat, W.Handler>)
    reads streams.Values
  {
    && streams.Keys == handlers.Keys
    && (forall a, b :: a in streams && b in streams && a != b ==> streams[a] != streams[b])
    && (forall id :: id in streams ==> streams[id].changed == handlers[id].full && streams[id].done == handlers[id].done)
  }

  /** The registry and the streams handed to this node's handlers are in the state `h`. */
  ghost predicate Shows(hub: S.Hub, n: Id, streams: map<nat, S.Stream>, h: W.Hub)
    reads hub, hub.policyStreams.Values, streams.Values
  {
    && hub.Valid() && Mirrors(streams, h.handlers)
    && (forall m :: m in hub.policyStreams && m != n ==> hub.policyStreams[m] !in streams.Values)
    && (if n in hub.policyStreams then h.live.Some? && h.live.value in streams && streams[h.live.value] == hub.policyStreams[n] else h.live.None?)
  }

  /** Streams of this node that are not registered are out of the registry's reach. */
  lemma Unreached(hub: S.Hub, n: Id, streams: map<nat, S.Stream>, h: W.Hub, id: nat)
    requires Shows(hub, n, streams, h) && id in streams && h.live != Some(id)
    ensures streams[id] !in hub.policyStreams.Values
  {}

  /** Waking this node is a wake-up move, whether or not a transaction owed it. */
  method Wake(hub: S.Hub, n: Id, ghost owed: bool, ghost streams: map<nat, S.Stream>, ghost h: W.Hub) returns (ghost h': W.Hub)
    requires Shows(hub, n, streams, h) && (owed ==> h.wakes > 0)
    modifies hub.policyStreams.Values
    ensures W.Steps(h, if owed then W.Notify else W.Spurious, h') && Shows(hub, n, streams, h')
  {
    forall id | id in streams && h.live != Some(id) ensures streams[id] !in hub.policyStreams.Values { Unreached(hub, n, streams, h, id); }
    hub.NotifyPolicy(n);
    h' := h.(wakes := if owed then h.wakes - 1 else h.wakes, handlers := W.Woken(h));
  }

  /** So is waking every node. */
  method WakeAll(hub: S.Hub, n: Id, ghost owed: bool, ghost streams: map<nat, S.Stream>, ghost h: W.Hub) returns (ghost h': W.Hub)
    requires Shows(hub, n, streams, h) && (owed ==> h.wakes > 0)
    modifies hub.policyStreams.Values
    ensures W.Steps(h, if owed then W.Notify else W.Spurious, h') && Shows(hub, n, streams, h')
  {
    forall id | id in streams && h.live != Some(id) ensures streams[id] !in hub.policyStreams.Values { Unreached(hub, n, streams, h, id); }
    hub.NotifyPolicies();
    h' := h.(wakes := if owed then h.wakes - 1 else h.wakes, handlers := W.Woken(h));
  }

  method CloseStream(hub: S.Hub, n: Id, ghost streams: map<nat, S.Stream>, ghost h: W.Hub) returns (ghost h': W.Hub)
    requires Shows(hub, n, streams, h) && h.closes > 0
    modifies hub, hub.policyStreams.Values
    ensures W.Steps(h, W.CloseStream, h') && Shows(hub, n, streams, h')
  {
    forall k | k in streams && h.live != Some(k) ensures streams[k] !in hub.policyStreams.Values { Unreached(hub, n, streams, h, k); }
    hub.CloseNodeStream(n);
    h' := h.(closes := h.closes - 1, handlers := W.Stopped(h), live := None);
  }

  const OPENED := W.Handler(W.FirstRead, false, false, 0, [])

  lemma Added(hub: S.Hub, n: Id, streams: map<nat, S.Stream>, handlers: map<nat, W.Handler>, id: nat, s: S.Stream)
    requires Mirrors(streams, handlers) && id !in streams && s !in streams.Values && !s.changed && !s.done
    requires forall m :: m in hub.policyStreams && m != n ==> hub.policyStreams[m] !in streams.Values && hub.policyStreams[m] != s
    ensures Mirrors(streams[id := s], handlers[id := OPENED])
    ensures forall m :: m in hub.policyStreams && m != n ==> hub.policyStreams[m] !in streams[id := s].Values
  {
    assert forall k :: k in streams ==> streams[k] in streams.Values;
  }

  method Open(hub: S.Hub, n: Id, ghost id: nat, ghost streams: map<nat, S.Stream>, ghost h: W.Hub)
      returns (s: S.Stream, ghost h': W.Hub)
    requires Shows(hub, n, streams, h) && id !in streams
    modifies hub, hub.policyStreams.Values
    ensures fresh(s) && W.Steps(h, W.Open(id), h') && Shows(hub, n, streams[id := s], h')
  {
    forall k | k in streams && h.live != Some(k) ensures streams[k] !in hub.policyStreams.Values { Unreached(hub, n, streams, h, k); }
    s := hub.Register(n);
    assert Mirrors(streams, W.Stopped(h));
    assert n in hub.policyStreams && hub.policyStreams[n] == s;
    Added(hub, n, streams, W.Stopped(h), id, s);
    h' := h.(handlers := W.Stopped(h)[id := OPENED], live := Some(id));
  }

  method TakeSignal(hub: S.Hub, n: Id, s: S.Stream, ghost id: nat, ghost streams: map<nat, S.Stream>, ghost h: W.Hub)
      returns (ghost h': W.Hub)
    requires Shows(hub, n, streams, h) && id in streams && streams[id] == s && s.changed && h.handlers[id].place.Waiting?
    modifies s`changed
    ensures W.Steps(h, W.TakeSignal(id), h') && Shows(hub, n, streams, h')
  {
    s.Take();
    h' := h.(handlers := h.handlers[id := h.handlers[id].(full := false, place := W.ReRead)]);
  }

  method Unregister(hub: S.Hub, n: Id, s: S.Stream, ghost id: nat, ghost streams: map<nat, S.Stream>, ghost h: W.Hub)
      returns (ghost h': W.Hub)
    requires Shows(hub, n, streams, h) && id in streams && streams[id] == s && h.handlers[id].place.Ended?
    modifies hub`policyStreams
    ensures W.Steps(h, W.Unregister(id), h') && Shows(hub, n, streams, h')
  {
    hub.Unregister(n, s);
    h' := if h.live == Some(id) then h.(live := None) else h;
  }

  datatype Call = Opening | Closing | Waking

  /** Calls for another node change nothing here. */
  method OtherNode(hub: S.Hub, n: Id, m: Id, call: Call, ghost streams: map<nat, S.Stream>, ghost h: W.Hub)
    requires Shows(hub, n, streams, h) && m != n
    modifies hub, hub.policyStreams.Values
    ensures Shows(hub, n, streams, h)
  {
    forall k | k in streams && h.live != Some(k) ensures streams[k] !in hub.policyStreams.Values { Unreached(hub, n, streams, h, k); }
    match call
    case Opening =>
      var _ := hub.Register(m);
    case Closing =>
      ghost var before := hub.policyStreams;
      hub.CloseNodeStream(m);
      assert n in before ==> n in hub.policyStreams && hub.policyStreams[n] == before[n];
    case Waking =>
      hub.NotifyPolicy(m);
  }
}
