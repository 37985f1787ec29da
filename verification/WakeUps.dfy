/** The control stream as interleaved steps: commits, the notifications they owe, and the handlers that read
    the stored policy and send it. No committed change is missed by the registered stream
    (internal/control/control_stream.go, controlStream). */
module WakeUps {
  import opened Ids

  /** Where a handler is. A read takes the committed revision of that moment; a write may fail or
      find the stream stopped. */
  datatype Place =
    | FirstRead | FirstWrite(read: int)
    | Waiting
    | ReRead | ReWrite(read: int)
    | Ended

  /** `full` is the one-slot signal, `last` the revision sent last, `sent` all of them in order. */
  datatype Handler = Handler(place: Place, full: bool, done: bool, last: int, sent: seq<int>)

  /** `committed` is the node's stored revision; `wakes` and `closes` are the notifications that committed
      transactions still owe; `live` is the registered stream. */
  datatype Hub = Hub(committed: int, wakes: nat, closes: nat, handlers: map<nat, Handler>, live: Option<nat>)

  datatype Move =
    | Commit(changes: bool)         // a transaction will wake the stream, and may have changed the policy
    | CommitRelease(changes: bool)  // a transaction will close the stream, and may have changed the policy
    | Notify                  // an owed wake-up is delivered
    | Spurious                // a wake-up without a change
    | CloseStream             // an owed close is delivered
    | Open(id: nat)
    | Read(id: nat)
    | FirstSend(id: nat, ok: bool)
    | TakeSignal(id: nat)
    | Answer(id: nat, authorised: bool, empty: bool, ok: bool)
    | End(id: nat)
    | Unregister(id: nat)

  function Woken(h: Hub): map<nat, Handler> {
    if h.live.Some? && h.live.value in h.handlers then h.handlers[h.live.value := h.handlers[h.live.value].(full := true)] else h.handlers
  }

  function Stopped(h: Hub): map<nat, Handler> {
    if h.live.Some? && h.live.value in h.handlers then h.handlers[h.live.value := h.handlers[h.live.value].(done := true)] else h.handlers
  }

  /** Sending succeeds only on a stream that is not stopped. */
  function AfterSend(c: Handler, revision: int, ok: bool): Handler {
    if ok && !c.done then c.(place := Waiting, last := revision, sent := c.sent + [revision]) else c.(place := Ended)
  }

  /** The re-read policy `read`: an unauthorised stream may still be told an empty policy and ends; otherwise
      a changed revision is sent. */
  function AfterAnswer(c: Handler, read: int, authorised: bool, empty: bool, ok: bool): Handler {
    if !authorised then
      (if empty && ok && !c.done then c.(place := Ended, sent := c.sent + [read]) else c.(place := Ended))
    else if read != c.last then AfterSend(c, read, ok)
    else c.(place := Waiting)
  }

  predicate Steps(h: Hub, m: Move, h': Hub) {
    match m
    case Commit(changes) => h' == h.(committed := h.committed + if changes then 1 else 0, wakes := h.wakes + 1)
    case CommitRelease(changes) => h' == h.(committed := h.committed + if changes then 1 else 0, closes := h.closes + 1)
    case Notify => h.wakes > 0 && h' == h.(wakes := h.wakes - 1, handlers := Woken(h))
    case Spurious => h' == h.(handlers := Woken(h))
    case CloseStream => h.closes > 0 && h' == h.(closes := h.closes - 1, handlers := Stopped(h), live := None)
    case Open(id) => id !in h.handlers && h' == h.(handlers := Stopped(h)[id := Handler(FirstRead, false, false, 0, [])], live := Some(id))
    case Read(id) =>
      && id in h.handlers && (h.handlers[id].place.FirstRead? || h.handlers[id].place.ReRead?)
      && var c := h.handlers[id];
         h' == h.(handlers := h.handlers[id := c.(place := if c.place.FirstRead? then FirstWrite(h.committed) else ReWrite(h.committed))])
    case FirstSend(id, ok) =>
      && id in h.handlers && h.handlers[id].place.FirstWrite?
      && h' == h.(handlers := h.handlers[id := AfterSend(h.handlers[id], h.handlers[id].place.read, ok)])
    case TakeSignal(id) =>
      && id in h.handlers && h.handlers[id].place.Waiting? && h.handlers[id].full
      && h' == h.(handlers := h.handlers[id := h.handlers[id].(full := false, place := ReRead)])
    case Answer(id, authorised, empty, ok) =>
      && id in h.handlers && h.handlers[id].place.ReWrite?
      && h' == h.(handlers := h.handlers[id := AfterAnswer(h.handlers[id], h.handlers[id].place.read, authorised, empty, ok)])
    case End(id) => id in h.handlers && h' == h.(handlers := h.handlers[id := h.handlers[id].(place := Ended)])
    case Unregister(id) =>
      id in h.handlers && h.handlers[id].place.Ended? && h' == if h.live == Some(id) then h.(live := None) else h
  }

  /** The handler knows the committed revision, is about to read it, or has a signal waiting. */
  predicate UpToDate(c: Handler, committed: int) {
    || c.full
    || match c.place
       case FirstRead => true
       case ReRead => true
       case FirstWrite(r) => r == committed
       case ReWrite(r) => r == committed
       case Waiting => c.last == committed
       case Ended => true
  }

  /** Revisions on one stream never decrease and never run ahead of what is stored. */
  predicate InOrder(c: Handler, committed: int) {
    && (forall i, j :: 0 <= i < j < |c.sent| ==> c.sent[i] <= c.sent[j])
    && (forall i :: 0 <= i < |c.sent| ==> c.sent[i] <= c.last <= committed || (c.place.Ended? && c.sent[i] <= committed))
    && c.last <= committed
    && (c.place.FirstWrite? ==> c.sent == [] && c.last <= c.place.read <= committed) && (c.place.FirstRead? ==> c.sent == [])
    && (c.place.ReWrite? ==> c.last <= c.place.read <= committed)
    && (c.place.Waiting? || c.place.ReRead? || c.place.ReWrite? ==> c.sent != [] && c.sent[|c.sent| - 1] == c.last)
  }

  ghost predicate Good(h: Hub) {
    && h.committed >= 0
    && (h.live.Some? ==> h.live.value in h.handlers && !h.handlers[h.live.value].done)
    && (h.live.Some? && h.wakes == 0 && h.closes == 0 ==> UpToDate(h.handlers[h.live.value], h.committed))
    && (forall id :: id in h.handlers ==> InOrder(h.handlers[id], h.committed))
  }

  lemma InOrderGrows(c: Handler, committed: int)
    requires InOrder(c, committed)
    ensures InOrder(c, committed + 1)
  {}

  lemma SendKeepsOrder(c: Handler, committed: int, revision: int, ok: bool)
    requires InOrder(c, committed) && c.last <= revision <= committed
    requires c.place.FirstWrite? || c.place.ReWrite?
    ensures InOrder(AfterSend(c, revision, ok), committed)
  {}

  lemma AnswerKeepsOrder(c: Handler, committed: int, authorised: bool, empty: bool, ok: bool)
    requires InOrder(c, committed) && c.place.ReWrite?
    ensures InOrder(AfterAnswer(c, c.place.read, authorised, empty, ok), committed)
  {
    if authorised { SendKeepsOrder(c, committed, c.place.read, ok); }
  }

  /** Moving one handler is safe if it stays in order and no less up to date. */
  lemma HandlerMoves(h: Hub, id: nat, c: Handler)
    requires Good(h) && id in h.handlers && InOrder(c, h.committed) && c.done == h.handlers[id].done
    requires UpToDate(h.handlers[id], h.committed) ==> UpToDate(c, h.committed)
    ensures Good(h.(handlers := h.handlers[id := c]))
  {
    hide InOrder, UpToDate;
  }

  lemma CommitKeepsGood(h: Hub, h': Hub)
    requires Good(h) && h' == h.(committed := h'.committed, wakes := h'.wakes, closes := h'.closes) && h'.wakes + h'.closes > 0
    requires h'.committed == h.committed || h'.committed == h.committed + 1
    ensures Good(h')
  {
    hide InOrder, UpToDate;
    forall id | id in h.handlers ensures InOrder(h.handlers[id], h'.committed) { InOrderGrows(h.handlers[id], h.committed); }
  }

  lemma SignalKeepsGood(h: Hub, h': Hub)
    requires Good(h) && h' == h.(wakes := h'.wakes, handlers := Woken(h))
    ensures Good(h')
  {}

  lemma StopKeepsGood(h: Hub, m: Move, h': Hub)
    requires Good(h) && Steps(h, m, h') && (m.CloseStream? || m.Open? || m.Unregister?)
    ensures Good(h')
  {}

  lemma StepKeepsGood(h: Hub, m: Move, h': Hub)
    requires Good(h) && Steps(h, m, h')
    ensures Good(h')
  {
    hide Good, InOrder, Woken, Stopped;
    match m
    case Commit(_) => CommitKeepsGood(h, h');
    case CommitRelease(_) => CommitKeepsGood(h, h');
    case Notify => SignalKeepsGood(h, h');
    case Spurious => SignalKeepsGood(h, h');
    case CloseStream => StopKeepsGood(h, m, h');
    case Open(_) => StopKeepsGood(h, m, h');
    case Unregister(_) => StopKeepsGood(h, m, h');
    case Read(id) => HandlerOk(h, id); ReadKeepsOrder(h.handlers[id], h.committed); HandlerMoves(h, id, h'.handlers[id]);
    case TakeSignal(id) => HandlerOk(h, id); RestKeepsOrder(h.handlers[id], h.committed); HandlerMoves(h, id, h'.handlers[id]);
    case End(id) => HandlerOk(h, id); RestKeepsOrder(h.handlers[id], h.committed); HandlerMoves(h, id, h'.handlers[id]);
    case FirstSend(id, ok) =>
      HandlerOk(h, id);
      FirstIsBehind(h.handlers[id], h.committed);
      SendKeepsOrder(h.handlers[id], h.committed, h.handlers[id].place.read, ok);
      HandlerMoves(h, id, h'.handlers[id]);
    case Answer(id, authorised, empty, ok) =>
      HandlerOk(h, id);
      AnswerKeepsOrder(h.handlers[id], h.committed, authorised, empty, ok);
      HandlerMoves(h, id, h'.handlers[id]);
  }

  lemma HandlerOk(h: Hub, id: nat)
    requires Good(h) && id in h.handlers
    ensures InOrder(h.handlers[id], h.committed)
  {}

  lemma FirstIsBehind(c: Handler, committed: int)
    requires InOrder(c, committed) && c.place.FirstWrite?
    ensures c.last <= c.place.read <= committed
  {}

  lemma ReadKeepsOrder(c: Handler, committed: int)
    requires InOrder(c, committed)
    ensures c.place.FirstRead? ==> InOrder(c.(place := FirstWrite(committed)), committed)
    ensures c.place.ReRead? ==> InOrder(c.(place := ReWrite(committed)), committed)
  {}

  lemma RestKeepsOrder(c: Handler, committed: int)
    requires InOrder(c, committed)
    ensures c.place.Waiting? ==> InOrder(c.(full := false, place := ReRead), committed)
    ensures InOrder(c.(place := Ended), committed)
  {}

  ghost predicate IsHubRun(hubs: seq<Hub>, moves: seq<Move>) {
    && |hubs| == |moves| + 1 && hubs[0].committed >= 0 && hubs[0].handlers == map[] && hubs[0].live.None?
    && forall i :: 0 <= i < |moves| ==> Steps(hubs[i], moves[i], hubs[i + 1])
  }

  lemma {:induction false} GoodAlways(hubs: seq<Hub>, moves: seq<Move>, i: nat)
    requires IsHubRun(hubs, moves) && i < |hubs|
    ensures Good(hubs[i])
    decreases i
  {
    if i > 0 {
      GoodAlways(hubs, moves, i - 1);
      StepKeepsGood(hubs[i - 1], moves[i - 1], hubs[i]);
    }
  }

  /** Once every owed notification is delivered, a registered stream whose handler has not ended holds the
      committed revision, or still has a signal or a read outstanding; and if it is at rest, that revision is the
      last one it sent. */
  lemma NoLostWakeUp(hubs: seq<Hub>, moves: seq<Move>, i: nat)
    requires IsHubRun(hubs, moves) && i < |hubs| && hubs[i].live.Some? && hubs[i].wakes == 0 && hubs[i].closes == 0
    ensures hubs[i].live.value in hubs[i].handlers
    ensures var c := hubs[i].handlers[hubs[i].live.value];
            && !c.done
            && ((c.place.FirstWrite? || c.place.ReWrite?) && !c.full ==> c.place.read == hubs[i].committed)
            && (c.place.Waiting? && !c.full ==> c.sent != [] && c.sent[|c.sent| - 1] == hubs[i].committed)
  {
    GoodAlways(hubs, moves, i);
  }

  lemma SentInOrder(hubs: seq<Hub>, moves: seq<Move>, i: nat, id: nat, a: nat, b: nat)
    requires IsHubRun(hubs, moves) && i < |hubs| && id in hubs[i].handlers && a < b < |hubs[i].handlers[id].sent|
    ensures hubs[i].handlers[id].sent[a] <= hubs[i].handlers[id].sent[b] <= hubs[i].committed
  {
    GoodAlways(hubs, moves, i);
  }

  /** A stopped stream is never registered again, so it is stopped once. */
  lemma {:induction false} StoppedOnce(hubs: seq<Hub>, moves: seq<Move>, i: nat, j: nat, id: nat)
    requires IsHubRun(hubs, moves) && i <= j < |hubs| && id in hubs[i].handlers && hubs[i].handlers[id].done
    ensures id in hubs[j].handlers && hubs[j].handlers[id].done && hubs[j].live != Some(id)
    decreases j - i
  {
    GoodAlways(hubs, moves, j);
    if i < j { StoppedOnce(hubs, moves, i, j - 1, id); }
  }
}
