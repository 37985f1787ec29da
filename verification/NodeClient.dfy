/** The node's persisted registration: memory and disk move together unless a replacement takes effect and still
    reports an error, and an enrollment request is saved before it is sent, so that a retry after
    a crash or a lost answer sends the same request. Renewals and heartbeats write the whole
    registration again (internal/cluster/node_client.go, internal/cluster/client.go). */
module NodeClient {
  import opened Ids
  import opened Protocol
  import opened Tables
  import opened Cache

  /** The registration file. */
  datatype Registration = Registration(origin: string, domain: string, session: Option<NodeSession>, pending: Option<EnrollmentRequest>)

  /** What the controller answers to an enrollment. */
  datatype Answer = Granted(session: NodeSession) | ProofRejected | Failed

  /** The session is for the challenge that was signed, and its times are plausible. */
  predicate Acceptable(s: NodeSession, c: Challenge, now: int) {
    && s.clusterId == c.clusterId && s.nodeId == c.nodeId && s.instanceId == c.instanceId && IsToken(s.token)
    && now < s.expiresAt <= now + 61 * 60
    && s.leaseUntil != ZERO_TIME && s.leaseUntil <= s.expiresAt && s.leaseUntil <= now + 2 * 60
  }

  function Cleared(r: Registration): Registration { Registration(r.origin, "", None, None) }

  /** A request for this code is left over from an earlier attempt. */
  predicate LeftOver(r: Registration, code: string) { r.pending.Some? && r.pending.value.code == code }

  /** A heartbeat answer that the node takes. */
  predicate GoodBeat(s: NodeSession, beat: Heartbeat) {
    beat.nodeId == s.nodeId && beat.leaseUntil != ZERO_TIME && 250 <= beat.intervalMillis <= 30000
  }

  function Renewed(r: Registration, s: NodeSession, domain: string): Registration { r.(session := Some(s), domain := domain, pending := None) }

  // What one write does to memory and disk, and over many.

  /** What the process holds and what the file holds. */
  datatype Copies = Copies(memory: Registration, file: Registration)

  /** The file is to hold `next`: memory takes it only if the write reports success. */
  function Written(c: Copies, next: Registration, fate: Fate): Copies {
    match fate
    case Done => Copies(next, next)
    case Lost => c
    case DoneUnseen => c.(file := next)
  }

  datatype ClientEvent = Writing(next: Registration, fate: Fate) | Reopening

  function AfterEvent(c: Copies, e: ClientEvent): Copies {
    match e
    case Writing(next, fate) => Written(c, next, fate)
    case Reopening => c.(memory := c.file)
  }

  /** Any sequence of writes and new processes from a file that was just read. */
  predicate IsClientRun(cs: seq<Copies>, events: seq<ClientEvent>) {
    && |cs| == |events| + 1 && cs[0].memory == cs[0].file
    && forall i :: 0 <= i < |events| ==> cs[i + 1] == AfterEvent(cs[i], events[i])
  }

  /** Nothing after `k` took effect. */
  predicate NoneSince(events: seq<ClientEvent>, k: nat, i: nat)
    requires i <= |events|
  {
    forall l :: k < l < i ==> events[l].Writing? && events[l].fate.Lost?
  }

  /** The last write that took effect reported an error, and was about something other than what memory held. */
  predicate UnseenLast(cs: seq<Copies>, events: seq<ClientEvent>, i: nat)
    requires i <= |events| < |cs|
  {
    exists k :: 0 <= k < i && NoneSince(events, k, i) && events[k].Writing? && events[k].fate.DoneUnseen? && events[k].next != cs[k].memory
  }

  /** Memory and disk are apart exactly while the last write that took effect was one whose success went unseen;
      the next write that is seen, and a new process, bring them together again. */
  lemma {:induction false} ApartWhileUnseen(cs: seq<Copies>, events: seq<ClientEvent>, i: nat)
    requires IsClientRun(cs, events) && i < |cs|
    ensures cs[i].memory != cs[i].file <==> UnseenLast(cs, events, i)
    decreases i
  {
    if i > 0 {
      ApartWhileUnseen(cs, events, i - 1);
      assert cs[i] == AfterEvent(cs[i - 1], events[i - 1]);
      var e := events[i - 1];
      if e.Writing? && e.fate.Lost? {
        assert UnseenLast(cs, events, i) == UnseenLast(cs, events, i - 1) by { LostChangesNothing(cs, events, i - 1); }
      } else {
        assert forall k :: 0 <= k < i - 1 ==> !NoneSince(events, k, i);
        assert NoneSince(events, i - 1, i);
      }
    }
  }

  lemma LostChangesNothing(cs: seq<Copies>, events: seq<ClientEvent>, i: nat)
    requires i < |events| < |cs| && events[i].Writing? && events[i].fate.Lost?
    ensures UnseenLast(cs, events, i + 1) <==> UnseenLast(cs, events, i)
  {
    assert forall k :: 0 <= k < i ==> NoneSince(events, k, i + 1) == NoneSince(events, k, i);
  }

  class EnrollmentClient {
    const publicKey: string
    const instance: string
    const sign: Challenge -> string
    var state: Registration
    var file: Registration
    /** Every request handed to the network, and whether it was the one on disk at that moment. */
    var posted: seq<EnrollmentRequest>
    ghost var saved: seq<bool>

    ghost predicate Valid()
      reads this
    {
      |saved| == |posted|
    }

    ghost function Both(): Copies
      reads this
    {
      Copies(state, file)
    }

    constructor (publicKey: string, instance: string, sign: Challenge -> string, found: Registration)
      ensures Valid() && state == found && file == found && posted == []
      ensures this.publicKey == publicKey && this.instance == instance && this.sign == sign
    {
      this.publicKey, this.instance, this.sign := publicKey, instance, sign;
      state, file, posted, saved := found, found, [], [];
    }

    /** A new process starts from the file. */
    method Reopen()
      modifies this`state
      ensures state == file
    {
      state := file;
    }

    /** Replace the file by what is in memory. An error may hide a replacement that took effect. */
    method SaveRegistration(fate: Fate) returns (ok: bool)
      modifies this`file
      ensures ok == fate.Done? && file == if fate.Lost? then old(file) else state
    {
      if !fate.Lost? {
        file := state;
      }
      return fate.Done?;
    }

    /** A reported error restores memory, whatever became of the file. */
    method ClearRegistration(fate: Fate) returns (previous: Option<NodeSession>, ok: bool)
      requires Valid()
      modifies this`state, this`file
      ensures ok == fate.Done? && previous == if ok then old(state.session) else None
      ensures state == if ok then Cleared(old(state)) else old(state)
      ensures file == if fate.Lost? then old(file) else Cleared(old(state))
      ensures Both() == Written(old(Both()), Cleared(old(state)), fate)
    {
      var before := state;
      state := Registration(before.origin, "", None, None);
      ok := SaveRegistration(fate);
      if !ok {
        state := before;
        return None, false;
      }
      return before.session, true;
    }

    method AcceptSession(s: NodeSession, c: Challenge, now: int, fate: Fate) returns (ok: bool)
      requires Valid()
      modifies this`state, this`file
      ensures ok <==> Acceptable(s, c, now) && fate.Done?
      ensures Both() == if Acceptable(s, c, now) then Written(old(Both()), Renewed(old(state), s, c.domain), fate) else old(Both())
    {
      if !Acceptable(s, c, now) {
        return false;
      }
      var before := state;
      state := state.(session := Some(s), domain := c.domain, pending := None);
      ok := SaveRegistration(fate);
      if !ok {
        state := before;
      }
    }

    predicate ValidChallenge(c: Challenge, purpose: Purpose, now: int) {
      && c.purpose == purpose && IsToken(c.clusterId) && IsToken(c.nodeId) && IsToken(c.nonce) && c.domain != ""
      && c.instanceId == instance && c.publicKey == publicKey && now < c.expiresAt < now + 3 * 60
    }

    /** The challenge may be signed, and the request that carries it. */
    predicate Usable(challenge: Option<Challenge>, now: int) { challenge.Some? && ValidChallenge(challenge.value, ForEnroll, now) }

    function Signed(code: string, c: Challenge): EnrollmentRequest { EnrollmentRequest(code, c, sign(c)) }

    /** Make sure there is a request for this code: keep the one left over, or sign a valid challenge and save it. */
    method PreparePending(code: string, challenge: Option<Challenge>, now: int, fate: Fate) returns (ok: bool)
      requires Valid()
      modifies this`state, this`file
      ensures ok <==> old(LeftOver(state, code)) || (Usable(challenge, now) && fate.Done?)
      ensures old(LeftOver(state, code)) || !Usable(challenge, now) ==> state == old(state) && file == old(file)
      ensures !old(LeftOver(state, code)) && Usable(challenge, now) ==>
                Both() == Written(old(Both()), old(state).(pending := Some(Signed(code, challenge.value))), fate)
      ensures ok ==> LeftOver(state, code)
    {
      if state.pending.Some? && state.pending.value.code == code {
        return true;
      }
      if challenge.None? || !ValidChallenge(challenge.value, ForEnroll, now) {
        return false;
      }
      var before := state;
      state := state.(pending := Some(EnrollmentRequest(code, challenge.value, sign(challenge.value))));
      ok := SaveRegistration(fate);
      if !ok {
        state := before;
      }
    }

    method Send(request: EnrollmentRequest)
      requires Valid()
      modifies this`posted, this`saved
      ensures Valid() && posted == old(posted) + [request] && saved == old(saved) + [file.pending == Some(request)]
    {
      posted := posted + [request];
      saved := saved + [file.pending == Some(request)];
    }

    /** Two attempts at most: a request that was rejected after its challenge expired is dropped and made again. A
        request left over for this code is sent unchanged. Every request sent is the one on disk, except a
        left-over one when memory and disk had come apart before. */
    method Enroll(code: string, challenges: seq<Option<Challenge>>, answers: seq<Answer>, now: seq<int>, fates: seq<Fate>)
      returns (session: Option<NodeSession>)
      requires Valid() && |challenges| == 2 && |answers| == 2 && |now| == 2 && |fates| == 5
      modifies this
      ensures Valid() && old(posted) <= posted && old(saved) <= saved && |posted| <= |old(posted)| + 2
      ensures forall r :: r in posted[|old(posted)|..] ==> r.code == code
      ensures session.Some? ==> state.session == session && file == state && |posted| > |old(posted)|
      ensures session.Some? ==> Acceptable(session.value, posted[|posted| - 1].challenge, now[|posted| - |old(posted)| - 1])
      ensures session.None? ==> state.session == old(state.session)
      ensures |posted| > |old(posted)| && old(LeftOver(state, code)) ==> posted[|old(posted)|] == old(state.pending.value)
      ensures old(state.session.None? && LeftOver(state, code)) && IsToken(code) ==> |posted| > |old(posted)|
      ensures |posted| > |old(posted)| ==>
                (saved[|old(posted)|] <==> (old(LeftOver(state, code)) ==> old(file.pending) == old(state.pending)))
      ensures |posted| == |old(posted)| + 2 ==> saved[|posted| - 1]
    {
      if !IsToken(code) || state.session.Some? {
        return None;
      }
      var prepared := PreparePending(code, challenges[0], now[0], fates[0]);
      if !prepared {
        return None;
      }
      var request := state.pending.value;
      Send(request);
      match answers[0] {
        case Granted(s) =>
          var ok := AcceptSession(s, request.challenge, now[0], fates[1]);
          return if ok then Some(s) else None;
        case Failed =>
          return None;
        case ProofRejected =>
          if now[0] < request.challenge.expiresAt {
            return None;
          }
          state := state.(pending := None);
          var dropped := SaveRegistration(fates[2]);
          if !dropped {
            state := state.(pending := Some(request));
            return None;
          }
      }
      prepared := PreparePending(code, challenges[1], now[1], fates[3]);
      if !prepared {
        return None;
      }
      request := state.pending.value;
      Send(request);
      if answers[1].Granted? {
        var ok := AcceptSession(answers[1].session, request.challenge, now[1], fates[4]);
        return if ok then Some(answers[1].session) else None;
      }
      return None;
    }

    /** The challenge is for this session, or asks for the proof of a new domain. */
    predicate RenewalFits(s: NodeSession, challenge: Option<Challenge>, now: int)
      reads this`state
    {
      && challenge.Some? && challenge.value.nodeId == s.nodeId && challenge.value.clusterId == s.clusterId
      && (|| (ValidChallenge(challenge.value, ForSession, now) && challenge.value.domain == state.domain)
          || ValidChallenge(challenge.value, ForDomainChange, now))
    }

    /** A renewal replaces the session by one for the same cluster and node, in memory and on disk. */
    method RenewSession(challenge: Option<Challenge>, answer: Answer, now: int, fate: Fate) returns (session: Option<NodeSession>)
      requires Valid()
      modifies this`state, this`file
      ensures session.Some? <==> old(state.session.Some? && RenewalFits(state.session.value, challenge, now))
                                 && answer.Granted? && Acceptable(answer.session, challenge.value, now) && fate.Done?
      ensures session.Some? ==> session == Some(answer.session) && state.session == session && file == state
      ensures Both() == if old(state.session.Some? && RenewalFits(state.session.value, challenge, now))
                           && answer.Granted? && Acceptable(answer.session, challenge.value, now)
                        then Written(old(Both()), Renewed(old(state), answer.session, challenge.value.domain), fate) else old(Both())
      ensures state.session.Some? == old(state.session.Some?)
      ensures state.session.Some? ==> state.session.value.clusterId == old(state.session.value.clusterId)
                                      && state.session.value.nodeId == old(state.session.value.nodeId)
    {
      if state.session.None? {
        return None;
      }
      var current := state.session.value;
      if challenge.None? {
        return None;
      }
      var c := challenge.value;
      var valid := (ValidChallenge(c, ForSession, now) && c.domain == state.domain) || ValidChallenge(c, ForDomainChange, now);
      if !valid || c.nodeId != current.nodeId || c.clusterId != current.clusterId {
        return None;
      }
      if !answer.Granted? {
        return None;
      }
      var ok := AcceptSession(answer.session, c, now, fate);
      return if ok then Some(answer.session) else None;
    }

    /** A heartbeat's lease is stored with the whole registration. The control loop runs only for a session and ends
        before one is cleared. */
    method KeepLease(beat: Heartbeat, fate: Fate) returns (ok: bool)
      requires Valid() && state.session.Some?
      modifies this`state, this`file
      ensures ok <==> old(GoodBeat(state.session.value, beat)) && fate.Done?
      ensures Both() == if old(GoodBeat(state.session.value, beat))
                        then Written(old(Both()), old(state).(session := Some(old(state.session.value).(leaseUntil := beat.leaseUntil))), fate)
                        else old(Both())
    {
      if !GoodBeat(state.session.value, beat) {
        return false;
      }
      var previous := state.session.value.leaseUntil;
      state := state.(session := Some(state.session.value.(leaseUntil := beat.leaseUntil)));
      ok := SaveRegistration(fate);
      if !ok {
        state := state.(session := Some(state.session.value.(leaseUntil := previous)));
      }
    }
  }
}
