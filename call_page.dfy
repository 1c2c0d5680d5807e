/**
 * The call page: the negotiation effect (peer connection, call channel, inbound
 * handler, local candidate forwarding, teardown), the start and join actions,
 * and the camera and remote-track effects. Each handler invocation is one atomic step.
 */
module CallPage {
  import opened Wrappers
  import opened Signaling
  import opened WebRtc
  import opened Sequences
  import opened Media

  /** The toasts the page shows. */
  datatype Notice = PermissionRequired | CallEnded | Calling | ReadyToAnswer

  /** The branch the inbound handler takes for one payload. */
  datatype Action =
    | Ignore
    | AcceptRemoteOffer(data: Data)
    | AcceptRemoteAnswer(data: Data)
    | ApplyCandidate(data: Data)
    | ShowCallEnded

  /**
   * The handler's dispatch once connection and user exist: self-sent payloads are
   * dropped; offer, answer and ice act only when they carry data; hangup only
   * shows a notice; ring does nothing.
   */
  function Dispatch(p: SignalPayload, self: string): (a: Action)
    ensures p.from == self ==> a.Ignore?
    ensures p.kind == Ring ==> a.Ignore?
    ensures a.AcceptRemoteOffer? <==> p.from != self && p.kind == Offer && p.data.Some?
    ensures a.AcceptRemoteAnswer? <==> p.from != self && p.kind == Answer && p.data.Some?
    ensures a.ApplyCandidate? <==> p.from != self && p.kind == Ice && p.data.Some?
    ensures a.ShowCallEnded? <==> p.from != self && p.kind == Hangup
    ensures a.AcceptRemoteOffer? || a.AcceptRemoteAnswer? || a.ApplyCandidate? ==> p.data == Some(a.data)
  {
    if p.from == self then Ignore
    else if p.kind == Offer && p.data.Some? then AcceptRemoteOffer(p.data.value)
    else if p.kind == Answer && p.data.Some? then AcceptRemoteAnswer(p.data.value)
    else if p.kind == Ice && p.data.Some? then ApplyCandidate(p.data.value)
    else if p.kind == Hangup then ShowCallEnded
    else Ignore
  }

  /** The answer signal: the peer's handler applies exactly this answer; the sender's own handler drops it. */
  function AnswerPayload(self: string, callId: string, answer: SessionDescription): (p: SignalPayload)
    ensures p.callId == Some(callId)
    ensures forall other :: other != self ==> Dispatch(p, other) == AcceptRemoteAnswer(Sdp(answer))
    ensures Dispatch(p, self) == Ignore
  {
    SignalPayload(Answer, self, None, Some(callId), Some(Sdp(answer)))
  }

  /** The offer signal: the peer's handler answers exactly this offer; the sender's own handler drops it. */
  function OfferPayload(self: string, callId: string, offer: SessionDescription): (p: SignalPayload)
    ensures p.callId == Some(callId)
    ensures forall other :: other != self ==> Dispatch(p, other) == AcceptRemoteOffer(Sdp(offer))
    ensures Dispatch(p, self) == Ignore
  {
    SignalPayload(Offer, self, None, Some(callId), Some(Sdp(offer)))
  }

  /** The ice signal: the peer's handler applies exactly this candidate; the sender's own handler drops it. */
  function IcePayload(self: string, callId: string, c: IceCandidate): (p: SignalPayload)
    ensures p.callId == Some(callId)
    ensures forall other :: other != self ==> Dispatch(p, other) == ApplyCandidate(Candidate(c))
    ensures Dispatch(p, self) == Ignore
  {
    SignalPayload(Ice, self, None, Some(callId), Some(Candidate(c)))
  }

  /**
   * How `stream.getTracks().forEach(t => pc.addTrack(t, stream))` ends on a connection
   * with senders `senders`: the senders afterwards, and whether no `addTrack` threw.
   * A throw ends the loop after the tracks already added.
   */
  function AddEach(senders: seq<nat>, closed: bool, tracks: seq<nat>): (r: (seq<nat>, bool))
    ensures r.1 <==> (tracks == [] || !closed) && NoDuplicates(tracks) && (forall i :: 0 <= i < |tracks| ==> tracks[i] !in senders)
    ensures r.1 ==> r.0 == senders + tracks
    ensures |senders| <= |r.0| <= |senders| + |tracks|
    ensures r.0 == senders + tracks[..|r.0| - |senders|]
    // the loop stops at the first track that throws: on a closed connection the very
    // first one, otherwise the first that already has a sender (see `AddEachAddsAddable`)
    ensures !r.1 ==> var k := |r.0| - |senders|;
                       k < |tracks| && ((closed && k == 0) || (!closed && tracks[k] in r.0))
    decreases |tracks|
  {
    if tracks == [] then (senders, true)
    else if closed || tracks[0] in senders then (senders, false)
    else
      var r := AddEach(senders + [tracks[0]], closed, tracks[1..]);
      AddEachCons(senders, tracks, r);
      r
  }

  /** `AddEach`'s contract for `tracks` from the one for its tail, once the head was added. */
  lemma AddEachCons(senders: seq<nat>, tracks: seq<nat>, r: (seq<nat>, bool))
    requires tracks != [] && tracks[0] !in senders
    requires var s', t := senders + [tracks[0]], tracks[1..];
               && (r.1 <==> NoDuplicates(t) && forall i :: 0 <= i < |t| ==> t[i] !in s')
               && (r.1 ==> r.0 == s' + t)
               && |s'| <= |r.0| <= |s'| + |t|
               && r.0 == s' + t[..|r.0| - |s'|]
               && (!r.1 ==> |r.0| - |s'| < |t| && t[|r.0| - |s'|] in r.0)
    ensures r.1 <==> NoDuplicates(tracks) && forall i :: 0 <= i < |tracks| ==> tracks[i] !in senders
    ensures r.1 ==> r.0 == senders + tracks
    ensures |senders| <= |r.0| <= |senders| + |tracks|
    ensures r.0 == senders + tracks[..|r.0| - |senders|]
    ensures !r.1 ==> |r.0| - |senders| < |tracks| && tracks[|r.0| - |senders|] in r.0
  {
    var t, s' := tracks[1..], senders + [tracks[0]];
    assert tracks == [tracks[0]] + t;
    assert forall i :: 0 < i < |tracks| ==> tracks[i] == t[i - 1];
    NoDuplicatesCons(tracks);
    assert (forall i :: 0 <= i < |t| ==> t[i] !in s') <==>
             tracks[0] !in t && forall i :: 0 <= i < |t| ==> t[i] !in senders;
    assert tracks[..|r.0| - |senders|] == [tracks[0]] + t[..|r.0| - |s'|];
  }

  /** Every track `AddEach` added could be added: the connection was open and the track had no sender yet. */
  lemma {:induction false} AddEachAddsAddable(senders: seq<nat>, closed: bool, tracks: seq<nat>)
    ensures var k := |AddEach(senders, closed, tracks).0| - |senders|;
              forall i :: 0 <= i < k ==> !closed && tracks[i] !in senders && tracks[i] !in tracks[..i]
    decreases |tracks|
  {
    if tracks != [] && !closed && tracks[0] !in senders {
      var s' := senders + [tracks[0]];
      var r := AddEach(s', closed, tracks[1..]);
      assert AddEach(senders, closed, tracks) == r;
      AddEachAddsAddable(s', closed, tracks[1..]);
      assert |AddEach(senders, closed, tracks).0| - |senders| == |r.0| - |s'| + 1;
      forall i | 1 <= i < |r.0| - |senders|
        ensures tracks[i] !in senders && tracks[i] !in tracks[..i]
      {
        var t := tracks[1..];
        assert t[i - 1] !in s' && t[i - 1] !in t[..i - 1];
        assert tracks[i] == t[i - 1];
        assert tracks[..i] == [tracks[0]] + t[..i - 1];
      }
    }
  }

  /**
   * The `forEach` that adds every track of a stream to the connection. Only the
   * senders change.
   */
  method AddTracks(pc: PeerConnection, tracks: seq<nat>) returns (ok: bool)
    requires pc.Valid()
    modifies pc`senders
    ensures pc.Valid()
    ensures (pc.senders, ok) == AddEach(old(pc.senders), pc.closed, tracks)
  {
    var i := 0;
    while i < |tracks|
      invariant 0 <= i <= |tracks|
      invariant AddEach(old(pc.senders), pc.closed, tracks) == AddEach(pc.senders, pc.closed, tracks[i..])
    {
      assert tracks[i..][0] == tracks[i] && tracks[i..][1..] == tracks[i + 1..];
      var added := pc.AddTrack(tracks[i]);
      if added.Fail? {
        return false;
      }
      i := i + 1;
    }
    ok := true;
  }

  /** `setRemoteDescription(data)` rejects data that is not a session description. */
  function AsDescription(d: Data): (r: Result<SessionDescription, RtcError>)
    ensures r.Success? <==> d.Sdp?
    ensures r.Success? ==> d == Sdp(r.value)
  {
    if d.Sdp? then Success(d.description) else Failure(TypeError)
  }

  class CallPage {
    /** The route parameter, `""` when absent. */
    const callId: string
    /** The signed-in user's id, if any. */
    const user: Option<string>
    const transport: Transport
    /** `pcRef.current`. */
    var pc: PeerConnection?
    /** The negotiation effect has run and not been cleaned up. */
    var connected: bool
    /** `pc.onicecandidate` has been assigned. */
    var iceHandler: bool
    var rawStream: Option<Stream>
    var processed: Option<Stream>
    /** The stream shown in the remote video element. */
    var remoteVideo: Option<nat>
    var notices: seq<Notice>

    ghost predicate Valid()
      reads this, pc
    {
      && (connected <==> pc != null)
      && (connected ==> callId != "" && user.Some? && iceHandler)
      && (iceHandler ==> connected)
      && (pc != null ==> pc.Valid())
    }

    /** The call channel of the effect. */
    function Ch(): Channel
      reads this
    {
      CreateCallChannel(callId)
    }

    /**
     * What the inbound handler would do with `p` in the current state: nothing before
     * the connection exists, without a user, or for the user's own signals.
     */
    function Reaction(p: SignalPayload): (a: Action)
      reads this
      ensures !a.Ignore? ==> pc != null && user.Some? && p.from != user.value
      ensures pc != null && user.Some? ==> a == Dispatch(p, user.value)
    {
      if pc == null || user.None? then Ignore else Dispatch(p, user.value)
    }

    /** The page as first rendered. */
    constructor (callId: string, user: Option<string>, transport: Transport)
      ensures Valid()
      ensures this.callId == callId && this.user == user && this.transport == transport
      ensures pc == null && !connected && !iceHandler
      ensures rawStream == None && processed == None && remoteVideo == None && notices == []
    {
      this.callId := callId;
      this.user := user;
      this.transport := transport;
      pc := null;
      connected, iceHandler := false, false;
      rawStream, processed, remoteVideo := None, None, None;
      notices := [];
    }

    /**
     * The effect keyed on call id and user: without both it does nothing; otherwise
     * a new connection goes into the ref, the call channel is subscribed and local
     * candidates are forwarded from now on.
     */
    method Connect()
      requires Valid() && !connected
      modifies this, transport`subscribed
      ensures Valid()
      ensures callId == "" || user.None? ==> pc == null && !connected && iceHandler == old(iceHandler) && transport.subscribed == old(transport.subscribed)
      ensures callId != "" && user.Some? ==>
                && connected && iceHandler && pc != null && fresh(pc)
                && pc.signaling == Stable && !pc.closed && pc.local == None && pc.remote == None
                && pc.senders == [] && pc.candidates == [] && pc.iceServers == [GoogleStun] && pc.hasTrackHandler
                && transport.subscribed == old(transport.subscribed) + {CallTopic(callId)}
      ensures rawStream == old(rawStream) && processed == old(processed)
      ensures remoteVideo == old(remoteVideo) && notices == old(notices)
    {
      if callId == "" || user.None? {
        return;
      }
      pc := new PeerConnection();
      connected := true;
      transport.Subscribe(Ch());
      iceHandler := true;
    }

    /** The inbound handler registered by `subscribe`. */
    method OnSignal(p: SignalPayload)
      requires Valid()
      modifies pc, transport`outbox, this`notices
      ensures Valid()
      ensures Reaction(p) == old(Reaction(p))
      ensures !Reaction(p).ShowCallEnded? ==> notices == old(notices)
      ensures Reaction(p).ShowCallEnded? ==> notices == old(notices) + [CallEnded]
      ensures Reaction(p).Ignore? || Reaction(p).ShowCallEnded? ==>
                transport.outbox == old(transport.outbox) && (pc != null ==> unchanged(pc))
      // an offer is answered exactly once, with the answer now installed locally
      ensures Reaction(p).AcceptRemoteOffer? ==>
                var d := Reaction(p).data;
                var answers :=
                  && d.Sdp? && d.description.sdpType == OfferType && !old(pc.closed)
                  && (old(pc.signaling) == Stable || old(pc.signaling) == HaveRemoteOffer);
                && pc.closed == old(pc.closed) && pc.senders == old(pc.senders) && pc.candidates == old(pc.candidates)
                && (!answers ==>
                      && transport.outbox == old(transport.outbox)
                      // the remote description is set first and stays set when answering fails
                      && if d.Sdp? && old(pc.CanSet(Remote, d.description))
                         then pc.remote == Some(d.description) && pc.local == old(pc.local)
                              && pc.signaling == NextState(old(pc.signaling), Remote, d.description.sdpType).value
                         else pc.remote == old(pc.remote) && pc.local == old(pc.local) && pc.signaling == old(pc.signaling))
                && (answers ==>
                      && pc.signaling == Stable && pc.remote == Some(d.description)
                      && pc.local.Some? && pc.local.value.sdpType == AnswerType
                      && transport.outbox == old(transport.outbox) + [Wrap(Ch(), AnswerPayload(user.value, callId, pc.local.value))])
      // an answer only sets the remote description; nothing is sent
      ensures Reaction(p).AcceptRemoteAnswer? ==>
                var d := Reaction(p).data;
                && transport.outbox == old(transport.outbox)
                && pc.local == old(pc.local) && pc.closed == old(pc.closed)
                && pc.senders == old(pc.senders) && pc.candidates == old(pc.candidates)
                && if d.Sdp? && old(pc.CanSet(Remote, d.description))
                   then pc.remote == Some(d.description)
                        && pc.signaling == NextState(old(pc.signaling), Remote, d.description.sdpType).value
                   else pc.remote == old(pc.remote) && pc.signaling == old(pc.signaling)
      // a candidate is applied when it can be; a failure is swallowed; nothing is sent
      ensures Reaction(p).ApplyCandidate? ==>
                var d := Reaction(p).data;
                && transport.outbox == old(transport.outbox)
                && pc.local == old(pc.local) && pc.remote == old(pc.remote)
                && pc.signaling == old(pc.signaling) && pc.closed == old(pc.closed) && pc.senders == old(pc.senders)
                && pc.candidates == if d.Candidate? && !pc.closed && pc.remote.Some?
                                    then old(pc.candidates) + [d.candidate]
                                    else old(pc.candidates)
    {
      if pc == null || user.None? {
        return;
      }
      if p.from == user.value {
        return;
      }
      var action := Dispatch(p, user.value);
      match action {
        case AcceptRemoteOffer(d) =>
          var offer := AsDescription(d);
          if offer.Success? {
            var answer := AcceptOffer(pc, offer.value);
            if answer.Success? {
              transport.Send(Ch(), AnswerPayload(user.value, callId, answer.value));
            }
          }
        case AcceptRemoteAnswer(d) =>
          var answer := AsDescription(d);
          if answer.Success? {
            var _ := AcceptAnswer(pc, answer.value);
          }
        case ApplyCandidate(d) =>
          if d.Candidate? {
            var _ := pc.AddIceCandidate(d.candidate);
          }
        case ShowCallEnded =>
          notices := notices + [CallEnded];
        case Ignore =>
      }
    }

    /** `pc.onicecandidate`: each non-null local candidate is sent once on the call channel. */
    method OnLocalCandidate(c: Option<IceCandidate>)
      requires Valid()
      modifies transport`outbox
      ensures iceHandler && c.Some? ==>
                transport.outbox == old(transport.outbox) + [Wrap(Ch(), IcePayload(user.value, callId, c.value))]
      ensures !(iceHandler && c.Some?) ==> transport.outbox == old(transport.outbox)
    {
      if iceHandler && c.Some? {
        transport.Send(Ch(), IcePayload(user.value, callId, c.value));
      }
    }

    /**
     * The "Start Call" action: with connection, processed stream and user present,
     * add every processed track, create an offer and send it once.
     */
    method StartCall()
      requires Valid()
      modifies pc, transport`outbox, this`notices
      ensures Valid()
      ensures pc == null || processed.None? || user.None? ==>
                transport.outbox == old(transport.outbox) && notices == old(notices)
                && (pc != null ==> unchanged(pc))
      ensures pc != null && processed.Some? && user.Some? ==>
                var added := AddEach(old(pc.senders), old(pc.closed), processed.value.tracks);
                var offers := added.1 && !old(pc.closed) && (old(pc.signaling) == Stable || old(pc.signaling) == HaveLocalOffer);
                && pc.senders == added.0 && pc.remote == old(pc.remote) && pc.closed == old(pc.closed)
                && pc.candidates == old(pc.candidates) && pc.hasTrackHandler == old(pc.hasTrackHandler)
                && (!offers ==> transport.outbox == old(transport.outbox) && notices == old(notices)
                                && pc.local == old(pc.local) && pc.signaling == old(pc.signaling))
                && (offers ==>
                      && pc.signaling == HaveLocalOffer && pc.local.Some? && pc.local.value.sdpType == OfferType
                      && transport.outbox == old(transport.outbox) + [Wrap(Ch(), OfferPayload(user.value, callId, pc.local.value))]
                      && notices == old(notices) + [Calling])
    {
      if pc == null || processed.None? || user.None? {
        return;
      }
      var ok := AddTracks(pc, processed.value.tracks);
      if !ok {
        return;
      }
      var offer := CreateOffer(pc);
      if offer.Failure? {
        return;
      }
      // a second channel handle on the same topic
      var ch := CreateCallChannel(callId);
      transport.Send(ch, OfferPayload(user.value, callId, offer.value));
      notices := notices + [Calling];
    }

    /** The "Join" action: add every processed track and send nothing. */
    method JoinCall()
      requires Valid()
      modifies pc, this`notices
      ensures Valid()
      ensures pc == null || processed.None? ==> notices == old(notices) && (pc != null ==> unchanged(pc))
      ensures pc != null && processed.Some? ==>
                var added := AddEach(old(pc.senders), old(pc.closed), processed.value.tracks);
                && pc.senders == added.0
                && pc.local == old(pc.local) && pc.remote == old(pc.remote) && pc.signaling == old(pc.signaling)
                && pc.closed == old(pc.closed) && pc.candidates == old(pc.candidates)
                && pc.hasTrackHandler == old(pc.hasTrackHandler)
                && notices == if added.1 then old(notices) + [ReadyToAnswer] else old(notices)
    {
      if pc == null || processed.None? {
        return;
      }
      var ok := AddTracks(pc, processed.value.tracks);
      if ok {
        notices := notices + [ReadyToAnswer];
      }
    }

    /**
     * The effect's cleanup: unsubscribe, close the connection, clear the ref, in that
     * order. A closed connection raises no more candidate events, so nothing further
     * is forwarded. The raw stream is left alone.
     */
    method Disconnect()
      requires Valid()
      modifies this, pc, transport`subscribed
      ensures Valid() && pc == null && !connected && !iceHandler
      ensures old(connected) ==> old(pc).closed && transport.subscribed == old(transport.subscribed) - {CallTopic(callId)}
      ensures !old(connected) ==> transport.subscribed == old(transport.subscribed)
      ensures rawStream == old(rawStream) && processed == old(processed)
      ensures remoteVideo == old(remoteVideo) && notices == old(notices)
    {
      if !connected {
        return;
      }
      transport.RemoveChannel(Ch());
      pc.Close();
      pc := null;
      connected, iceHandler := false, false;
    }

    /** The camera effect's outcome: the stream, or a permission notice. */
    method OnCameraResult(acquired: Option<Stream>)
      modifies this`rawStream, this`notices
      ensures acquired.Some? ==> rawStream == acquired && notices == old(notices)
      ensures acquired.None? ==> rawStream == old(rawStream) && notices == old(notices) + [PermissionRequired]
    {
      if acquired.Some? {
        rawStream := acquired;
      } else {
        notices := notices + [PermissionRequired];
      }
    }

    /** The camera effect's cleanup: drop the raw stream without stopping its tracks. */
    method ReleaseCamera()
      modifies this`rawStream
      ensures rawStream == None
    {
      rawStream := None;
    }

    /** A new value of the processed stream from the frame pipeline. */
    method OnProcessedStream(s: Option<Stream>)
      modifies this`processed
      ensures processed == s
    {
      processed := s;
    }

    /** The track handler: show the first stream of the event, or nothing when there is none. */
    method OnTrack(streams: seq<nat>)
      modifies this`remoteVideo
      ensures |streams| > 0 ==> remoteVideo == Some(streams[0])
      ensures |streams| == 0 ==> remoteVideo == None
    {
      remoteVideo := if |streams| > 0 then Some(streams[0]) else None;
    }
  }
}
