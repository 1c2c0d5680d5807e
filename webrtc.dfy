/**
 * The peer-connection helpers of the call: creating a connection and the three
 * negotiation steps, over an abstract RTCPeerConnection that keeps only its
 * signaling state, its local and remote descriptions, its senders and the remote
 * candidates it has applied.
 */
module WebRtc {
  import opened Wrappers

  datatype SdpType = OfferType | AnswerType

  /** A session description; the SDP text itself is abstracted to a number. */
  datatype SessionDescription = SessionDescription(sdpType: SdpType, sdp: nat)

  datatype IceCandidate = IceCandidate(candidate: nat)

  /**
   * RTCSignalingState as in section 4.3.1 of W3C WebRTC 1.0, without the two
   * provisional-answer states (the application never produces a provisional answer);
   * "closed" is the separate `closed` flag of the connection.
   */
  datatype SignalingState = Stable | HaveLocalOffer | HaveRemoteOffer

  /** Which side a description is set on. */
  datatype Side = Local | Remote

  /** The DOMException names the modelled operations reject with. */
  datatype RtcError = InvalidStateError | InvalidAccessError | TypeError

  function Opposite(side: Side): Side {
    match side
    case Local => Remote
    case Remote => Local
  }

  /** The state in which an offer set on `side` is awaiting its answer. */
  function OfferPendingOn(side: Side): SignalingState {
    match side
    case Local => HaveLocalOffer
    case Remote => HaveRemoteOffer
  }

  /**
   * The RTCSignalingState transition diagram: which description may be set in which
   * state, and the state it leads to. `None` is an InvalidStateError.
   */
  function NextState(st: SignalingState, side: Side, t: SdpType): (r: Option<SignalingState>)
    ensures t == OfferType ==>
              (r.Some? <==> st == Stable || st == OfferPendingOn(side)) &&
              (r.Some? ==> r.value == OfferPendingOn(side))
    ensures t == AnswerType ==>
              (r.Some? <==> st == OfferPendingOn(Opposite(side))) &&
              (r.Some? ==> r.value == Stable)
  {
    match (st, side, t)
    case (Stable, Local, OfferType) => Some(HaveLocalOffer)
    case (Stable, Remote, OfferType) => Some(HaveRemoteOffer)
    case (HaveLocalOffer, Local, OfferType) => Some(HaveLocalOffer)
    case (HaveLocalOffer, Remote, AnswerType) => Some(Stable)
    case (HaveRemoteOffer, Remote, OfferType) => Some(HaveRemoteOffer)
    case (HaveRemoteOffer, Local, AnswerType) => Some(Stable)
    case _ => None
  }

  /** The only ICE server the application configures. */
  const GoogleStun := "stun:stun.l.google.com:19302"

  class PeerConnection {
    /** The `urls` of the configuration's `iceServers`. */
    const iceServers: seq<string>
    /** Whether `ontrack` was assigned the caller's handler. */
    var hasTrackHandler: bool
    var signaling: SignalingState
    var closed: bool
    var local: Option<SessionDescription>
    var remote: Option<SessionDescription>
    /** Tracks added with `addTrack`, in order. */
    var senders: seq<nat>
    /** Remote candidates applied with `addIceCandidate`, in order. */
    var candidates: seq<IceCandidate>
    /** How many descriptions this connection has generated; names the next one. */
    var generated: nat

    /** A pending offer is the description on the side that made it. */
    ghost predicate Valid()
      reads this
    {
      && (signaling == HaveLocalOffer ==> local.Some? && local.value.sdpType == OfferType)
      && (signaling == HaveRemoteOffer ==> remote.Some? && remote.value.sdpType == OfferType)
    }

    /** `createPeerConnection(onTrack)`: one STUN server, the track handler installed. */
    constructor ()
      ensures Valid()
      ensures iceServers == [GoogleStun] && hasTrackHandler
      ensures signaling == Stable && !closed
      ensures local == None && remote == None
      ensures senders == [] && candidates == [] && generated == 0
    {
      iceServers := [GoogleStun];
      hasTrackHandler := false;
      signaling := Stable;
      closed := false;
      local, remote := None, None;
      senders, candidates := [], [];
      generated := 0;
      new;
      hasTrackHandler := true;
    }

    /** `pc.createOffer()`: a new offer, nothing installed yet. */
    method GenerateOffer() returns (r: Result<SessionDescription, RtcError>)
      modifies this`generated
      ensures r.Failure? <==> closed || signaling == HaveRemoteOffer
      ensures r.Failure? ==> r.error == InvalidStateError && generated == old(generated)
      ensures r.Success? ==> r.value == SessionDescription(OfferType, old(generated)) && generated == old(generated) + 1
    {
      if closed || signaling == HaveRemoteOffer {
        return Failure(InvalidStateError);
      }
      r := Success(SessionDescription(OfferType, generated));
      generated := generated + 1;
    }

    /** `pc.createAnswer()`: only while a remote offer awaits an answer. */
    method GenerateAnswer() returns (r: Result<SessionDescription, RtcError>)
      modifies this`generated
      ensures r.Failure? <==> closed || signaling != HaveRemoteOffer
      ensures r.Failure? ==> r.error == InvalidStateError && generated == old(generated)
      ensures r.Success? ==> r.value == SessionDescription(AnswerType, old(generated)) && generated == old(generated) + 1
    {
      if closed || signaling != HaveRemoteOffer {
        return Failure(InvalidStateError);
      }
      r := Success(SessionDescription(AnswerType, generated));
      generated := generated + 1;
    }

    /** Would setting `d` on `side` be accepted in the current state? */
    predicate CanSet(side: Side, d: SessionDescription)
      reads this
    {
      !closed && NextState(signaling, side, d.sdpType).Some?
    }

    /** `setLocalDescription(d)` / `setRemoteDescription(d)`. */
    method SetDescription(side: Side, d: SessionDescription) returns (r: Outcome<RtcError>)
      requires Valid()
      modifies this`signaling, this`local, this`remote
      ensures Valid()
      ensures r.Pass? <==> old(CanSet(side, d))
      ensures r.Fail? ==> r.error == InvalidStateError && signaling == old(signaling) && local == old(local) && remote == old(remote)
      ensures r.Pass? ==> signaling == NextState(old(signaling), side, d.sdpType).value
      ensures r.Pass? && side == Local ==> local == Some(d) && remote == old(remote)
      ensures r.Pass? && side == Remote ==> remote == Some(d) && local == old(local)
    {
      if closed {
        return Fail(InvalidStateError);
      }
      var next := NextState(signaling, side, d.sdpType);
      if next.None? {
        return Fail(InvalidStateError);
      }
      signaling := next.value;
      if side == Local {
        local := Some(d);
      } else {
        remote := Some(d);
      }
      r := Pass;
    }

    /** `addIceCandidate(c)`: rejected on a closed connection or before any remote description. */
    method AddIceCandidate(c: IceCandidate) returns (r: Outcome<RtcError>)
      modifies this`candidates
      ensures r.Pass? <==> !closed && remote.Some?
      ensures r.Fail? ==> r.error == InvalidStateError && candidates == old(candidates)
      ensures r.Pass? ==> candidates == old(candidates) + [c]
    {
      if closed || remote.None? {
        return Fail(InvalidStateError);
      }
      candidates := candidates + [c];
      r := Pass;
    }

    /** `addTrack(t, stream)`: rejected on a closed connection or for a track that already has a sender. */
    method AddTrack(t: nat) returns (r: Outcome<RtcError>)
      modifies this`senders
      ensures r.Pass? <==> !closed && t !in old(senders)
      ensures r.Fail? ==> senders == old(senders)
      ensures r.Fail? ==> r.error == (if closed then InvalidStateError else InvalidAccessError)
      ensures r.Pass? ==> senders == old(senders) + [t]
    {
      if closed {
        return Fail(InvalidStateError);
      }
      if t in senders {
        return Fail(InvalidAccessError);
      }
      senders := senders + [t];
      r := Pass;
    }

    /** `close()`: idempotent. */
    method Close()
      modifies this`closed
      ensures closed
    {
      closed := true;
    }
  }

  /**
   * `createOffer(pc)`: generate an offer, install it as the local description and
   * return it. A rejected step skips the rest and is handed to the caller.
   */
  method CreateOffer(pc: PeerConnection) returns (r: Result<SessionDescription, RtcError>)
    requires pc.Valid()
    modifies pc
    ensures pc.Valid()
    ensures r.Success? <==> !old(pc.closed) && (old(pc.signaling) == Stable || old(pc.signaling) == HaveLocalOffer)
    ensures r.Success? ==> && r.value.sdpType == OfferType
                            && pc.local == Some(r.value)
                            && pc.signaling == HaveLocalOffer
    ensures r.Failure? ==> pc.signaling == old(pc.signaling) && pc.local == old(pc.local)
    ensures pc.remote == old(pc.remote) && pc.closed == old(pc.closed)
    ensures pc.senders == old(pc.senders) && pc.candidates == old(pc.candidates)
    ensures pc.hasTrackHandler == old(pc.hasTrackHandler)
  {
    var offer := pc.GenerateOffer();
    if offer.Failure? {
      return Failure(offer.error);
    }
    // an offer generated outside have-remote-offer is always accepted locally
    var installed := pc.SetDescription(Local, offer.value);
    assert installed.Pass?;
    r := offer;
  }

  /**
   * `acceptOffer(pc, offer)`: install the remote offer, then generate an answer and
   * install it as local; return that answer.
   */
  method AcceptOffer(pc: PeerConnection, offer: SessionDescription) returns (r: Result<SessionDescription, RtcError>)
    requires pc.Valid()
    modifies pc
    ensures pc.Valid()
    ensures r.Success? <==> && !old(pc.closed) && offer.sdpType == OfferType
                            && (old(pc.signaling) == Stable || old(pc.signaling) == HaveRemoteOffer)
    ensures r.Success? ==> && r.value.sdpType == AnswerType
                            && pc.remote == Some(offer)
                            && pc.local == Some(r.value)
                            && pc.signaling == Stable
    // the remote description is set first, so it stays set even when answering then fails
    ensures r.Failure? ==> if old(pc.CanSet(Remote, offer))
                           then pc.remote == Some(offer) && pc.local == old(pc.local)
                                && pc.signaling == NextState(old(pc.signaling), Remote, offer.sdpType).value
                           else pc.remote == old(pc.remote) && pc.local == old(pc.local) && pc.signaling == old(pc.signaling)
    ensures pc.closed == old(pc.closed)
    ensures pc.senders == old(pc.senders) && pc.candidates == old(pc.candidates)
    ensures pc.hasTrackHandler == old(pc.hasTrackHandler)
  {
    var installed := pc.SetDescription(Remote, offer);
    if installed.Fail? {
      return Failure(installed.error);
    }
    var answer := pc.GenerateAnswer();
    if answer.Failure? {
      return Failure(answer.error);
    }
    // an answer generated in have-remote-offer is always accepted locally
    var setLocal := pc.SetDescription(Local, answer.value);
    assert setLocal.Pass?;
    r := answer;
  }

  /** `acceptAnswer(pc, answer)`: set the remote description and nothing else. */
  method AcceptAnswer(pc: PeerConnection, answer: SessionDescription) returns (r: Outcome<RtcError>)
    requires pc.Valid()
    modifies pc
    ensures pc.Valid()
    ensures r.Pass? <==> old(pc.CanSet(Remote, answer))
    ensures r.Pass? ==> pc.remote == Some(answer) && pc.signaling == NextState(old(pc.signaling), Remote, answer.sdpType).value
    ensures r.Fail? ==> pc.remote == old(pc.remote) && pc.signaling == old(pc.signaling)
    ensures pc.local == old(pc.local) && pc.generated == old(pc.generated) && pc.closed == old(pc.closed)
    ensures pc.senders == old(pc.senders) && pc.candidates == old(pc.candidates)
    ensures pc.hasTrackHandler == old(pc.hasTrackHandler)
  {
    r := pc.SetDescription(Remote, answer);
  }

  /**
   * One offer/answer exchange over the diagram: the caller sets its offer locally,
   * the callee sets it remotely and answers locally, the caller sets the answer
   * remotely; both ends are back in stable, and no other order of those four steps
   * from stable is accepted for the answer.
   */
  lemma OfferAnswerExchange()
    ensures NextState(Stable, Local, OfferType) == Some(HaveLocalOffer)
    ensures NextState(Stable, Remote, OfferType) == Some(HaveRemoteOffer)
    ensures NextState(HaveRemoteOffer, Local, AnswerType) == Some(Stable)
    ensures NextState(HaveLocalOffer, Remote, AnswerType) == Some(Stable)
    ensures forall side :: NextState(Stable, side, AnswerType).None?
  {
  }

  /** Every accepted transition keeps offers and answers alternating: an answer always closes a pending offer. */
  lemma {:induction false} AnswerClosesOffer(st: SignalingState, side: Side)
    ensures NextState(st, side, AnswerType).Some? ==> st != Stable
    ensures NextState(st, side, OfferType).Some? ==> NextState(NextState(st, side, OfferType).value, Opposite(side), AnswerType) == Some(Stable)
  {
  }
}
