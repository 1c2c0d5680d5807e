/**
 * The signalling vocabulary: the payload exchanged between participants, the
 * topic and event names of the two channel kinds, and the broadcast transport
 * abstracted as an outbound log and a set of subscribed topics.
 */
module Signaling {
  import opened Wrappers
  import WebRtc

  datatype SignalType = Ring | Offer | Answer | Ice | Hangup

  /** The untyped `data` field: a session description, an ICE candidate, or anything else. */
  datatype Data =
    | Sdp(description: WebRtc.SessionDescription)
    | Candidate(candidate: WebRtc.IceCandidate)
    | Other(value: nat)

  /** `SignalPayload`: a tag, a required sender, and optional target, call id and data. */
  datatype SignalPayload = SignalPayload(
    kind: SignalType,
    from: string,
    to: Option<string>,
    callId: Option<string>,
    data: Option<Data>)

  const CallPrefix := "call:"
  const UserPrefix := "user:"
  /** The broadcast event of a call topic. */
  const SignalEvent := "signal"
  /** The broadcast event of a user topic. */
  const NotifyEvent := "notify"

  /** The topic shared by the participants of one call. */
  function CallTopic(callId: string): (t: string)
    ensures |t| == |CallPrefix| + |callId| && t[..|CallPrefix|] == CallPrefix && t[|CallPrefix|..] == callId
  {
    CallPrefix + callId
  }

  /** The topic on which one user receives ring notifications. */
  function UserTopic(userId: string): (t: string)
    ensures |t| == |UserPrefix| + |userId| && t[..|UserPrefix|] == UserPrefix && t[|UserPrefix|..] == userId
  {
    UserPrefix + userId
  }

  /** A `supabase.channel(topic)` handle together with the broadcast event it sends and listens on. */
  datatype Channel = Channel(topic: string, event: string)

  /** `createCallChannel(callId)`. */
  function CreateCallChannel(callId: string): (ch: Channel)
    ensures ch.topic == CallTopic(callId) && ch.event == SignalEvent
  {
    Channel(CallTopic(callId), SignalEvent)
  }

  /** `createUserChannel(userId)`. */
  function CreateUserChannel(userId: string): (ch: Channel)
    ensures ch.topic == UserTopic(userId) && ch.event == NotifyEvent
  {
    Channel(UserTopic(userId), NotifyEvent)
  }

  /** One `channel.send({ type: "broadcast", event, payload })`, as it leaves the client. */
  datatype Envelope = Envelope(topic: string, event: string, payload: SignalPayload)

  /** What `send` / `notify` on `ch` broadcasts: the payload object, unchanged. */
  function Wrap(ch: Channel, p: SignalPayload): (e: Envelope)
    ensures e.topic == ch.topic && e.event == ch.event && e.payload == p
  {
    Envelope(ch.topic, ch.event, p)
  }

  /**
   * What the handler that `subscribe` registers on `ch` is called with when `e` is
   * broadcast: the inner payload, whoever sent it, when topic and event match.
   */
  function Deliver(ch: Channel, e: Envelope): (r: Option<SignalPayload>)
    ensures r.Some? <==> e.topic == ch.topic && e.event == ch.event
    ensures r.Some? ==> r.value == e.payload
  {
    if e.topic == ch.topic && e.event == ch.event then Some(e.payload) else None
  }

  /** The realtime client: everything broadcast from this client, and the topics it listens on. */
  class Transport {
    var outbox: seq<Envelope>
    var subscribed: set<string>

    constructor ()
      ensures outbox == [] && subscribed == {}
    {
      outbox := [];
      subscribed := {};
    }

    /** `send(payload)` / `notify(payload)` on channel `ch`. */
    method Send(ch: Channel, p: SignalPayload)
      modifies this`outbox
      ensures outbox == old(outbox) + [Wrap(ch, p)]
    {
      outbox := outbox + [Wrap(ch, p)];
    }

    /** `subscribe(onMessage)`: binds the channel's topic. */
    method Subscribe(ch: Channel)
      modifies this`subscribed
      ensures subscribed == old(subscribed) + {ch.topic}
    {
      subscribed := subscribed + {ch.topic};
    }

    /** The returned unsubscribe: `removeChannel`, which releases the whole topic binding. */
    method RemoveChannel(ch: Channel)
      modifies this`subscribed
      ensures subscribed == old(subscribed) - {ch.topic}
    {
      subscribed := subscribed - {ch.topic};
    }
  }

  /** Different calls have different topics. */
  lemma CallTopicInjective(a: string, b: string)
    requires CallTopic(a) == CallTopic(b)
    ensures a == b
  {
    assert a == CallTopic(a)[|CallPrefix|..];
  }

  /** Different users have different topics. */
  lemma UserTopicInjective(a: string, b: string)
    requires UserTopic(a) == UserTopic(b)
    ensures a == b
  {
    assert a == UserTopic(a)[|UserPrefix|..];
  }

  /** A call topic is never a user topic, whatever the ids. */
  lemma TopicKindsDisjoint(callId: string, userId: string)
    ensures CallTopic(callId) != UserTopic(userId)
  {
    assert CallTopic(callId)[0] == 'c' && UserTopic(userId)[0] == 'u';
  }

  /** What a channel sends, a subscriber of the same channel receives unchanged. */
  lemma SendDeliverRoundTrip(ch: Channel, p: SignalPayload)
    ensures Deliver(ch, Wrap(ch, p)) == Some(p)
  {
  }

  /** A call-topic listener never hears a ring sent on a user topic, and vice versa. */
  lemma ChannelKindsIsolated(callId: string, userId: string, p: SignalPayload)
    ensures Deliver(CreateCallChannel(callId), Wrap(CreateUserChannel(userId), p)) == None
    ensures Deliver(CreateUserChannel(userId), Wrap(CreateCallChannel(callId), p)) == None
  {
    TopicKindsDisjoint(callId, userId);
  }

  /** A listener on call `a` hears a message sent for call `b` only when `a` is `b`. */
  lemma CallsIsolated(a: string, b: string, p: SignalPayload)
    ensures Deliver(CreateCallChannel(a), Wrap(CreateCallChannel(b), p)).Some? <==> a == b
  {
    if CallTopic(a) == CallTopic(b) {
      CallTopicInjective(a, b);
    }
  }
}
