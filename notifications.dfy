/**
 * The ring listener: on the signed-in user's own topic, a ring carrying a call id
 * raises a notification whose Accept action opens that call's page.
 */
module Notifications {
  import opened Wrappers
  import opened Signaling

  const CallRoutePrefix := "/call/"

  /** The page of call `callId`. */
  function CallRoute(callId: string): (r: string)
    ensures |r| == |CallRoutePrefix| + |callId|
    ensures r[..|CallRoutePrefix|] == CallRoutePrefix && r[|CallRoutePrefix|..] == callId
  {
    CallRoutePrefix + callId
  }

  /** The channel the listener subscribes to: none without a user, else the user's own topic. */
  function ListenChannel(user: Option<string>): (ch: Option<Channel>)
    ensures ch.Some? <==> user.Some?
    ensures ch.Some? ==> ch.value.topic == UserTopic(user.value) && ch.value.event == NotifyEvent
  {
    if user.Some? then Some(CreateUserChannel(user.value)) else None
  }

  /**
   * The handler: the route a notification's Accept action navigates to, or `None`
   * when the payload raises no notification. Only a ring with a non-empty call id
   * does; the sender is not looked at.
   */
  function RingRoute(p: SignalPayload): (r: Option<string>)
    ensures r.Some? <==> p.kind == Ring && p.callId.Some? && p.callId.value != ""
    ensures r.Some? ==> r.value == CallRoute(p.callId.value)
  {
    if p.kind == Ring && p.callId.Some? && p.callId.value != "" then Some(CallRoute(p.callId.value)) else None
  }

  /** Different calls open different pages: the route identifies the call. */
  lemma CallRouteInjective(a: string, b: string)
    requires CallRoute(a) == CallRoute(b)
    ensures a == b
  {
    assert a == CallRoute(a)[|CallRoutePrefix|..];
  }

  /** Whatever else a payload carries, only its tag and call id decide the route. */
  lemma RingRouteIgnoresSenderAndData(p: SignalPayload, from: string, to: Option<string>, data: Option<Data>)
    ensures RingRoute(p.(from := from, to := to, data := data)) == RingRoute(p)
  {
  }
}
