/**
 * The overlay settings panel: four permission flags that successful requests set,
 * the overlay and auto-detection switches, and what the panel shows for them.
 * Device acquisition is given as its outcome.
 */
module OverlaySettings {

  datatype Permissions = Permissions(camera: bool, microphone: bool, screenCapture: bool, accessibility: bool)

  const NoPermissions := Permissions(false, false, false, false)

  /** The keys of the permission list, with whether each is marked required. */
  const PermissionList: seq<(string, bool)> :=
    [("camera", true), ("microphone", false), ("screenCapture", true), ("accessibility", true)]

  /** The keys whose request goes through a device call. */
  predicate IsDeviceKey(key: string) {
    key == "camera" || key == "microphone" || key == "screenCapture"
  }

  predicate IsKnownKey(key: string) {
    IsDeviceKey(key) || key == "accessibility"
  }

  /** `permissions[key]`, false for an unknown key. */
  function Flag(p: Permissions, key: string): bool {
    match key
    case "camera" => p.camera
    case "microphone" => p.microphone
    case "screenCapture" => p.screenCapture
    case "accessibility" => p.accessibility
    case _ => false
  }

  /** Every flag of `p` is also set in `q`. */
  predicate Below(p: Permissions, q: Permissions) {
    && (p.camera ==> q.camera)
    && (p.microphone ==> q.microphone)
    && (p.screenCapture ==> q.screenCapture)
    && (p.accessibility ==> q.accessibility)
  }

  /**
   * The permissions after `requestPermission(key)` whose device call succeeded when
   * `acquired`: that one flag is set; accessibility is set with no device call; a
   * failed call or an unknown key changes nothing.
   */
  function AfterRequest(p: Permissions, key: string, acquired: bool): (r: Permissions)
    ensures Below(p, r)
    ensures (key == "accessibility" || (IsDeviceKey(key) && acquired)) ==> Flag(r, key)
    ensures forall k :: k != key ==> Flag(r, k) == Flag(p, k)
    ensures (!IsKnownKey(key) || (IsDeviceKey(key) && !acquired)) ==> r == p
  {
    match key
    case "camera" => if acquired then p.(camera := true) else p
    case "microphone" => if acquired then p.(microphone := true) else p
    case "screenCapture" => if acquired then p.(screenCapture := true) else p
    case "accessibility" => p.(accessibility := true)
    case _ => p
  }

  /** One request: the key and whether its device call would succeed. */
  datatype Request = Request(key: string, acquired: bool)

  function AfterRequests(p: Permissions, rs: seq<Request>): Permissions
    decreases |rs|
  {
    if rs == [] then p else AfterRequests(AfterRequest(p, rs[0].key, rs[0].acquired), rs[1..])
  }

  /** No sequence of requests clears a flag. */
  lemma {:induction false} RequestsMonotone(p: Permissions, rs: seq<Request>)
    ensures Below(p, AfterRequests(p, rs))
    decreases |rs|
  {
    if rs != [] {
      RequestsMonotone(AfterRequest(p, rs[0].key, rs[0].acquired), rs[1..]);
    }
  }

  datatype Notice = Granted(key: string) | GrantFailed(key: string)

  class OverlaySettings {
    var overlayEnabled: bool
    var autoDetection: bool
    var permissions: Permissions
    var notices: seq<Notice>

    constructor ()
      ensures !overlayEnabled && autoDetection && permissions == NoPermissions && notices == []
      ensures ShowsWarning() && forall i :: 0 <= i < |PermissionList| ==> OffersGrant(PermissionList[i].0)
    {
      overlayEnabled := false;
      autoDetection := true;
      permissions := NoPermissions;
      notices := [];
    }

    /** `requestPermission(key)`, the device call resolving when `acquired`. */
    method RequestPermission(key: string, acquired: bool)
      modifies this`permissions, this`notices
      ensures permissions == AfterRequest(old(permissions), key, acquired)
      ensures notices == old(notices) +
                (if key == "accessibility" || (IsDeviceKey(key) && acquired) then [Granted(key)]
                 else if IsDeviceKey(key) then [GrantFailed(key)]
                 else [])
      // a granted key loses its Grant button; every other key keeps whatever it showed
      ensures key == "accessibility" || (IsDeviceKey(key) && acquired) ==> !OffersGrant(key)
      ensures forall k :: k != key ==> (OffersGrant(k) <==> old(OffersGrant(k)))
    {
      permissions := AfterRequest(permissions, key, acquired);
      if key == "accessibility" || (IsDeviceKey(key) && acquired) {
        notices := notices + [Granted(key)];
      } else if IsDeviceKey(key) {
        notices := notices + [GrantFailed(key)];
      }
    }

    method SetOverlayEnabled(on: bool)
      modifies this`overlayEnabled
      ensures overlayEnabled == on
      ensures ShowsWarning() <==> !on
    {
      overlayEnabled := on;
    }

    method SetAutoDetection(on: bool)
      modifies this`autoDetection
      ensures autoDetection == on
    {
      autoDetection := on;
    }

    /** The Grant button is offered for a key exactly while its flag is false. */
    predicate OffersGrant(key: string)
      reads this
      ensures key == "camera" ==> (OffersGrant(key) <==> !permissions.camera)
      ensures key == "microphone" ==> (OffersGrant(key) <==> !permissions.microphone)
      ensures key == "screenCapture" ==> (OffersGrant(key) <==> !permissions.screenCapture)
      ensures key == "accessibility" ==> (OffersGrant(key) <==> !permissions.accessibility)
    {
      !Flag(permissions, key)
    }

    /** The "Overlay Disabled" warning shows exactly while the overlay is off. */
    predicate ShowsWarning()
      reads this
    {
      !overlayEnabled
    }
  }
}
