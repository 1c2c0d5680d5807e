/**
 * The live preview: a named CSS filter preset shown on the camera video, and the
 * camera on/off state. Camera acquisition is given as its result.
 */
module VideoPreview {
  import opened Wrappers
  import opened Media

  /** The preset buttons, in order; "none" is labelled "Original". */
  const PresetNames: seq<string> := ["none", "vintage", "cool", "warm", "dramatic", "soft"]

  /** `getFilterStyle()` for the current preset name. */
  function FilterStyle(name: string): (style: string)
    ensures name == "vintage" ==> style == "sepia(100%) contrast(120%) brightness(90%)"
    ensures name == "cool" ==> style == "hue-rotate(180deg) saturate(120%)"
    ensures name == "warm" ==> style == "hue-rotate(-30deg) saturate(110%) brightness(110%)"
    ensures name == "dramatic" ==> style == "contrast(150%) brightness(90%) saturate(130%)"
    ensures name == "soft" ==> style == "blur(1px) brightness(110%) contrast(90%)"
    ensures style == "none" <==> name !in PresetNames[1..]
  {
    match name
    case "vintage" => "sepia(100%) contrast(120%) brightness(90%)"
    case "cool" => "hue-rotate(180deg) saturate(120%)"
    case "warm" => "hue-rotate(-30deg) saturate(110%) brightness(110%)"
    case "dramatic" => "contrast(150%) brightness(90%) saturate(130%)"
    case "soft" => "blur(1px) brightness(110%) contrast(90%)"
    case _ => "none"
  }

  /** The five styled presets all look different: the style determines the preset. */
  lemma FilterStyleInjective(a: string, b: string)
    requires a in PresetNames[1..] && b in PresetNames[1..]
    requires FilterStyle(a) == FilterStyle(b)
    ensures a == b
  {
  }

  datatype Notice = CameraConnected | CameraUnavailable | FilterApplied(name: string)

  class VideoPreview {
    var isPlaying: bool
    var currentFilter: string
    /** `videoRef.current` is set (the element is mounted). */
    var hasElement: bool
    /** The video element's `srcObject`. */
    var srcObject: Option<Stream>
    /** Tracks on which `stop()` has been called. */
    var stoppedTracks: set<nat>
    var notices: seq<Notice>

    /** The preview as mounted: camera off, no filter. */
    constructor ()
      ensures !isPlaying && currentFilter == "none" && hasElement && srcObject == None
      ensures stoppedTracks == {} && notices == []
    {
      isPlaying := false;
      currentFilter := "none";
      hasElement := true;
      srcObject := None;
      stoppedTracks := {};
      notices := [];
    }

    /**
     * The style applied to the video element: a real filter exactly for the five
     * styled presets, and never without the badge.
     */
    function Style(): (style: string)
      reads this
      ensures style != "none" <==> currentFilter in PresetNames[1..]
      ensures style != "none" ==> ShowsBadge()
    {
      FilterStyle(currentFilter)
    }

    /**
     * The badge naming the filter shows exactly when a filter other than "none" is
     * chosen; for the preset buttons, exactly when the video is styled.
     */
    predicate ShowsBadge()
      reads this
      ensures currentFilter in PresetNames ==> (ShowsBadge() <==> FilterStyle(currentFilter) != "none")
    {
      currentFilter != "none"
    }

    /** `applyFilter(name)`: the name becomes the current filter as given. */
    method ApplyFilter(name: string)
      modifies this`currentFilter, this`notices
      ensures currentFilter == name && notices == old(notices) + [FilterApplied(name)]
      ensures ShowsBadge() <==> name != "none"
    {
      currentFilter := name;
      notices := notices + [FilterApplied(name)];
    }

    /**
     * `startCamera()`: `acquired` is what `getUserMedia` resolved to (`None`: it
     * rejected). Playing starts only with a stream and a mounted element.
     */
    method StartCamera(acquired: Option<Stream>)
      modifies this`srcObject, this`isPlaying, this`notices
      ensures acquired.None? ==> srcObject == old(srcObject) && isPlaying == old(isPlaying)
                                 && notices == old(notices) + [CameraUnavailable]
      ensures acquired.Some? && !hasElement ==> srcObject == old(srcObject) && isPlaying == old(isPlaying)
                                                && notices == old(notices)
      ensures acquired.Some? && hasElement ==> srcObject == acquired && isPlaying
                                               && notices == old(notices) + [CameraConnected]
    {
      if acquired.None? {
        notices := notices + [CameraUnavailable];
        return;
      }
      if hasElement {
        srcObject := acquired;
        isPlaying := true;
        notices := notices + [CameraConnected];
      }
    }

    /** `stopCamera()`: with an attached stream, stop each of its tracks, detach it, stop playing. */
    method StopCamera()
      modifies this`srcObject, this`isPlaying, this`stoppedTracks
      ensures !(hasElement && old(srcObject).Some?) ==>
                srcObject == old(srcObject) && isPlaying == old(isPlaying) && stoppedTracks == old(stoppedTracks)
      ensures hasElement && old(srcObject).Some? ==>
                && srcObject == None && !isPlaying
                && stoppedTracks == old(stoppedTracks) + set t | t in old(srcObject).value.tracks
    {
      if !hasElement || srcObject.None? {
        return;
      }
      var tracks := srcObject.value.tracks;
      var i := 0;
      while i < |tracks|
        invariant 0 <= i <= |tracks|
        invariant stoppedTracks == old(stoppedTracks) + set t | t in tracks[..i]
      {
        assert tracks[..i + 1] == tracks[..i] + [tracks[i]];
        stoppedTracks := stoppedTracks + {tracks[i]};
        i := i + 1;
      }
      assert tracks[..i] == tracks;
      srcObject := None;
      isPlaying := false;
    }

    /** `toggleCamera()`: stop while playing, start otherwise. */
    method ToggleCamera(acquired: Option<Stream>)
      modifies this`srcObject, this`isPlaying, this`stoppedTracks, this`notices
      // playing: exactly what StopCamera does
      ensures old(isPlaying) ==> notices == old(notices)
      ensures old(isPlaying) && !(hasElement && old(srcObject).Some?) ==>
                srcObject == old(srcObject) && isPlaying && stoppedTracks == old(stoppedTracks)
      ensures old(isPlaying) && hasElement && old(srcObject).Some? ==>
                && srcObject == None && !isPlaying
                && stoppedTracks == old(stoppedTracks) + set t | t in old(srcObject).value.tracks
      // not playing: exactly what StartCamera does
      ensures !old(isPlaying) ==> stoppedTracks == old(stoppedTracks)
      ensures !old(isPlaying) && acquired.None? ==>
                srcObject == old(srcObject) && !isPlaying && notices == old(notices) + [CameraUnavailable]
      ensures !old(isPlaying) && acquired.Some? && !hasElement ==>
                srcObject == old(srcObject) && !isPlaying && notices == old(notices)
      ensures !old(isPlaying) && acquired.Some? && hasElement ==>
                srcObject == acquired && isPlaying && notices == old(notices) + [CameraConnected]
    {
      if isPlaying {
        StopCamera();
      } else {
        StartCamera(acquired);
      }
    }
  }
}
