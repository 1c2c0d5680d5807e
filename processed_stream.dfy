/**
 * The frame pipeline hook: for each source capture, an off-screen canvas sized
 * from the source's first video track, a self-rescheduling draw loop started by
 * `loadedmetadata`, and one published output stream; cleanup stops all of it.
 * Animation-frame requests are abstracted to numbered requests that fire or are
 * cancelled; pixels are not modelled.
 */
module ProcessedStream {
  import opened Wrappers

  /** `track.getSettings()`: width and height may be absent. */
  datatype TrackSettings = TrackSettings(width: Option<int>, height: Option<int>)

  /** A source capture: its identity and the settings of its video tracks, in order. */
  datatype Source = Source(id: nat, videoTracks: seq<TrackSettings>)

  const DefaultWidth := 1280
  const DefaultHeight := 720

  /** `(value as number) || fallback`: an absent or zero value falls back; any other value is kept. */
  function OrDefault(v: Option<int>, fallback: int): (r: int)
    ensures v.None? || v.value == 0 ==> r == fallback
    ensures v.Some? && v.value != 0 ==> r == v.value
  {
    if v.Some? && v.value != 0 then v.value else fallback
  }

  /**
   * The canvas width and height: those of the first video track's settings, with
   * 1280 x 720 standing in for a missing track, a missing setting or a zero.
   */
  function CanvasSize(src: Source): (size: (int, int))
    ensures size.0 != 0 && size.1 != 0
    ensures |src.videoTracks| == 0 ==> size == (DefaultWidth, DefaultHeight)
    ensures |src.videoTracks| > 0 && src.videoTracks[0].width.Some? && src.videoTracks[0].width.value != 0 ==>
              size.0 == src.videoTracks[0].width.value
    ensures |src.videoTracks| > 0 && src.videoTracks[0].height.Some? && src.videoTracks[0].height.value != 0 ==>
              size.1 == src.videoTracks[0].height.value
    ensures size.0 != DefaultWidth ==> |src.videoTracks| > 0 && src.videoTracks[0].width == Some(size.0)
    ensures size.1 != DefaultHeight ==> |src.videoTracks| > 0 && src.videoTracks[0].height == Some(size.1)
  {
    if |src.videoTracks| == 0 then (DefaultWidth, DefaultHeight)
    else (OrDefault(src.videoTracks[0].width, DefaultWidth), OrDefault(src.videoTracks[0].height, DefaultHeight))
  }

  /** `filter || "none"`: the context filter of a draw. */
  function ContextFilter(filter: string): (f: string)
    ensures f != ""
    ensures filter != "" ==> f == filter
    ensures filter == "" ==> f == "none"
  {
    if filter == "" then "none" else filter
  }

  /** One draw attempt of the loop: the context filter it set, and whether `drawImage` returned. */
  datatype Draw = Draw(filter: string, ok: bool)

  /** The state of one run of the source effect: its closure variables and what it created. */
  class Pipeline {
    const source: Source
    /** The filter value in scope when the effect ran; later values never reach it. */
    const filter: string
    const width: int
    const height: int
    /** The identity of the stream `captureStream` returned. */
    const outputId: nat
    var stopped: bool
    /** The closure's `raf`: the last request id it was handed (0 before any). */
    var raf: nat
    /** This pipeline's animation-frame requests that have neither fired nor been cancelled. */
    var pending: set<nat>
    /** The id the next `requestAnimationFrame` returns. */
    var nextRequest: nat
    /** `onLoaded` is attached to the video element. */
    var listening: bool
    /** `loadedmetadata` has reached `onLoaded`. */
    ghost var loaded: bool
    var draws: seq<Draw>
    /** Whether each track of the output stream is still live. */
    var outputLive: seq<bool>

    ghost predicate Valid()
      reads this
    {
      && pending <= {raf}
      && |pending| <= 1
      && raf < nextRequest
      && (stopped ==> pending == {} && !listening)
      // nothing is scheduled or drawn before the metadata has loaded
      && (pending != {} || draws != [] ==> loaded)
    }

    /**
     * The effect body for a non-null source: size the canvas, reset the closure
     * variables, attach `onLoaded`, capture one output stream of one video track.
     * Nothing is scheduled yet.
     */
    constructor (source: Source, filter: string, outputId: nat)
      ensures Valid()
      ensures this.source == source && this.filter == filter && this.outputId == outputId
      ensures (width, height) == CanvasSize(source)
      ensures !stopped && raf == 0 && pending == {} && listening && !loaded
      ensures draws == [] && outputLive == [true]
    {
      this.source := source;
      this.filter := filter;
      this.outputId := outputId;
      width := CanvasSize(source).0;
      height := CanvasSize(source).1;
      stopped := false;
      raf := 0;
      pending := {};
      nextRequest := 1;
      listening := true;
      loaded := false;
      draws := [];
      outputLive := [true];
    }

    /** `requestAnimationFrame(render)`, storing the id in `raf`. */
    method Request()
      requires Valid() && pending == {} && !stopped && loaded
      modifies this`raf, this`pending, this`nextRequest
      ensures Valid()
      ensures pending == {raf} && raf == old(nextRequest)
    {
      raf := nextRequest;
      pending := {raf};
      nextRequest := nextRequest + 1;
    }

    /**
     * The `loadedmetadata` event. While `onLoaded` is attached it cancels the
     * outstanding request, if any, and schedules exactly one new one.
     */
    method OnLoaded()
      requires Valid()
      modifies this`raf, this`pending, this`nextRequest, this`loaded
      ensures Valid()
      ensures old(listening) ==> loaded && |pending| == 1 && pending == {raf} && raf == old(nextRequest)
      ensures !old(listening) ==> raf == old(raf) && pending == old(pending) && nextRequest == old(nextRequest)
                                  && loaded == old(loaded)
    {
      if !listening {
        return;
      }
      loaded := true;
      pending := pending - {raf};
      Request();
    }

    /**
     * The pending request fires `render`; after cleanup a frame already dispatched may
     * still arrive. A stopped pipeline returns at once; otherwise it draws once with
     * the captured filter and reschedules, whether or not the draw threw.
     */
    method Tick(drawOk: bool)
      requires Valid() && (stopped || raf in pending)
      modifies this`raf, this`pending, this`nextRequest, this`draws
      ensures Valid()
      ensures old(stopped) ==> pending == {} && draws == old(draws) && raf == old(raf)
      ensures !old(stopped) ==>
                && draws == old(draws) + [Draw(ContextFilter(filter), drawOk)]
                && |pending| == 1 && pending == {raf} && raf == old(nextRequest)
      ensures draws != old(draws) ==> loaded
    {
      pending := {};
      if stopped {
        return;
      }
      draws := draws + [Draw(ContextFilter(filter), drawOk)];
      Request();
    }

    /**
     * The effect's cleanup: set `stopped`, cancel the outstanding request, detach
     * `onLoaded`, and stop every track of the output stream.
     */
    method Cleanup()
      requires Valid()
      modifies this`stopped, this`pending, this`listening, this`outputLive
      ensures Valid()
      ensures stopped && pending == {} && !listening
      ensures |outputLive| == |old(outputLive)|
      ensures forall i :: 0 <= i < |outputLive| ==> !outputLive[i]
    {
      stopped := true;
      pending := pending - {raf};
      listening := false;
      var i := 0;
      while i < |outputLive|
        invariant 0 <= i <= |outputLive| == |old(outputLive)|
        invariant forall k :: 0 <= k < i ==> !outputLive[k]
        invariant stopped && pending == {} && !listening
      {
        outputLive := outputLive[i := false];
        i := i + 1;
      }
    }
  }

  /** The hook `useProcessedStream(source, filter)` across renders. */
  class ProcessedStreamHook {
    /** The source effect has run at least once. */
    var rendered: bool
    /** The `source` dependency seen at the last render. */
    var lastSource: Option<Source>
    /** The pipeline whose cleanup is registered, if the last run created one. */
    var current: Pipeline?
    /** The `processed` state: the identity of the published output stream. */
    var processed: Option<nat>
    /** Every `setProcessed` call, in order. */
    var published: seq<nat>
    /** How many output streams have been captured; names the next one. */
    var captured: nat

    ghost predicate Valid()
      reads this, current
    {
      && (current != null ==> current.Valid() && !current.stopped && processed == Some(current.outputId)
                              && rendered && lastSource == Some(current.source))
      && (forall i :: 0 <= i < |published| ==> published[i] < captured)
      && (processed.Some? ==> |published| > 0 && processed.value == published[|published| - 1])
    }

    constructor ()
      ensures Valid()
      ensures !rendered && current == null && processed == None && published == [] && captured == 0
    {
      rendered := false;
      lastSource := None;
      current := null;
      processed := None;
      published := [];
      captured := 0;
    }

    /**
     * One render with these arguments. The source effect re-runs only when `source`
     * differs from the previous render's (or on the first render), after the previous
     * run's cleanup; a null source then creates nothing and publishes nothing. The
     * filter effect does nothing, so a new filter alone leaves the pipeline as it is.
     */
    method Render(source: Option<Source>, filter: string)
      requires Valid()
      modifies this, current
      ensures Valid()
      ensures rendered && lastSource == source
      ensures old(rendered) && source == old(lastSource) ==>
                && current == old(current) && processed == old(processed)
                && published == old(published) && captured == old(captured)
                && (current != null ==> unchanged(current))
      ensures !(old(rendered) && source == old(lastSource)) ==>
                && (old(current) != null ==>
                      && old(current).stopped && old(current).pending == {} && !old(current).listening
                      && forall i :: 0 <= i < |old(current).outputLive| ==> !old(current).outputLive[i])
                && (source.None? ==> current == null && processed == old(processed)
                                     && published == old(published) && captured == old(captured))
                && (source.Some? ==>
                      && current != null && fresh(current)
                      && current.source == source.value && current.filter == filter
                      && (current.width, current.height) == CanvasSize(source.value)
                      && current.outputId == old(captured) && captured == old(captured) + 1
                      && published == old(published) + [current.outputId]
                      && processed == Some(current.outputId)
                      && current.pending == {} && current.listening && !current.loaded && current.draws == [])
    {
      if rendered && source == lastSource {
        return;
      }
      if current != null {
        current.Cleanup();
      }
      rendered := true;
      lastSource := source;
      if source.None? {
        current := null;
        return;
      }
      current := new Pipeline(source.value, filter, captured);
      published := published + [captured];
      processed := Some(captured);
      captured := captured + 1;
    }
  }
}
