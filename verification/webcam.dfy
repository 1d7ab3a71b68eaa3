/**
 * The capture component: it owns the camera stream and the polling interval, shows the
 * start or the stop button, and forwards successful predictions to the store. The camera,
 * the browser's timer table and the HTTP call are inputs; one timer tick is one atomic
 * step whose closure-captured flags are explicit parameters.
 */
module Webcam {
  import opened Wrappers
  import opened Envelope
  import opened History
  import opened AppState

  /** The message shown when the camera cannot be opened. */
  const CameraError: string := "Kameraya erişim izni verilmedi veya kamera bulunamadı."

  /** A media track is live until it is stopped. */
  datatype TrackState = Live | Ended

  /** A camera stream and the state of each of its tracks. */
  class MediaStream {
    const tracks: array<TrackState>

    constructor (trackCount: nat)
      ensures fresh(tracks) && tracks.Length == trackCount
      ensures forall i :: 0 <= i < trackCount ==> tracks[i] == Live
    {
      tracks := new TrackState[trackCount](_ => Live);
    }
  }

  /** Every track of `s` has been stopped. */
  ghost predicate AllEnded(s: MediaStream)
    reads s.tracks
  {
    forall i :: 0 <= i < s.tracks.Length ==> s.tracks[i] == Ended
  }

  /** `stream.getTracks().forEach(track => track.stop())`. */
  method StopAllTracks(s: MediaStream)
    modifies s.tracks
    ensures AllEnded(s)
  {
    for i := 0 to s.tracks.Length
      invariant forall j :: 0 <= j < i ==> s.tracks[j] == Ended
    {
      s.tracks[i] := Ended;
    }
  }

  /** The browser's table of running intervals; ids start at 1, so every id is truthy. */
  class IntervalTable {
    var active: set<nat>
    var nextId: nat

    ghost predicate Valid()
      reads this
    {
      nextId >= 1 && forall id :: id in active ==> 1 <= id < nextId
    }

    constructor ()
      ensures Valid() && active == {}
    {
      active := {};
      nextId := 1;
    }

    /** `setInterval`: a new, positive id whose interval is now running. */
    method SetInterval() returns (id: nat)
      requires Valid()
      modifies this
      ensures Valid()
      ensures id >= 1 && id !in old(active) && active == old(active) + {id}
      ensures id == old(nextId) && nextId > id
    {
      id := nextId;
      active := active + {id};
      nextId := nextId + 1;
    }

    /** `clearInterval`: stop the interval with this id, if it runs. */
    method ClearInterval(id: nat)
      requires Valid()
      modifies this`active
      ensures Valid()
      ensures active == old(active) - {id}
    {
      active := active - {id};
    }
  }

  /** What `getUserMedia` gave: a stream, or a rejection. */
  datatype CameraResult = Granted(stream: MediaStream) | Denied

  /** How a frame submission ended: the parsed response body, or a thrown request. */
  datatype PostOutcome = Answered(data: PredictionBody) | Failed

  /** The control under the video: a start button, possibly disabled, or a stop button. */
  datatype Button = StartButton(enabled: bool) | StopButton

  /** The ids an optional interval reference points at. */
  function IdSet(ref: Option<nat>): set<nat>
  {
    if ref.Some? then {ref.value} else {}
  }

  /** The track arrays of an optional stream, as a frame. */
  function TracksOf(s: Option<MediaStream>): set<object>
  {
    if s.Some? then {s.value.tracks} else {}
  }

  /** At most one interval runs when every running interval is the one referenced. */
  lemma AtMostOneInterval(active: set<nat>, ref: Option<nat>)
    requires active <= IdSet(ref)
    ensures |active| <= 1
  {
    if ref.Some? && ref.value in active {
      assert active == {ref.value};
    } else {
      assert active == {};
    }
  }

  class WebcamCapture {
    /** The parent store: `onPrediction` is its `HandlePrediction`, `isConnected` its flag. */
    const app: App
    const timers: IntervalTable
    var isCapturing: bool
    var error: string
    var stream: Option<MediaStream>
    /** `intervalRef.current`. */
    var intervalRef: Option<nat>
    /** Every argument passed to `onPrediction`, in order. */
    ghost var emitted: seq<Option<PredictionBody>>

    /**
     * The component's invariant: every running interval is the referenced one, so at most
     * one runs; a stream is held exactly while capturing; and an idle component runs no
     * interval.
     */
    ghost predicate Valid()
      reads this, app, timers
    {
      && app.Valid()
      && timers.Valid()
      && timers.active <= IdSet(intervalRef)
      && (isCapturing <==> stream.Some?)
      && (!isCapturing ==> timers.active == {})
    }

    /** The state of a freshly mounted component. */
    constructor (app: App, timers: IntervalTable)
      requires app.Valid() && timers.Valid() && timers.active == {}
      ensures Valid() && this.app == app && this.timers == timers
      ensures !isCapturing && error == "" && stream == None && intervalRef == None && emitted == []
    {
      this.app := app;
      this.timers := timers;
      isCapturing := false;
      error := "";
      stream := None;
      intervalRef := None;
      emitted := [];
    }

    /**
     * The button the component renders: the start button while idle, enabled exactly when
     * the backend is connected, and the stop button while capturing.
     */
    function Shown(): (b: Button)
      reads this, app
      ensures b.StopButton? <==> isCapturing
      ensures b.StartButton? ==> (b.enabled <==> app.isConnected)
    {
      if !isCapturing then StartButton(app.isConnected) else StopButton
    }

    /** `startPrediction`: clear the interval the ref holds, then install a new one. */
    method StartPrediction()
      requires timers.Valid() && timers.active <= IdSet(intervalRef)
      modifies this`intervalRef, timers
      ensures timers.Valid()
      ensures intervalRef.Some? && intervalRef.value !in old(timers.active)
      ensures timers.active == {intervalRef.value}
    {
      if intervalRef.Some? {
        timers.ClearInterval(intervalRef.value);
      }
      var id := timers.SetInterval();
      intervalRef := Some(id);
    }

    /**
     * `startWebcam`: the error is cleared first; a granted stream is stored, capturing
     * begins and a single interval runs; a refused camera sets the fixed message and
     * changes nothing else.
     */
    method StartWebcam(camera: CameraResult)
      requires Valid()
      modifies this, timers
      ensures Valid()
      ensures emitted == old(emitted)
      ensures camera.Granted? ==>
        && error == ""
        && stream == Some(camera.stream)
        && isCapturing
        && intervalRef.Some?
        && intervalRef.value !in old(timers.active)
        && timers.active == {intervalRef.value}
      ensures camera.Denied? ==>
        && error == CameraError
        && isCapturing == old(isCapturing)
        && stream == old(stream)
        && intervalRef == old(intervalRef)
        && timers.active == old(timers.active)
    {
      error := "";
      match camera {
        case Denied =>
          error := CameraError;
        case Granted(s) =>
          stream := Some(s);
          isCapturing := true;
          StartPrediction();
      }
    }

    /**
     * `stopWebcam`: stop and drop the stream, clear the interval (the ref keeps the
     * cleared id), stop capturing, and pass `null` to `onPrediction` exactly once.
     */
    method StopWebcam()
      requires Valid()
      modifies this, app, timers, TracksOf(stream)
      ensures Valid()
      ensures stream == None && !isCapturing && timers.active == {}
      ensures intervalRef == old(intervalRef) && error == old(error)
      ensures old(stream).Some? ==> AllEnded(old(stream).value)
      ensures emitted == old(emitted) + [None]
      ensures app.currentPrediction == None
      ensures app.predictionHistory == old(app.predictionHistory)
      ensures app.isConnected == old(app.isConnected)
    {
      if stream.Some? {
        StopAllTracks(stream.value);
        stream := None;
      }
      if intervalRef.Some? {
        timers.ClearInterval(intervalRef.value);
      }
      isCapturing := false;
      app.HandlePrediction(None);
      emitted := emitted + [None];
    }

    /**
     * `sendFrameForPrediction`, one tick. `seenConnected` and `seenCapturing` are the flag
     * values the interval's closure holds, `frame` what `captureFrame` returned and `reply`
     * how the request ended. The frame is posted only when both flags hold and the frame
     * is present and non-empty (a truthy string); only a reply whose `success` is true reaches `onPrediction`; a failed request
     * changes nothing and sets no error.
     */
    method SendFrameForPrediction(seenConnected: bool, seenCapturing: bool, frame: Option<string>, reply: PostOutcome)
      returns (posted: Option<string>)
      requires Valid()
      modifies this`emitted, app
      ensures Valid()
      ensures posted == if seenConnected && seenCapturing && frame.Some? && frame.value != "" then frame else None
      ensures posted.Some? && reply.Answered? && reply.data.success ==>
        && emitted == old(emitted) + [Some(reply.data)]
        && app.currentPrediction == Some(reply.data)
        && app.predictionHistory == Record(old(app.predictionHistory), Some(reply.data))
        && app.isConnected == old(app.isConnected)
      ensures !(posted.Some? && reply.Answered? && reply.data.success) ==>
        emitted == old(emitted) && unchanged(app)
    {
      if !seenConnected || !seenCapturing {
        return None;
      }
      if frame.None? || frame.value == "" {
        return None;
      }
      posted := frame;
      if reply.Answered? && reply.data.success {
        app.HandlePrediction(Some(reply.data));
        emitted := emitted + [Some(reply.data)];
      }
    }

    /** The unmount cleanup: stop every track of a held stream and clear a referenced interval. */
    method Unmount()
      requires Valid()
      modifies timers, TracksOf(stream)
      ensures Valid()
      ensures stream.Some? ==> AllEnded(stream.value)
      ensures timers.active == {}
    {
      if stream.Some? {
        StopAllTracks(stream.value);
      }
      if intervalRef.Some? {
        timers.ClearInterval(intervalRef.value);
      }
    }

    /**
     * A click on the rendered button: a disabled start button does nothing, an enabled
     * one starts the camera, and the stop button stops it. Starting while capturing is
     * therefore impossible, and so is starting while disconnected.
     */
    method PressButton(camera: CameraResult)
      requires Valid()
      modifies this, app, timers, TracksOf(stream)
      ensures Valid()
      ensures old(Shown()) == StartButton(false) ==>
        && unchanged(this, app, timers)
        && unchanged(TracksOf(old(stream)))
      ensures old(Shown()) == StartButton(true) ==>
        && unchanged(app)
        && emitted == old(emitted)
        && (camera.Granted? ==>
              && isCapturing && stream == Some(camera.stream) && error == ""
              && intervalRef.Some? && intervalRef.value !in old(timers.active)
              && timers.active == {intervalRef.value})
        && (camera.Denied? ==>
              && !isCapturing && stream == None && error == CameraError
              && intervalRef == old(intervalRef) && timers.active == old(timers.active))
      ensures old(Shown()) == StopButton ==>
        && !isCapturing && stream == None && timers.active == {}
        && (old(stream).Some? ==> AllEnded(old(stream).value))
        && error == old(error) && intervalRef == old(intervalRef)
        && app.currentPrediction == None
        && app.predictionHistory == old(app.predictionHistory)
        && app.isConnected == old(app.isConnected)
        && emitted == old(emitted) + [None]
    {
      match Shown() {
        case StartButton(enabled) =>
          if enabled {
            StartWebcam(camera);
          }
        case StopButton =>
          StopWebcam();
      }
    }
  }

  /** While the component's invariant holds, at most one polling interval runs, and none while idle. */
  lemma OneIntervalRuns(c: WebcamCapture)
    requires c.Valid()
    ensures |c.timers.active| <= 1
    ensures !c.isCapturing ==> c.timers.active == {}
  {
    AtMostOneInterval(c.timers.active, c.intervalRef);
  }

  /** A session replayed through the contracts: start, one answered tick, stop, a refused restart. */
  method CaptureSession(camera: MediaStream, answer: PredictionBody)
    requires answer.success && answer.predictedGloss == "merhaba"
    modifies camera.tracks
  {
    var app := new App();
    app.CheckBackendConnection(Responded(200));
    var timers := new IntervalTable();
    var capture := new WebcamCapture(app, timers);
    assert capture.Shown() == StartButton(true);
    capture.PressButton(Granted(camera));
    assert capture.isCapturing && |timers.active| == 1;
    // A tick whose closure saw capturing; the interval installed by the start does not see it.
    var posted := capture.SendFrameForPrediction(true, true, Some("data:image/jpeg;base64,AAAA"), Answered(answer));
    assert posted.Some? && app.predictionHistory == [answer];
    capture.PressButton(Denied);
    assert !capture.isCapturing && app.currentPrediction == None && app.predictionHistory == [answer];
    assert AllEnded(camera) && timers.active == {};
    capture.PressButton(Denied);
    assert capture.error == CameraError && !capture.isCapturing && timers.active == {};
    assert app.isConnected && app.predictionHistory == [answer];
  }
}
