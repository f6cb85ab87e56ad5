/**
 * The content script (content.js): the page-side state, the Spacebar
 * shortcut that records timestamps, the embedded overlay frame, the
 * handler for the overlay's requests and the recorder's state.
 *
 * What the browser supplies becomes a parameter: the video element the
 * page query finds, the focused element, the clock's ISO date string,
 * the window a message comes from, and how the recorder's set-up ends.
 * Messages posted to the overlay are appended to `sent`; one posted
 * while there is no overlay frame goes nowhere.
 */
module Content {
  import opened Wrappers
  import opened TimeFormat
  import opened Messages

  /** The page's `<video>` element, with the two properties the script reads and the one it sets. */
  class Video {
    var currentTime: nat
    var duration: TimeValue

    constructor (duration: TimeValue)
      ensures this.currentTime == 0 && this.duration == duration
    {
      this.currentTime := 0;
      this.duration := duration;
    }
  }

  /** The focused element, as far as `isInputFocused` looks at it. */
  datatype Element = Element(tagName: string, isContentEditable: bool)

  /** Where a `message` event comes from: the overlay frame's window, or any other. */
  datatype Window = OverlayFrame | OtherWindow

  /**
   * How `startRecording`'s `try` block ends: the recorder is made and
   * started; or `getUserMedia` or the `MediaRecorder` constructor throws,
   * before anything is assigned; or `start` throws, after the new recorder
   * and its empty chunk list are in place. The error's message is kept.
   */
  datatype RecorderSetup = Started | Denied(error: string) | StartFailed(error: string)

  /** A text field, a text area or an editable element has the focus. */
  predicate IsInputFocused(active: Option<Element>) {
    active.Some? &&
    (active.value.tagName == "INPUT" || active.value.tagName == "TEXTAREA" || active.value.isContentEditable)
  }

  /** The record `addTimestamp` makes: its display string reads back as its time. */
  function NewTimestamp(time: nat, now: string): (r: Timestamp)
    ensures r.time == time && r.createdAt == now
    ensures ParseClock(r.formattedTime) == Some(time)
  {
    FormatTimeRoundTrip(time);
    Timestamp(time, FormatTime(time), now)
  }

  /** Everything the script holds, as one value. */
  datatype ContentState = ContentState(
    video: Video?,
    overlayCreated: bool,
    timestamps: seq<Timestamp>,
    isRecording: bool,
    hasRecorder: bool,
    audioChunks: seq<Chunk>,
    sent: seq<ToOverlay>)

  class ContentScript {
    var video: Video?
    var overlayCreated: bool
    var timestamps: seq<Timestamp>
    var isRecording: bool
    var hasRecorder: bool
    var audioChunks: seq<Chunk>
    var sent: seq<ToOverlay>

    function View(): ContentState
      reads this
    {
      ContentState(video, overlayCreated, timestamps, isRecording, hasRecorder, audioChunks, sent)
    }

    /**
     * Recording needs a recorder; nothing reaches the overlay before it
     * exists; every record shows its own time; and the overlay has only
     * ever been told of records the script holds, in the order it holds them.
     */
    ghost predicate Valid()
      reads this
    {
      (isRecording ==> hasRecorder) &&
      (!overlayCreated ==> sent == []) &&
      (forall i :: 0 <= i < |timestamps| ==> timestamps[i].formattedTime == FormatTime(timestamps[i].time)) &&
      (forall i :: 0 <= i < |sent| && sent[i].TimestampAdded? ==> sent[i].timestamp in timestamps) &&
      (forall i :: 0 <= i < |sent| && sent[i].TimestampsData? ==> sent[i].timestamps <= timestamps)
    }

    /** The messages the overlay will have been sent once `m` is posted. */
    function Posted(m: ToOverlay): seq<ToOverlay>
      reads this
    {
      if overlayCreated then sent + [m] else sent
    }

    /** The state after `addTimestamp` at clock reading `now`. */
    function AfterAddTimestamp(now: string): ContentState
      reads this, video
    {
      if video == null then View()
      else
        var ts := NewTimestamp(video.currentTime, now);
        View().(timestamps := timestamps + [ts], sent := Posted(TimestampAdded(ts)))
    }

    /** The state after `startRecording` when its set-up ends as `setup` says. */
    function AfterStartRecording(setup: RecorderSetup): ContentState
      reads this
    {
      match setup
      case Started =>
        View().(hasRecorder := true, audioChunks := [], isRecording := true, sent := Posted(RecordingStarted))
      case Denied(e) =>
        View().(sent := Posted(RecordingError(e)))
      case StartFailed(e) =>
        View().(hasRecorder := true, audioChunks := [], sent := Posted(RecordingError(e)))
    }

    /** The script's globals before `initializeOverlay`. */
    constructor ()
      ensures Valid()
      ensures View() == ContentState(null, false, [], false, false, [], [])
    {
      video, overlayCreated, timestamps := null, false, [];
      isRecording, hasRecorder, audioChunks, sent := false, false, [], [];
    }

    /** `sendMessageToOverlay`: posted if there is an overlay frame, dropped otherwise. */
    method Send(m: ToOverlay)
      modifies this
      ensures View() == old(View()).(sent := old(Posted(m)))
    {
      if overlayCreated {
        sent := sent + [m];
      }
    }

    /** `detectVideoElement`, given the element the query finds: a new one is taken and announced. */
    method DetectVideo(found: Video?)
      requires Valid()
      modifies this
      ensures Valid()
      ensures if found != null && found != old(video)
        then View() == old(View()).(video := found, sent := old(Posted(VideoDetected(found.duration))))
        else View() == old(View())
    {
      if found != null && found != video {
        video := found;
        Send(VideoDetected(found.duration));
      }
    }

    /** `createOverlay`: the frame is made once; a second call changes nothing. */
    method CreateOverlay()
      requires Valid()
      modifies this
      ensures Valid()
      ensures View() == old(View()).(overlayCreated := true)
      ensures old(overlayCreated) ==> View() == old(View())
    {
      if overlayCreated {
        return;
      }
      overlayCreated := true;
    }

    /**
     * `initializeOverlay`: the video is looked for before the frame exists,
     * so the announcement of a video already on the page goes nowhere.
     */
    method Initialize(found: Video?)
      requires Valid()
      modifies this
      ensures Valid()
      ensures View() == old(View()).(
        video := if found != null && found != old(video) then found else old(video),
        overlayCreated := true,
        sent := if found != null && found != old(video) then old(Posted(VideoDetected(found.duration))) else old(sent))
      ensures !old(overlayCreated) ==> sent == []
    {
      DetectVideo(found);
      CreateOverlay();
    }

    /** `addTimestamp`: without a video nothing happens; otherwise one record is appended and announced. */
    method AddTimestamp(now: string)
      requires Valid()
      modifies this
      ensures Valid()
      ensures View() == old(AfterAddTimestamp(now))
      ensures old(video) == null ==> View() == old(View())
      ensures old(video) != null ==>
        |timestamps| == |old(timestamps)| + 1 && timestamps[..|old(timestamps)|] == old(timestamps)
        && timestamps[|timestamps| - 1] == NewTimestamp(old(video.currentTime), now)
    {
      if video == null {
        return;
      }
      var ts := NewTimestamp(video.currentTime, now);
      timestamps := timestamps + [ts];
      Send(TimestampAdded(ts));
    }

    /** The `keydown` listener: a Space outside text input adds a timestamp and is kept from the page. */
    method OnKeyDown(code: string, active: Option<Element>, now: string) returns (prevented: bool)
      requires Valid()
      modifies this
      ensures Valid()
      ensures prevented <==> code == "Space" && !IsInputFocused(active)
      ensures View() == if prevented then old(AfterAddTimestamp(now)) else old(View())
    {
      prevented := code == "Space" && !IsInputFocused(active);
      if prevented {
        AddTimestamp(now);
      }
    }

    method OnVideoPlay()
      requires Valid()
      modifies this
      ensures Valid()
      ensures View() == old(View()).(sent := old(Posted(VideoPlay)))
    {
      Send(VideoPlay);
    }

    method OnVideoPause()
      requires Valid()
      modifies this
      ensures Valid()
      ensures View() == old(View()).(sent := old(Posted(VideoPause)))
    {
      Send(VideoPause);
    }

    /** `onTimeUpdate`: the video's position and length, when there is a video. */
    method OnTimeUpdate()
      requires Valid()
      modifies this
      ensures Valid()
      ensures View() == if old(video) == null then old(View())
        else old(View()).(sent := old(Posted(TimeUpdate(Seconds(video.currentTime), video.duration))))
    {
      if video != null {
        Send(TimeUpdate(Seconds(video.currentTime), video.duration));
      }
    }

    /**
     * `startRecording`, given how its set-up ends: a new recorder, started,
     * with no chunks yet; or the error reported to the overlay, with the new
     * recorder left in place when only its `start` failed.
     */
    method StartRecording(setup: RecorderSetup)
      requires Valid()
      modifies this
      ensures Valid()
      ensures View() == old(AfterStartRecording(setup))
    {
      if setup.Denied? {
        Send(RecordingError(setup.error));
        return;
      }
      hasRecorder := true;
      audioChunks := [];
      match setup {
        case Started =>
          isRecording := true;
          Send(RecordingStarted);
        case StartFailed(e) =>
          Send(RecordingError(e));
      }
    }

    /** The recorder's `dataavailable` listener: one chunk more at the end. */
    method OnDataAvailable(chunk: Chunk)
      requires Valid() && hasRecorder
      modifies this
      ensures Valid()
      ensures View() == old(View()).(audioChunks := old(audioChunks) + [chunk])
    {
      audioChunks := audioChunks + [chunk];
    }

    /** `stopRecording`: only a recorder that is recording is stopped. */
    method StopRecording()
      requires Valid()
      modifies this
      ensures Valid()
      ensures View() == if old(hasRecorder && isRecording) then old(View()).(isRecording := false) else old(View())
    {
      if hasRecorder && isRecording {
        isRecording := false;
      }
    }

    /** The recorder's `stop` listener: the recorded chunks go to the overlay. */
    method OnRecorderStop()
      requires Valid() && hasRecorder
      modifies this
      ensures Valid()
      ensures View() == old(View()).(sent := old(Posted(AudioRecorded(Some(AudioData(audioChunks))))))
    {
      Send(AudioRecorded(Some(AudioData(audioChunks))));
    }

    /**
     * `handleOverlayMessage`: nothing unless the overlay frame exists and
     * the message comes from it; then the request is carried out. Only a
     * seek changes the video, and only when there is one.
     */
    method HandleOverlayMessage(source: Window, m: ToContent, setup: RecorderSetup)
      requires Valid()
      modifies this, video
      ensures Valid()
      ensures video == old(video)
      ensures !old(overlayCreated) || source != OverlayFrame ==> View() == old(View())
      ensures old(overlayCreated) && source == OverlayFrame ==>
        match m
        case StartRecording => View() == old(AfterStartRecording(setup))
        case StopRecording =>
          View() == if old(hasRecorder && isRecording) then old(View()).(isRecording := false) else old(View())
        case GetTimestamps => View() == old(View()).(sent := old(sent) + [TimestampsData(old(timestamps))])
        case _ => View() == old(View())
      ensures video != null ==>
        video.currentTime == if old(overlayCreated) && source == OverlayFrame && m.SeekTo? then m.time else old(video.currentTime)
      ensures video != null ==> video.duration == old(video.duration)
    {
      if !overlayCreated || source != OverlayFrame {
        return;
      }
      match m {
        case StartRecording =>
          StartRecording(setup);
        case StopRecording =>
          StopRecording();
        case SeekTo(time) =>
          if video != null {
            video.currentTime := time;
          }
        case GetTimestamps =>
          Send(TimestampsData(timestamps));
        case OtherToContent(_) =>
      }
    }
  }
}
