/**
 * The overlay panel (overlay.js): its module-level state, the record and
 * transcribe buttons, the API-key field, and the handler for messages
 * from the page. The two HTTP calls are parameters: `Reply` is what the
 * awaited call yields, the text it returns or the message of the error
 * it throws. Only the last status shown is kept (the three-second hide
 * timer is not modelled).
 */
module Overlay {
  import opened Wrappers
  import opened Strings
  import opened TimeFormat
  import opened Questions
  import opened Messages

  /** The status line: hidden, or a message shown as an error or not. */
  datatype Status = Hidden | Shown(message: string, isError: bool)

  /** The outcome of an awaited request: its text, or the message of the error thrown on the way. */
  datatype Reply = Ok(body: string) | Failed(error: string)

  const API_KEY_SAVED := "API Key saved successfully!"
  const NO_API_KEY := "Please set your Groq API key first!"
  const NO_AUDIO := "No audio recording available!"
  const TRANSCRIBING := "Transcribing audio..."
  const TRANSCRIBED := "Transcription completed!"
  const TRANSCRIPTION_FAILED := "Transcription failed: "
  const GENERATING := "Generating questions..."
  const GENERATED := "Questions generated!"
  const GENERATION_FAILED := "Question generation failed: "
  const RECORDING_STARTED := "Recording started..."
  const RECORDING_SAVED := "Recording saved! Click Transcribe to process."
  const RECORDING_ERROR := "Recording error: "
  const TIMESTAMP_ADDED := "Timestamp added at "
  const VIDEO_DETECTED := "Video detected!"
  const PLAYING := "Playing"
  const PAUSED := "Paused"

  /**
   * What the time display shows: nothing yet, or the last current time and
   * duration the page reported (its text is `VideoTimeText`).
   */
  datatype VideoClock = NoClock | Clock(currentTime: TimeValue, duration: TimeValue)

  /** Everything the panel holds, as one value. */
  datatype PanelState = PanelState(
    timestamps: seq<Timestamp>,
    isRecording: bool,
    hasRecording: bool,
    audioBlob: Option<AudioData>,
    transcriptionText: string,
    apiKey: string,
    videoStatus: string,
    videoTime: VideoClock,
    transcription: string,
    questions: Option<seq<string>>,  // the parsed questions once shown; the list is their `Display`
    status: Status,
    transcribeDisabled: bool,
    sent: seq<ToContent>)

  /** The panel never shows a recording in progress and a finished one at once. */
  predicate Consistent(s: PanelState) {
    !(s.isRecording && s.hasRecording)
  }

  /** The question list the panel shows for the model's reply. */
  function ReplyQuestions(reply: string): QuestionList {
    Display(ParseQuestions(reply))
  }

  /**
   * What the panel shows is the parse, faithfully: the empty-state note
   * exactly when no question was found, and otherwise items that, read
   * back through the same parser, give the parsed questions again.
   */
  lemma ReplyQuestionsReadBack(reply: string)
    ensures ReplyQuestions(reply) == NoQuestions <==> ParseQuestions(reply) == []
    ensures ReplyQuestions(reply).Items? ==>
      |ReplyQuestions(reply).labels| == |ParseQuestions(reply)|
      && ParseQuestions(Join(ReplyQuestions(reply).labels, '\n')) == ParseQuestions(reply)
  {
    var qs := ParseQuestions(reply);
    ParseQuestionsWellFormed(reply);
    forall i | 0 <= i < |qs| ensures IsQuestion(qs[i]) {
      assert qs[i] in qs;
    }
    DisplayReadBack(qs);
  }

  /** The items of well-formed questions read back as those questions. */
  lemma DisplayReadBack(qs: seq<string>)
    requires forall i :: 0 <= i < |qs| ==> IsQuestion(qs[i])
    ensures Display(qs).Items? ==> ParseQuestions(Join(Display(qs).labels, '\n')) == qs
  {
    LabelsRoundTrip(qs);
  }

  /**
   * `generateQuestions` on a panel state: nothing without a key or a
   * transcription (and the early return skips the `finally` that
   * re-enables the transcribe button); otherwise the reply's questions
   * are shown, or its error, and the button is enabled again.
   */
  function QuestionsGenerated(s: PanelState, completion: Reply): (r: PanelState)
    ensures r.(questions := s.questions, status := s.status, transcribeDisabled := s.transcribeDisabled) == s
    ensures r != s ==> !r.transcribeDisabled && r.status.Shown?
    ensures r.questions != s.questions ==> completion.Ok? && r.questions == Some(ParseQuestions(completion.body))
    ensures s.apiKey == "" || s.transcriptionText == "" ==> r == s
    ensures s.apiKey != "" && s.transcriptionText != "" ==> !r.transcribeDisabled
    ensures s.apiKey != "" && s.transcriptionText != "" && completion.Ok? ==>
      r.questions == Some(ParseQuestions(completion.body)) && r.status == Shown(GENERATED, false)
    ensures s.apiKey != "" && s.transcriptionText != "" && completion.Failed? ==>
      r.questions == s.questions && r.status == Shown(GENERATION_FAILED + completion.error, true)
  {
    if s.apiKey == "" || s.transcriptionText == "" then s
    else match completion
      case Failed(e) =>
        s.(status := Shown(GENERATION_FAILED + e, true), transcribeDisabled := false)
      case Ok(reply) =>
        s.(questions := Some(ParseQuestions(reply)), status := Shown(GENERATED, false),
           transcribeDisabled := false)
  }

  /**
   * The text of the time display: empty until a time is shown, then the
   * current time and the duration, both through the guarded formatter.
   */
  function VideoTimeText(c: VideoClock): (r: string)
    ensures r == [] <==> c.NoClock?
  {
    match c
    case NoClock => ""
    case Clock(currentTime, duration) =>
      " - " + FormatTimeGuarded(currentTime) + " / " + FormatTimeGuarded(duration)
  }

  /**
   * The `message` listener on a panel state. A time update without a current
   * time, the `TIMESTAMPS_DATA` answer and any other type change nothing.
   */
  function Received(s: PanelState, m: ToOverlay): (r: PanelState)
    ensures r.sent == s.sent && r.apiKey == s.apiKey && r.transcriptionText == s.transcriptionText
    ensures r.timestamps == s.timestamps + (if m.TimestampAdded? then [m.timestamp] else [])
    ensures r.isRecording == if m.RecordingStarted? then true
                             else if m.AudioRecorded? || m.RecordingError? then false
                             else s.isRecording
    ensures r.hasRecording == if m.RecordingStarted? then false else if m.AudioRecorded? then true else s.hasRecording
    ensures r.audioBlob == if m.AudioRecorded? then m.audioBlob else s.audioBlob
    ensures r.transcribeDisabled == if m.AudioRecorded? then false else s.transcribeDisabled
    ensures r.questions == s.questions && r.transcription == s.transcription
    ensures r.videoStatus == if m.VideoDetected? then VIDEO_DETECTED
                             else if m.VideoPlay? then PLAYING
                             else if m.VideoPause? then PAUSED
                             else s.videoStatus
    ensures r.videoTime == if m.TimeUpdate? && !m.currentTime.Undefined? then Clock(m.currentTime, m.duration)
                           else s.videoTime
    ensures r.status == match m
      case TimestampAdded(ts) => Shown(TIMESTAMP_ADDED + ts.formattedTime, false)
      case RecordingStarted => Shown(RECORDING_STARTED, false)
      case AudioRecorded(_) => Shown(RECORDING_SAVED, false)
      case RecordingError(e) => Shown(RECORDING_ERROR + e, true)
      case _ => s.status
    ensures Consistent(s) ==> Consistent(r)
  {
    match m
    case VideoDetected(_) => s.(videoStatus := VIDEO_DETECTED)
    case VideoPlay => s.(videoStatus := PLAYING)
    case VideoPause => s.(videoStatus := PAUSED)
    case TimeUpdate(currentTime, duration) =>
      if currentTime.Undefined? then s else s.(videoTime := Clock(currentTime, duration))
    case TimestampAdded(ts) =>
      s.(timestamps := s.timestamps + [ts], status := Shown(TIMESTAMP_ADDED + ts.formattedTime, false))
    case RecordingStarted =>
      s.(isRecording := true, hasRecording := false, status := Shown(RECORDING_STARTED, false))
    case AudioRecorded(recordedAudio) =>
      s.(isRecording := false, hasRecording := true, audioBlob := recordedAudio,
         transcribeDisabled := false, status := Shown(RECORDING_SAVED, false))
    case RecordingError(e) =>
      s.(isRecording := false, status := Shown(RECORDING_ERROR + e, true))
    case TimestampsData(_) => s
    case OtherToOverlay(_) => s
  }

  /**
   * The byte copy in `transcribeAudio`: each character code of the decoded
   * string stored in a `Uint8Array`, which keeps it modulo 256; a string of
   * Latin-1 characters, as `atob` produces, is copied code for code.
   */
  method CopyBytes(binary: string) returns (bytes: array<Byte>)
    ensures fresh(bytes)
    ensures bytes.Length == |binary|
    ensures forall i :: 0 <= i < |binary| ==> bytes[i] == (binary[i] as int) % 256
    ensures forall i :: 0 <= i < |binary| && (binary[i] as int) < 256 ==> bytes[i] == binary[i] as int
  {
    bytes := new Byte[|binary|];
    var i := 0;
    while i < |binary|
      invariant 0 <= i <= |binary|
      invariant forall j :: 0 <= j < i ==> bytes[j] == (binary[j] as int) % 256
    {
      bytes[i] := (binary[i] as int) % 256;
      i := i + 1;
    }
  }

  class Panel {
    var timestamps: seq<Timestamp>
    var isRecording: bool
    var hasRecording: bool
    var audioBlob: Option<AudioData>
    var transcriptionText: string
    var apiKey: string
    var videoStatus: string
    var videoTime: VideoClock
    var transcription: string
    var questions: Option<seq<string>>
    var status: Status
    var transcribeDisabled: bool
    var sent: seq<ToContent>

    function View(): PanelState
      reads this
    {
      PanelState(timestamps, isRecording, hasRecording, audioBlob, transcriptionText, apiKey,
                 videoStatus, videoTime, transcription, questions, status, transcribeDisabled, sent)
    }

    ghost predicate Valid()
      reads this
    {
      Consistent(View())
    }

    /** The script's start: empty state, and a request to the page for its timestamps. */
    constructor ()
      ensures Valid()
      ensures View() == PanelState([], false, false, None, "", "", "", NoClock, "", None, Hidden, false, [GetTimestamps])
    {
      timestamps, isRecording, hasRecording, audioBlob := [], false, false, None;
      transcriptionText, apiKey := "", "";
      videoStatus, videoTime, transcription, questions := "", NoClock, "", None;
      status, transcribeDisabled := Hidden, false;
      sent := [GetTimestamps];
    }

    method ShowStatus(message: string, isError: bool)
      modifies this
      ensures View() == old(View()).(status := Shown(message, isError))
    {
      status := Shown(message, isError);
    }

    method SendToContent(m: ToContent)
      modifies this
      ensures View() == old(View()).(sent := old(sent) + [m])
    {
      sent := sent + [m];
    }

    /** The stored key, if there is a nonempty one, becomes the key. */
    method LoadApiKey(stored: Option<string>)
      requires Valid()
      modifies this
      ensures Valid()
      ensures View() == if stored.Some? && stored.value != "" then old(View()).(apiKey := stored.value) else old(View())
    {
      if stored.Some? && stored.value != "" {
        apiKey := stored.value;
      }
    }

    /** Save: the trimmed input, when nonempty, becomes the key and is returned for storage. */
    method SaveApiKey(input: string) returns (toStore: Option<string>)
      requires Valid()
      modifies this
      ensures Valid()
      ensures Trim(input) == "" ==> toStore == None && View() == old(View())
      ensures Trim(input) != "" ==>
        toStore == Some(Trim(input))
        && View() == old(View()).(apiKey := Trim(input), status := Shown(API_KEY_SAVED, false))
    {
      var key := Trim(input);
      if key != "" {
        apiKey := key;
        toStore := Some(key);
        ShowStatus(API_KEY_SAVED, false);
      } else {
        toStore := None;
      }
    }

    /** The record button asks the page to start or to stop; the panel's own flags wait for the answer. */
    method ToggleRecording()
      requires Valid()
      modifies this
      ensures Valid()
      ensures View() == old(View()).(sent := old(sent) + [if old(isRecording) then StopRecording else StartRecording])
    {
      if !isRecording {
        SendToContent(StartRecording);
      } else {
        SendToContent(StopRecording);
      }
    }

    method GenerateQuestions(completion: Reply)
      requires Valid()
      modifies this
      ensures Valid()
      ensures View() == QuestionsGenerated(old(View()), completion)
    {
      if apiKey == "" || transcriptionText == "" {
        return;
      }
      status := Shown(GENERATING, false);
      match completion {
        case Failed(e) =>
          status := Shown(GENERATION_FAILED + e, true);
        case Ok(reply) =>
          questions := Some(ParseQuestions(reply));
          status := Shown(GENERATED, false);
      }
      transcribeDisabled := false;
    }

    /**
     * The transcribe button, which can only be clicked while it is
     * enabled. A missing key is reported before a missing
     * recording, and either stops it with nothing else changed. Then the
     * recording is transcribed; a failure is reported and re-enables the
     * button, a transcription is shown and questions are generated from it.
     */
    method TranscribeAudio(transcribed: Reply, completion: Reply)
      requires Valid()
      requires !transcribeDisabled
      modifies this
      ensures Valid()
      ensures old(apiKey) == "" ==> View() == old(View()).(status := Shown(NO_API_KEY, true))
      ensures old(apiKey) != "" && old(audioBlob).None? ==>
        View() == old(View()).(status := Shown(NO_AUDIO, true))
      ensures old(apiKey) != "" && old(audioBlob).Some? && transcribed.Failed? ==>
        View() == old(View()).(status := Shown(TRANSCRIPTION_FAILED + transcribed.error, true),
                               transcribeDisabled := false)
      ensures old(apiKey) != "" && old(audioBlob).Some? && transcribed.Ok? ==>
        View() == QuestionsGenerated(
          old(View()).(transcriptionText := transcribed.body, transcription := transcribed.body,
                       status := Shown(TRANSCRIBED, false), transcribeDisabled := true),
          completion)
    {
      if apiKey == "" {
        ShowStatus(NO_API_KEY, true);
        return;
      }
      if audioBlob.None? {
        ShowStatus(NO_AUDIO, true);
        return;
      }
      ShowStatus(TRANSCRIBING, false);
      transcribeDisabled := true;
      match transcribed {
        case Failed(e) =>
          ShowStatus(TRANSCRIPTION_FAILED + e, true);
          transcribeDisabled := false;
        case Ok(text) =>
          transcriptionText := text;
          transcription := text;
          ShowStatus(TRANSCRIBED, false);
          GenerateQuestions(completion);
      }
    }

    /** A new record goes at the end; the earlier ones stay as they were. */
    method AddTimestamp(ts: Timestamp)
      requires Valid()
      modifies this
      ensures Valid()
      ensures View() == old(View()).(timestamps := old(timestamps) + [ts])
      ensures |timestamps| == |old(timestamps)| + 1 && timestamps[|timestamps| - 1] == ts
      ensures timestamps[..|old(timestamps)|] == old(timestamps)
    {
      timestamps := timestamps + [ts];
    }

    /** A click on the record at `index` in the list asks the page to seek to its time. */
    method SeekToTimestamp(index: nat)
      requires Valid()
      requires index < |timestamps|
      modifies this
      ensures Valid()
      ensures View() == old(View()).(sent := old(sent) + [SeekTo(old(timestamps)[index].time)])
    {
      SendToContent(SeekTo(timestamps[index].time));
    }

    /** The `message` listener, as the transition `Received` describes it. */
    method HandleMessage(m: ToOverlay)
      requires Valid()
      modifies this
      ensures Valid()
      ensures View() == Received(old(View()), m)
    {
      match m {
        case VideoDetected(_) =>
          videoStatus := VIDEO_DETECTED;
        case VideoPlay =>
          videoStatus := PLAYING;
        case VideoPause =>
          videoStatus := PAUSED;
        case TimeUpdate(currentTime, duration) =>
          if !currentTime.Undefined? {
            videoTime := Clock(currentTime, duration);
          }
        case TimestampAdded(ts) =>
          timestamps := timestamps + [ts];
          status := Shown(TIMESTAMP_ADDED + ts.formattedTime, false);
        case RecordingStarted =>
          isRecording := true;
          hasRecording := false;
          status := Shown(RECORDING_STARTED, false);
        case AudioRecorded(recordedAudio) =>
          isRecording := false;
          hasRecording := true;
          audioBlob := recordedAudio;
          transcribeDisabled := false;
          status := Shown(RECORDING_SAVED, false);
        case RecordingError(e) =>
          isRecording := false;
          status := Shown(RECORDING_ERROR + e, true);
        case TimestampsData(_) =>
        case OtherToOverlay(_) =>
      }
    }
  }
}
