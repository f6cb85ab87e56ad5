# Video timestamp overlay, modelled in Dafny

A browser extension for Google Drive videos. It has two halves.

- **The content script** (content.js) runs in the page. It finds the
  `<video>` element and embeds an overlay frame. Each Spacebar press, unless
  the user is typing, records a timestamp. It runs the microphone recorder
  and carries out the overlay's requests: start or stop recording, seek to a
  time, send the timestamp list.
- **The overlay** (overlay.js) runs inside the frame. It shows the video
  state and the timestamps. It keeps the Groq API key, sends the recording
  for transcription, and turns the chat model's reply into a numbered list
  of review questions.

The model has these parts:

- **Both copies of `formatTime`** (`TimeFormat`). The guarded copy is proved
  to equal the unguarded one, with every invalid time read as 0. A
  display-string parser `ParseClock` reads the output back: it is the round
  trip the formatter is proved against.
- **The question-line parser and its labels** (`Questions`). The parser is
  proved equal to a line-by-line reference `Compact`. The proofs show that
  every question is well-formed, that order is kept, and that at most one
  numbering is removed per line. The numbered labels parse back into the
  questions they came from.
- **Two state machines.**
  - The overlay panel is a class `Overlay.Panel`. Its message handler is
    proved against a pure transition `Overlay.Received`.
  - The content script is a class `Content.ContentScript`. It has an
    invariant `Valid`: the overlay only ever hears of timestamp records the
    script holds, and every record's display string is its own time
    formatted.
- **Shared pieces.** `Messages` holds the messages the two halves exchange.
  `Strings` holds hand-written `trim`, `split`/`join`, `padStart` and
  decimal rendering.

Times are whole seconds, after the source's `Math.floor`. `TimeValue` adds
the two invalid values the overlay's guard handles: `NaN` and `undefined`.
Whitespace is space, tab, carriage return and line feed.

What the browser or the network supplies enters as a parameter:

- the element the page query finds;
- the focused element;
- the clock's ISO string;
- the message's source window;
- how the recorder's set-up ends (`Content.RecorderSetup`);
- the text or error of each HTTP request (`Overlay.Reply`).

Messages either half posts are appended to a `sent` sequence. The content
script posts only once its frame exists. A message posted before that is
dropped.

## Model

| member | source | states |
|---|---|---|
| TimeFormat.Pad2 | content.js:123 | A number rendered in decimal and left-padded with zeros to two characters. Its contract is in `Pad2Field`: below 60 it is a two-digit field that reads back as the number. |
| TimeFormat.ClockString | content.js:122-125 | `H:MM:SS` when there are hours, `M:SS` otherwise. Its contract is in `ClockStringFieldsShort` and `ClockStringFieldsLong`: the string splits at its colons into exactly those fields. |
| TimeFormat.FormatTime | content.js:117-126 | The content script's formatter: hours, minutes and seconds by floor and modulo, then `ClockString`. Its contract is in `FormatTimeRoundTrip` (it reads back as the time) and `FormatTimeInjective`. |
| TimeFormat.FormatTimeGuarded | overlay.js:295-306 | The overlay's formatter equals the content script's, with every invalid time read as 0. A zero, `NaN` or `undefined` time gives "0:00". |
| TimeFormat.ZeroFormat | content.js:117-126 | The unguarded formatter also gives "0:00" for 0. |
| TimeFormat.FormatTimesAgree | overlay.js:295-306 | For every valid time, the two copies of `formatTime` give the same string. |
| TimeFormat.FormatTimeFieldsBelowAnHour | overlay.js:298-305 | Below an hour the output is `M:SS`. M is the numeral of the whole minutes. SS is two digits giving the remaining seconds, between 00 and 59. |
| TimeFormat.FormatTimeFieldsFromAnHour | overlay.js:298-303 | From an hour on the output is `H:MM:SS`. H is the numeral of the hours, and MM and SS are two-digit fields between 00 and 59. |
| TimeFormat.Pad2Field | content.js:123-125 | A number below 60 padded to two digits is a two-digit field that reads back as the number. It contains no colon. |
| TimeFormat.ClockStringFieldsShort | content.js:125 | The `M:SS` string splits at its colon into the minutes numeral and the seconds field. |
| TimeFormat.ClockStringFieldsLong | content.js:122-123 | The `H:MM:SS` string splits at its colons into the hours numeral and two fields. |
| TimeFormat.ClockArithmetic | content.js:118-120 | The three floor/modulo fields recombine into the time, and the minute field is below 60. |
| TimeFormat.FormatTimeRoundTrip | content.js:117-126 | Parsing the display string back gives the number of seconds it was made from. |
| TimeFormat.FormatTimeInjective | content.js:117-126 | Different times never share a display string. |
| Strings.NatToString | content.js:123 | `toString` of a whole number is a numeral (digits, no leading zero). It is one character long exactly below 10. |
| Strings.NatToStringValue | content.js:123 | The numeral reads back as the number. |
| Strings.NatToStringTwoDigits | content.js:123 | A number from 10 to 99 renders as its tens digit, then its units digit. |
| Strings.PadStart | content.js:123 | `padStart(width, fill)` has length max(\|s\|, width). It ends with s and is filled before it. |
| Strings.TrimStart | overlay.js:164 | What is removed from the front is whitespace, and what is left does not start with whitespace. |
| Strings.TrimEnd | overlay.js:164 | What is removed from the back is whitespace, and what is left does not end with whitespace. |
| Strings.Trim | overlay.js:163-164 | `trim` gives a string with no whitespace at either end, never longer than the input. It is empty exactly when the input is all whitespace. |
| Strings.TrimChars | overlay.js:164 | Every character `trim` keeps comes from the input. |
| Strings.TrimIsInfix | overlay.js:164 | What `trim` keeps is one stretch of the input, with only whitespace before and after it. |
| Strings.TrimStartOfPadded | overlay.js:164 | Whitespace before a text that does not start with whitespace is removed completely. |
| Strings.TrimOfTrimmed | overlay.js:164 | Trimming a trimmed string changes nothing. |
| Strings.Split | overlay.js:162 | `split` on one character gives at least one piece, and no piece contains the separator. |
| Strings.JoinSplit | overlay.js:162 | Joining the pieces of a split gives back the string. |
| Strings.SplitJoin | overlay.js:162 | Splitting a join of separator-free pieces gives back the pieces. |
| Strings.SplitConcat | overlay.js:162 | Splitting at a separator splits the two sides independently. |
| Strings.SplitWithoutSeparator | overlay.js:162 | A string without the separator is a single piece. |
| Strings.SplitCons | overlay.js:162 | One step of the split, on a first character and the rest. |
| Strings.SplitTwo | content.js:125 | Two separator-free pieces joined by a separator split back into those two. |
| Strings.SplitThree | content.js:123 | Three separator-free pieces joined by separators split back into those three. |
| Strings.NumeralExcludes | content.js:123 | A numeral contains no non-digit character, such as a colon or a line break. |
| Questions.LeadingDigits | overlay.js:164 | The length of the leading digit run. Every character before it is a digit, and the next one is not. |
| Questions.StartsWithNumbering | overlay.js:164 | The line starts with one or more digits followed by a full stop or a closing parenthesis. Its contract is in `StripNumbering` and `StripOneNumbering`. |
| Questions.StripNumbering | overlay.js:164 | The result is a suffix of the line. It equals the line exactly when the line does not start with a numbering. |
| Questions.LeadingDigitsOf | overlay.js:164 | The digit run of digits followed by a non-digit is exactly those digits. |
| Questions.StripOneNumbering | overlay.js:164 | From digits, a full stop or parenthesis, whitespace and then text, exactly that prefix goes. The text stays even if it starts with a numbering of its own. |
| Questions.CleanLine | overlay.js:164 | A cleaned line is trimmed. |
| Questions.CleanLineChars | overlay.js:164 | A cleaned line is made of the line's characters. |
| Questions.NonBlank | overlay.js:163 | The first filter's test, that the trimmed line is not empty. It is defined as `!AllWhitespace(line)`, which by `Strings.Trim`'s third ensures is the same as `Trim(line) != ""`. `Questions.NonBlankIsTrimNonEmpty` states the equivalence. |
| Questions.NonBlankIsTrimNonEmpty | overlay.js:163 | A line passes the first filter exactly when its trim is not empty. |
| Questions.NonEmpty | overlay.js:165 | The last filter's test: the cleaned question has at least one character. |
| Questions.Filter | overlay.js:163-165 | `filter` keeps only elements that pass, drawn from the input, and never gives more than it got. |
| Questions.FilterAppend | overlay.js:163-165 | Filtering two lists joined end to end gives the first list's kept elements, then the second's. |
| Questions.FilterKeepsPassing | overlay.js:163-165 | Every element that passes the test is kept. |
| Questions.Map | overlay.js:164 | `map` transforms every element, position for position. |
| Questions.BlankLineCleansToEmpty | overlay.js:163-165 | A blank line cleans to the empty string, so the first filter never changes the result. |
| Questions.ChainIsCompact | overlay.js:161-165 | Filter, map, filter equals the one-pass reference whenever the first filter drops only lines that clean to nothing. |
| Questions.ParseQuestionsIsCompact | overlay.js:161-165 | The parse is the line-by-line reference over the reply's lines. |
| Questions.ParseQuestions | overlay.js:161-165 | The chain split, filter, map, filter, as written. Its contract is in `ParseQuestionsIsCompact`, `ParseQuestionsWellFormed` and `ParseQuestionsAppend`. |
| Questions.CompactKeeps | overlay.js:165 | The reference keeps only nonempty results of cleaning, at most one per line. |
| Questions.ParseQuestionsWellFormed | overlay.js:161-165 | Every question is nonempty, trimmed and on one line. There are no more questions than lines. |
| Questions.CompactAppend | overlay.js:162-165 | The reference over two line lists is the concatenation of the references over each. |
| Questions.ParseQuestionsAppend | overlay.js:161-165 | Order is kept: parsing two replies joined by a line break gives the first reply's questions, then the second's. |
| Questions.Label | overlay.js:189 | The one-based number, a full stop, a space and the question. Its contract is in `LabelCleansToQuestion` and `LabelIsOneLine`. |
| Questions.Labels | overlay.js:186-190 | There is one label per question. |
| Questions.Display | overlay.js:178-192 | The empty-state note is shown exactly when there are no questions. Otherwise the items are the numbered labels. |
| Questions.LabelCleansToQuestion | overlay.js:186-189 | Cleaning a label gives back its question. |
| Questions.LabelIsOneLine | overlay.js:189 | The label of a one-line question contains no line break. |
| Questions.CompactOfCleaning | overlay.js:164-165 | Lines that each clean to a given nonempty question give exactly those questions. |
| Questions.LabelsRoundTrip | overlay.js:161-189 | Labels written one per line parse back into exactly the questions they number. |
| Overlay.ReplyQuestions | overlay.js:161-167 | The list shown for a reply: `Display` of its parse. Its contract is in `ReplyQuestionsReadBack`. |
| Overlay.ReplyQuestionsReadBack | overlay.js:161-192 | The panel shows the empty-state note exactly when the reply holds no question. Otherwise it shows one item per question, and the items read back as the questions. |
| Overlay.DisplayReadBack | overlay.js:178-192 | The shown items of well-formed questions read back as those questions. |
| Overlay.QuestionsGenerated | overlay.js:121-176 | Only the question list, the status and the transcribe button change. Without a key or a transcription nothing changes. Otherwise the button is enabled again, and a reply shows its parsed questions with the success status, while a failure shows the error and keeps the old questions. |
| Overlay.VideoTimeText | overlay.js:257-260 | The time line is empty exactly until a time has been shown. |
| Overlay.Received | overlay.js:241-293 | Messages from the page never make the panel post anything. They never change its key, its stored or displayed transcription, or its questions. A timestamp is appended only on `TIMESTAMP_ADDED`. The video line follows `VIDEO_DETECTED`, `VIDEO_PLAY` and `VIDEO_PAUSE`. The time display follows a `TIME_UPDATE` that has a current time. The recording flags follow `RECORDING_STARTED`, `AUDIO_RECORDED` and `RECORDING_ERROR`. The error leaves `hasRecording` and `audioBlob` as they were. `AUDIO_RECORDED` re-enables the transcribe button, and no other message changes it. The status line confirms a timestamp with its display string, confirms the recording's start and its saving, and shows a recording error as an error with its message. No other message changes it. A recording never shows as running and finished at once. |
| Overlay.CopyBytes | overlay.js:79-82 | One byte per character of the decoded string, each the character code modulo 256. A Latin-1 character is copied code for code. |
| Overlay.Panel.constructor | overlay.js:3-8 | The panel starts empty and asks the page for its timestamps. |
| Overlay.Panel.ShowStatus | overlay.js:226-229 | Only the status line changes. |
| Overlay.Panel.SendToContent | overlay.js:236-238 | One message is appended to what was posted to the page. |
| Overlay.Panel.LoadApiKey | overlay.js:23-28 | A stored nonempty key becomes the key. Otherwise nothing changes. |
| Overlay.Panel.SaveApiKey | overlay.js:31-39 | A trimmed, nonempty input becomes the key, is returned for storage and is confirmed. An input that is empty after trimming changes nothing. |
| Overlay.Panel.ToggleRecording | overlay.js:45-59 | Posts `STOP_RECORDING` while recording and `START_RECORDING` otherwise. Nothing else changes. |
| Overlay.Panel.GenerateQuestions | overlay.js:121-176 | The new state is `QuestionsGenerated` of the old one. |
| Overlay.Panel.TranscribeAudio | overlay.js:61-119 | It requires the button to be enabled, as only then can it be clicked. A missing key is reported before a missing recording, and either returns early with only the status changed. A failed transcription is reported and re-enables the button. A transcription is stored and shown, and then questions are generated. |
| Overlay.Panel.AddTimestamp | overlay.js:194-197 | Exactly one record is appended at the end. The earlier ones are unchanged, and so is everything else. |
| Overlay.Panel.SeekToTimestamp | overlay.js:215-220 | A click on record i posts `SEEK_TO` with that record's time. |
| Overlay.Panel.HandleMessage | overlay.js:241-293 | The new state is `Received` of the old state and the message. |
| Content.Video.constructor | content.js:38 | A video element with its duration, at position 0. |
| Content.IsInputFocused | content.js:88-95 | There is a focused element, and it is an `INPUT`, a `TEXTAREA` or an editable element. `OnKeyDown` shows that exactly then the Space key is left to the page. |
| Content.NewTimestamp | content.js:100-105 | The record has the video's time and the clock reading, and its display string parses back to its time. |
| Content.ContentScript.constructor | content.js:3-8 | All globals start empty: no video, no frame, no recorder. |
| Content.ContentScript.Send | content.js:146-150 | A message is posted only when the overlay frame exists. |
| Content.ContentScript.DetectVideo | content.js:36-51 | A found video different from the current one is taken and announced with its duration. Otherwise nothing changes. |
| Content.ContentScript.CreateOverlay | content.js:53-76 | The frame is created once. A second call changes nothing. |
| Content.ContentScript.Initialize | content.js:11-21 | The video is looked for before the frame exists. A freshly started script therefore has posted nothing, even when a video is found. |
| Content.ContentScript.AddTimestamp | content.js:97-115 | Without a video nothing changes. Otherwise exactly one record is appended, with the video's time and its formatted time, the earlier ones are unchanged, and `TIMESTAMP_ADDED` with that record is posted. |
| Content.ContentScript.OnKeyDown | content.js:78-95 | The key is kept from the page, and a timestamp added, exactly when it is Space and no input, text area or editable element has the focus. |
| Content.ContentScript.OnVideoPlay | content.js:128-130 | `VIDEO_PLAY` is posted. |
| Content.ContentScript.OnVideoPause | content.js:132-134 | `VIDEO_PAUSE` is posted. |
| Content.ContentScript.OnTimeUpdate | content.js:136-144 | With a video, its position and duration are posted. Otherwise nothing changes. |
| Content.ContentScript.StartRecording | content.js:179-215 | When the set-up succeeds, a recorder is made, the chunks are reset to empty, recording starts and is announced. When `getUserMedia` or the recorder's constructor throws, the error is posted and nothing else changes. When only `start` throws, the new recorder and its empty chunk list stay, recording does not start, and the error is posted. |
| Content.ContentScript.OnDataAvailable | content.js:186-188 | One chunk is appended at the end. |
| Content.ContentScript.StopRecording | content.js:217-223 | Only a recorder that is recording acts, and afterwards it is not recording. Otherwise nothing changes. |
| Content.ContentScript.OnRecorderStop | content.js:190-197 | The recorded chunks are posted as `AUDIO_RECORDED`. |
| Content.ContentScript.HandleOverlayMessage | content.js:152-177 | A message not from the overlay frame changes nothing. A start or stop request starts or stops recording. `SEEK_TO` sets the video's position only when there is a video. `GET_TIMESTAMPS` posts the current list and leaves it unchanged. |

## Left out

- background.js is not part of this model. It only passes storage reads and writes through.
- The HTTP requests to the transcription and chat endpoints enter only as their outcome (`Overlay.Reply`). The model does not cover the form data, headers, JSON shapes or the `response.ok` check, only the error message they end in.
- The model does not cover the microphone stream, `MediaRecorder`, `Blob`, `FileReader`, the data-URL encoding or `atob`. How the set-up ends is a parameter (`Content.RecorderSetup`). The recording is passed as its chunks (`Messages.AudioData`).
- Overlay.CopyBytes is standalone. The panel holds the recording as chunks, not as a data URL, so nothing decodes one.
- The 3-second timer that hides the status line is not modelled. Only the last status shown is kept.
- DOM rendering is not modelled. This covers the timestamp list markup with its `#n - time` items, the record button's text and class, the input field's value and the frame's styling.
- The `MutationObserver` that looks for a video again when the current one leaves the document is not modelled. `DetectVideo` is the step it repeats.
- The `postMessage` transport is not modelled. Each half's posted messages are a sequence, and their delivery and the order of arrival between the halves are not modelled.
- The model does not cover a recorder replaced by a second `START_RECORDING` while the first still runs. The first recorder's later events are not modelled.
- The video player's own events are not modelled. Content.ContentScript.OnVideoPlay, OnVideoPause and OnTimeUpdate do not require that a video was detected, although the source only registers those listeners on a detected video.
- Times are whole seconds, not floating-point values. `NaN` and `undefined` are explicit `TimeValue` cases. Content.ContentScript.OnTimeUpdate always sends a valid time.
- JavaScript's full `trim` whitespace set and its regular-expression engine are not modelled. Whitespace is space, tab, carriage return and line feed, and the numbering is matched by hand.
- Overlay.Received records a time update as the position and duration shown (`Overlay.VideoClock`), not as its text. The text is `Overlay.VideoTimeText` of that value.
- overlay.html is not part of this model. The panel's initial text fields are taken as empty and the transcribe button as enabled.
- The overlay's switch has no `TIMESTAMPS_DATA` case. The answer to its own `GET_TIMESTAMPS` request therefore changes nothing, and Overlay.Received models it as written.
- Overlay.Panel.GenerateQuestions, Overlay.Panel.TranscribeAudio and Content.ContentScript.StartRecording each run to completion as one step. The source yields at its `await`s (overlay.js:91, 103, 112, 134 and 157, content.js:181), and other handlers can run in between. The model therefore loses two behaviours. An `AUDIO_RECORDED` that arrives during the transcription request re-enables the button, so a second transcription can start. A `STOP_RECORDING` that arrives while `getUserMedia` is pending finds no recorder that is recording and is lost. `TranscribeAudio` requires the enabled button. A button left disabled therefore blocks transcription until the next `AUDIO_RECORDED` enables it again (`Overlay.Received`).
- The panel state (`Overlay.PanelState`) holds the questions it lists as their parse, not as their markup. The list on screen is `Questions.Display` of that parse, and `Overlay.ReplyQuestionsReadBack` relates the two.
- Overlay.QuestionsGenerated is modelled as written. Without a key or a transcription, the early return skips the `finally` block, so the transcribe button stays disabled until the next `AUDIO_RECORDED`. This happens when `transcribeAudio` receives an empty transcription.
