/**
 * What the page side (content script) and the embedded panel (overlay)
 * send each other through `postMessage`, and the records they carry.
 */
module Messages {
  import opened Wrappers
  import opened TimeFormat

  type Byte = b: int | 0 <= b < 256

  /** One `dataavailable` piece of the recording. */
  type Chunk = seq<Byte>

  /**
   * A timestamp record: the video time, its display string, and the
   * creation time (an ISO date string read from the clock).
   */
  datatype Timestamp = Timestamp(time: nat, formattedTime: string, createdAt: string)

  /**
   * The recording as the content script hands it over: the data URL of a
   * Blob made of the recorded chunks, kept here as those chunks.
   */
  datatype AudioData = AudioData(chunks: seq<Chunk>)

  /** Messages the content script posts to the overlay, and any other `type` the overlay may receive. */
  datatype ToOverlay =
    | VideoDetected(duration: TimeValue)
    | VideoPlay
    | VideoPause
    | TimeUpdate(currentTime: TimeValue, duration: TimeValue)
    | TimestampAdded(timestamp: Timestamp)
    | TimestampsData(timestamps: seq<Timestamp>)
    | RecordingStarted
    | AudioRecorded(audioBlob: Option<AudioData>)
    | RecordingError(error: string)
    | OtherToOverlay(kind: string)

  /** Messages the overlay posts to the page, and any other `type` the page may receive. */
  datatype ToContent =
    | StartRecording
    | StopRecording
    | SeekTo(time: nat)
    | GetTimestamps
    | OtherToContent(kind: string)
}
