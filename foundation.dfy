/**
 * Value types shared by both versions of the trimming model: the pieces of
 * the external `timecode` library and of the bin parser (`avbutils`) that the
 * core reads, and the timeline record the parser hands over.
 */
module Foundation {

  datatype Option<+T> = None | Some(value: T)

  /** Outcome of a setter that may refuse its argument (the source raises `ValueError`). */
  datatype Status = Ok | RateMismatch

  /** Frames per second of a timecode. */
  type Rate = nat

  /** A timecode: a frame number counted at a frame rate. */
  datatype Timecode = Timecode(frames: int, rate: Rate)

  /**
   * A timecode range at one rate. The end is exclusive: the range covers the
   * frames start, start + 1, ..., end - 1, so its duration is end - start.
   */
  datatype FrameSpan = FrameSpan(start: int, end: int, rate: Rate)
  {
    function Duration(): int { end - start }
  }

  /** Ranges never run backwards; every range the core builds keeps start <= end. */
  type TimecodeRange = r: FrameSpan | r.start <= r.end witness FrameSpan(0, 0, 0)

  /** A marker colour of the bin format's enumeration, identified by its index. */
  type MarkerColor = nat

  /** A marker of a timeline; `frmOffset` counts frames from the timeline's start. */
  datatype MarkerInfo = MarkerInfo(frmOffset: int, color: MarkerColor, author: string, comment: string)

  /** The 16-bit RGB label colour of a sequence. */
  datatype ClipColor = ClipColor(red: nat, green: nat, blue: nat)

  /** The lock a user holds on a bin file. */
  datatype LockInfo = LockInfo(name: string)

  /** Seconds since the epoch; the core only carries dates along. */
  type Timestamp = int

  /** One timeline (sequence) of a bin as the parser reports it; never changed afterwards. */
  datatype TimelineInfo = TimelineInfo(
    timelineName: string,
    timelineTcRange: TimecodeRange,
    timelineColor: Option<ClipColor>,
    dateCreated: Timestamp,
    dateModified: Timestamp,
    markers: seq<MarkerInfo>,
    binPath: string,
    binLock: Option<LockInfo>)

  function Min(a: int, b: int): int { if a <= b then a else b }

  function Max(a: int, b: int): int { if a >= b then a else b }
}
