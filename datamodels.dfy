/**
 * The current trimming model, `TRTTrimmedTimelineInfo`: a timeline with a
 * default head offset (FFOA), a default tail offset (LFOA) and optional
 * matched markers overriding each. Every setter recomputes the trimmed range
 * from these four fields alone, clamping so the range never inverts.
 */
module DataModels {
  import opened Foundation
  import opened Markers

  /** The four fields the trimmed range is recomputed from. */
  datatype TrimFields = TrimFields(
    defaultFfoa: Timecode,
    defaultLfoa: Timecode,
    markerFfoa: Option<MarkerInfo>,
    markerLfoa: Option<MarkerInfo>)

  /** The requested head offset: the matched marker's frame offset, otherwise the default. */
  function RequestedFfoa(f: TrimFields): int
  {
    if f.markerFfoa.Some? then f.markerFfoa.value.frmOffset else f.defaultFfoa.frames
  }

  /** The requested tail offset: the matched marker's frame offset itself, otherwise the default. */
  function RequestedLfoa(f: TrimFields): int
  {
    if f.markerLfoa.Some? then f.markerLfoa.value.frmOffset else f.defaultLfoa.frames
  }

  /** The head offset applied: the requested one, at most the full duration. */
  function ResolvedFfoa(full: TimecodeRange, f: TrimFields): int
  {
    Min(RequestedFfoa(f), full.Duration())
  }

  /** The tail offset applied: the requested one, at most what the head offset leaves. */
  function ResolvedLfoa(full: TimecodeRange, f: TrimFields): int
  {
    Min(RequestedLfoa(f), full.Duration() - ResolvedFfoa(full, f))
  }

  /** `_updateTimelineTimecodeTrimmed`: the trimmed range of `full` under the trim fields `f`. */
  function Trimmed(full: TimecodeRange, f: TrimFields): (r: TimecodeRange)
    ensures r.rate == full.rate
  {
    FrameSpan(full.start + ResolvedFfoa(full, f), full.end - ResolvedLfoa(full, f), full.rate)
  }

  /** With non-negative requests the trimmed range lies inside the full one. */
  lemma TrimmedWithinFull(full: TimecodeRange, f: TrimFields)
    requires RequestedFfoa(f) >= 0 && RequestedLfoa(f) >= 0
    ensures var r := Trimmed(full, f);
      full.start <= r.start <= r.end <= full.end
  {
  }

  /** Requests that fit the full duration are applied exactly. */
  lemma FittingRequestsApplied(full: TimecodeRange, f: TrimFields)
    requires 0 <= RequestedFfoa(f) && 0 <= RequestedLfoa(f) && RequestedFfoa(f) + RequestedLfoa(f) <= full.Duration()
    ensures var r := Trimmed(full, f);
      r.start == full.start + RequestedFfoa(f) && r.end == full.end - RequestedLfoa(f)
  {
  }

  /**
   * Requests that together exceed the full duration leave an empty range: a
   * head offset past the end empties it at the end, otherwise the head
   * offset is applied in full and the tail offset is cut to what is left.
   */
  lemma OverlongRequestsLeaveEmpty(full: TimecodeRange, f: TrimFields)
    requires 0 <= RequestedFfoa(f) && 0 <= RequestedLfoa(f) && full.Duration() <= RequestedFfoa(f) + RequestedLfoa(f)
    ensures var r := Trimmed(full, f);
      && r.Duration() == 0
      && r.start == full.start + Min(RequestedFfoa(f), full.Duration())
  {
  }

  /** The head and tail offsets of a trimmed range never add up to more than the full duration. */
  lemma OffsetsWithinDuration(full: TimecodeRange, f: TrimFields)
    ensures var r := Trimmed(full, f);
      (r.start - full.start) + (full.end - r.end) <= full.Duration()
  {
  }

  /** While a marker is matched for FFOA, the default FFOA has no effect on the trimmed range. */
  lemma FfoaMarkerOverridesDefault(full: TimecodeRange, f: TrimFields, offset: Timecode)
    requires f.markerFfoa.Some?
    ensures Trimmed(full, f.(defaultFfoa := offset)) == Trimmed(full, f)
  {
  }

  /** While a marker is matched for LFOA, the default LFOA has no effect on the trimmed range. */
  lemma LfoaMarkerOverridesDefault(full: TimecodeRange, f: TrimFields, offset: Timecode)
    requires f.markerLfoa.Some?
    ensures Trimmed(full, f.(defaultLfoa := offset)) == Trimmed(full, f)
  {
  }

  /** `TRTTrimmedTimelineInfo`. */
  class TrimmedTimelineInfo {
    const info: TimelineInfo

    var defaultFfoa: Timecode
    var defaultLfoa: Timecode
    var markerFfoa: Option<MarkerInfo>
    var markerLfoa: Option<MarkerInfo>
    var timecodeTrimmed: TimecodeRange

    function Fields(): TrimFields
      reads this
    {
      TrimFields(defaultFfoa, defaultLfoa, markerFfoa, markerLfoa)
    }

    /** The trimmed range is always the one the four trim fields determine. */
    ghost predicate Valid()
      reads this
    {
      timecodeTrimmed == Trimmed(info.timelineTcRange, Fields())
    }

    constructor (timelineInfo: TimelineInfo)
      ensures info == timelineInfo && Valid()
      ensures Fields() == TrimFields(Timecode(0, timelineInfo.timelineTcRange.rate),
                                     Timecode(0, timelineInfo.timelineTcRange.rate), None, None)
      ensures timecodeTrimmed == timelineInfo.timelineTcRange
    {
      info := timelineInfo;
      defaultFfoa := Timecode(0, timelineInfo.timelineTcRange.rate);
      defaultLfoa := Timecode(0, timelineInfo.timelineTcRange.rate);
      markerFfoa := None;
      markerLfoa := None;
      timecodeTrimmed := timelineInfo.timelineTcRange;
    }

    function TimelineName(): string { info.timelineName }

    function BinFilePath(): string { info.binPath }

    function BinLockInfo(): Option<LockInfo> { info.binLock }

    function TimelineColor(): Option<ClipColor> { info.timelineColor }

    function TimelineTimecodeExtents(): TimecodeRange { info.timelineTcRange }

    /** The trimmed range; with non-negative requests it lies inside the full range. */
    function TimelineTimecodeTrimmed(): (r: TimecodeRange)
      reads this
      ensures Valid() ==> r.rate == info.timelineTcRange.rate
      ensures Valid() && 0 <= RequestedFfoa(Fields()) && 0 <= RequestedLfoa(Fields()) ==>
        info.timelineTcRange.start <= r.start <= r.end <= info.timelineTcRange.end
    {
      timecodeTrimmed
    }

    function TimelineDateModified(): Timestamp { info.dateModified }

    function TimelineDateCreated(): Timestamp { info.dateCreated }

    function MarkerFfoa(): Option<MarkerInfo> reads this { markerFfoa }

    function MarkerLfoa(): Option<MarkerInfo> reads this { markerLfoa }

    /** Duration from the head to the FFOA. */
    function FfoaOffset(): (r: Timecode)
      reads this
      ensures r.rate == info.timelineTcRange.rate
      ensures r.frames + LfoaOffset().frames <= info.timelineTcRange.Duration()
      ensures Valid() ==> r.frames == ResolvedFfoa(info.timelineTcRange, Fields())
    {
      Timecode(timecodeTrimmed.start - info.timelineTcRange.start, info.timelineTcRange.rate)
    }

    /** Duration from the LFOA to the tail. */
    function LfoaOffset(): (r: Timecode)
      reads this
      ensures r.rate == info.timelineTcRange.rate
      ensures Valid() ==> r.frames == ResolvedLfoa(info.timelineTcRange, Fields())
    {
      Timecode(info.timelineTcRange.end - timecodeTrimmed.end, info.timelineTcRange.rate)
    }

    /** Sets the default FFOA; an offset at another rate is refused and nothing changes. */
    method SetGlobalFfoa(ffoaOffset: Timecode) returns (status: Status)
      requires Valid()
      modifies this
      ensures Valid()
      ensures status == (if ffoaOffset.rate == info.timelineTcRange.rate then Ok else RateMismatch)
      ensures Fields() == if status == Ok then old(Fields()).(defaultFfoa := ffoaOffset) else old(Fields())
    {
      if ffoaOffset.rate != timecodeTrimmed.rate {
        return RateMismatch;
      }
      defaultFfoa := ffoaOffset;
      UpdateTimelineTimecodeTrimmed();
      return Ok;
    }

    /** Sets the default LFOA; an offset at another rate is refused and nothing changes. */
    method SetGlobalLfoa(lfoaOffset: Timecode) returns (status: Status)
      requires Valid()
      modifies this
      ensures Valid()
      ensures status == (if lfoaOffset.rate == info.timelineTcRange.rate then Ok else RateMismatch)
      ensures Fields() == if status == Ok then old(Fields()).(defaultLfoa := lfoaOffset) else old(Fields())
    {
      if lfoaOffset.rate != timecodeTrimmed.rate {
        return RateMismatch;
      }
      defaultLfoa := lfoaOffset;
      UpdateTimelineTimecodeTrimmed();
      return Ok;
    }

    /** Adopts the first marker (by ascending offset) matching the preset for FFOA; `None` clears it. */
    method SetMarkerFfoaFromPreset(markerPreset: Option<MarkerPreset>)
      requires Valid()
      modifies this
      ensures Valid()
      ensures Fields() == old(Fields()).(markerFfoa := MarkerFor(markerPreset, info.markers, false))
    {
      if markerPreset.Some? {
        markerFfoa := FindMarkerFromPreset(markerPreset.value, false);
      } else {
        markerFfoa := None;
      }
      UpdateTimelineTimecodeTrimmed();
    }

    /** Adopts the first marker (by descending offset) matching the preset for LFOA; `None` clears it. */
    method SetMarkerLfoaFromPreset(markerPreset: Option<MarkerPreset>)
      requires Valid()
      modifies this
      ensures Valid()
      ensures Fields() == old(Fields()).(markerLfoa := MarkerFor(markerPreset, info.markers, true))
    {
      if markerPreset.Some? {
        markerLfoa := FindMarkerFromPreset(markerPreset.value, true);
      } else {
        markerLfoa := None;
      }
      UpdateTimelineTimecodeTrimmed();
    }

    /** `_updateTimelineTimecodeTrimmed`: re-derives the trimmed range from the trim fields. */
    method UpdateTimelineTimecodeTrimmed()
      modifies this`timecodeTrimmed
      ensures Valid()
    {
      var full := info.timelineTcRange;
      var resolvedFfoaOffset := Min(if markerFfoa.Some? then markerFfoa.value.frmOffset else defaultFfoa.frames,
                                    full.Duration());
      var adjustedStart := full.start + resolvedFfoaOffset;
      var resolvedLfoaOffset := Min(if markerLfoa.Some? then markerLfoa.value.frmOffset else defaultLfoa.frames,
                                    full.Duration() - resolvedFfoaOffset);
      var adjustedEnd := full.end - resolvedLfoaOffset;
      timecodeTrimmed := FrameSpan(adjustedStart, adjustedEnd, full.rate);
    }

    /**
     * `_findMarkerFromPreset`: the first marker matching the preset in
     * ascending frame-offset order (descending with `fromEnd`), that is, a
     * matching marker with the least (greatest) offset, or `None`.
     */
    method FindMarkerFromPreset(markerPreset: MarkerPreset, fromEnd: bool) returns (r: Option<MarkerInfo>)
      ensures r == FirstMatch(markerPreset, SortByOffset(info.markers, fromEnd))
      ensures r.None? <==> forall m :: m in info.markers ==> !Match(markerPreset, m)
      ensures r.Some? ==> r.value in info.markers && Match(markerPreset, r.value)
      ensures r.Some? ==> forall m :: m in info.markers && Match(markerPreset, m) ==> Precedes(r.value, m, fromEnd)
    {
      FirstMatchInOrderIsExtreme(markerPreset, info.markers, fromEnd);
      var sorted := SortByOffset(info.markers, fromEnd);
      for i := 0 to |sorted|
        invariant FirstMatch(markerPreset, sorted) == FirstMatch(markerPreset, sorted[i..])
      {
        if Match(markerPreset, sorted[i]) {
          return Some(sorted[i]);
        }
        assert sorted[i..][1..] == sorted[i + 1..];
      }
      return None;
    }
  }

  /** Repeating a setter with the same argument leaves the trimmed range as one call does. */
  method SetGlobalFfoaIdempotent(t: TrimmedTimelineInfo, offset: Timecode) returns (once: TimecodeRange, twice: TimecodeRange)
    requires t.Valid()
    modifies t
    ensures t.Valid() && twice == t.timecodeTrimmed
    ensures once == twice
  {
    var _ := t.SetGlobalFfoa(offset);
    once := t.timecodeTrimmed;
    var _ := t.SetGlobalFfoa(offset);
    twice := t.timecodeTrimmed;
  }

  /** Independent FFOA and LFOA settings reach the same trimmed range in either order. */
  method DefaultSettersCommute(a: TrimmedTimelineInfo, b: TrimmedTimelineInfo, ffoa: Timecode, lfoa: Timecode)
    requires a != b && a.Valid() && b.Valid()
    requires a.info == b.info && a.Fields() == b.Fields()
    modifies a, b
    ensures a.Valid() && b.Valid() && a.timecodeTrimmed == b.timecodeTrimmed
  {
    var _ := a.SetGlobalFfoa(ffoa);
    var _ := a.SetGlobalLfoa(lfoa);
    var _ := b.SetGlobalLfoa(lfoa);
    var _ := b.SetGlobalFfoa(ffoa);
  }

  /**
   * Scenario: a timeline of 240 frames at 24 fps (for instance 01:00:00:00 to
   * 01:00:10:00). An FFOA of one second moves the start on by 24 frames; an
   * LFOA of 240 frames then collapses the range onto the FFOA.
   */
  method OneSecondHeadThenFullTail(info: TimelineInfo) returns (afterHead: TimecodeRange, afterTail: TimecodeRange)
    requires info.timelineTcRange.Duration() == 240 && info.timelineTcRange.rate == 24
    ensures afterHead.start == info.timelineTcRange.start + 24 && afterHead.end == info.timelineTcRange.end
    ensures afterHead.Duration() == 216
    ensures afterTail.start == afterTail.end == info.timelineTcRange.start + 24
  {
    var t := new TrimmedTimelineInfo(info);
    var headStatus := t.SetGlobalFfoa(Timecode(24, 24));
    afterHead := t.timecodeTrimmed;
    var tailStatus := t.SetGlobalLfoa(Timecode(240, 24));
    afterTail := t.timecodeTrimmed;
  }
}
