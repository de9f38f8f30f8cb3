/**
 * The older, cached trimming model, `TRTDataModel.CalculatedTimelineInfo`.
 * It keeps the active head and tail offsets and trims incrementally: each
 * update starts from the previous trimmed range, moves one end and only
 * stops the range from inverting (it never clamps against the timeline's
 * extents). An LFOA marker is turned into a tail distance with
 * `duration - frm_offset - 1`.
 */
module CachedDataModels {
  import opened Foundation
  import opened Markers
  import DataModels

  /** Everything `CalculatedTimelineInfo` updates. */
  datatype CachedState = CachedState(
    defaultFfoa: Timecode,
    defaultLfoa: Timecode,
    markerFfoa: Option<MarkerInfo>,
    markerLfoa: Option<MarkerInfo>,
    activeFfoaOffset: Timecode,
    activeLfoaOffset: Timecode,
    timecodeTrimmed: TimecodeRange)

  /** Head distance: the FFOA marker's frame offset, otherwise the default. */
  function FfoaFrameOffset(marker: Option<MarkerInfo>, defaultFfoa: Timecode): int
  {
    if marker.Some? then marker.value.frmOffset else defaultFfoa.frames
  }

  /** Tail distance: from the frame after the LFOA marker to the end, otherwise the default. */
  function LfoaFrameOffset(extents: TimecodeRange, marker: Option<MarkerInfo>, defaultLfoa: Timecode): int
  {
    if marker.Some? then extents.Duration() - marker.value.frmOffset - 1 else defaultLfoa.frames
  }

  /** `_updateFFOAOffset`: recomputes the active head offset and moves the start. */
  function UpdateFfoa(extents: TimecodeRange, s: CachedState): (r: CachedState)
    // only the active head offset and the trimmed range change
    ensures r.(activeFfoaOffset := s.activeFfoaOffset, timecodeTrimmed := s.timecodeTrimmed) == s
    // the stored head offset is exactly the head distance of the new range: no clamping
    ensures r.timecodeTrimmed.start - extents.start == r.activeFfoaOffset.frames == FfoaFrameOffset(s.markerFfoa, s.defaultFfoa)
    // the end never moves earlier; it is kept, or pushed onto the new start
    ensures r.timecodeTrimmed.end >= s.timecodeTrimmed.end
    ensures r.timecodeTrimmed.end == s.timecodeTrimmed.end || r.timecodeTrimmed.Duration() == 0
    ensures r.activeFfoaOffset.rate == s.timecodeTrimmed.rate && r.timecodeTrimmed.rate == extents.rate
  {
    var frameOffset := FfoaFrameOffset(s.markerFfoa, s.defaultFfoa);
    s.(activeFfoaOffset := Timecode(frameOffset, s.timecodeTrimmed.rate),
       timecodeTrimmed := FrameSpan(extents.start + frameOffset,
                                    Max(s.timecodeTrimmed.end, extents.start + frameOffset), extents.rate))
  }

  /** `_updateLFOAOffset`: recomputes the active tail offset and moves the end. */
  function UpdateLfoa(extents: TimecodeRange, s: CachedState): (r: CachedState)
    // only the active tail offset and the trimmed range change
    ensures r.(activeLfoaOffset := s.activeLfoaOffset, timecodeTrimmed := s.timecodeTrimmed) == s
    ensures r.activeLfoaOffset.frames == LfoaFrameOffset(extents, s.markerLfoa, s.defaultLfoa)
    // the start stays; the end honours the stored tail offset unless the range collapses
    ensures r.timecodeTrimmed.start == s.timecodeTrimmed.start
    ensures r.timecodeTrimmed.end >= extents.end - r.activeLfoaOffset.frames
    ensures r.timecodeTrimmed.end == extents.end - r.activeLfoaOffset.frames || r.timecodeTrimmed.Duration() == 0
    ensures r.activeLfoaOffset.rate == s.timecodeTrimmed.rate && r.timecodeTrimmed.rate == s.timecodeTrimmed.rate
  {
    var frameOffset := LfoaFrameOffset(extents, s.markerLfoa, s.defaultLfoa);
    s.(activeLfoaOffset := Timecode(frameOffset, s.timecodeTrimmed.rate),
       timecodeTrimmed := FrameSpan(s.timecodeTrimmed.start,
                                    Max(extents.end - frameOffset, s.timecodeTrimmed.start), s.timecodeTrimmed.rate))
  }

  /** The state of a timeline that has not been trimmed. */
  function Initial(extents: TimecodeRange): CachedState
  {
    CachedState(Timecode(0, extents.rate), Timecode(0, extents.rate), None, None,
                Timecode(0, extents.rate), Timecode(0, extents.rate), extents)
  }

  /**
   * What every state of a cached timeline keeps: the range is at the
   * timeline's rate, the stored head offset is the range's head distance,
   * and the stored tail offset is at least its tail distance (the end can
   * lie later than the tail offset asks, never earlier).
   */
  predicate Consistent(extents: TimecodeRange, s: CachedState)
  {
    && s.timecodeTrimmed.rate == extents.rate
    && s.timecodeTrimmed.start - extents.start == s.activeFfoaOffset.frames
    && extents.end - s.timecodeTrimmed.end <= s.activeLfoaOffset.frames
  }

  lemma InitialConsistent(extents: TimecodeRange)
    ensures Consistent(extents, Initial(extents))
  {
  }

  /** Both updates keep a state consistent, whatever defaults and markers it holds. */
  lemma UpdatesKeepConsistent(extents: TimecodeRange, s: CachedState)
    requires Consistent(extents, s)
    ensures Consistent(extents, UpdateFfoa(extents, s))
    ensures Consistent(extents, UpdateLfoa(extents, s))
  {
  }

  /**
   * On a fresh timeline, default offsets that fit the duration give the same
   * range as the current model, whichever of FFOA and LFOA is set first.
   */
  lemma FreshFittingDefaultsAgree(extents: TimecodeRange, ffoa: int, lfoa: int)
    requires 0 <= ffoa && 0 <= lfoa && ffoa + lfoa <= extents.Duration()
    ensures var current := DataModels.Trimmed(extents,
              DataModels.TrimFields(Timecode(ffoa, extents.rate), Timecode(lfoa, extents.rate), None, None));
      var s0 := Initial(extents);
      && UpdateLfoa(extents, UpdateFfoa(extents, s0.(defaultFfoa := Timecode(ffoa, extents.rate)))
           .(defaultLfoa := Timecode(lfoa, extents.rate))).timecodeTrimmed == current
      && UpdateFfoa(extents, UpdateLfoa(extents, s0.(defaultLfoa := Timecode(lfoa, extents.rate)))
           .(defaultFfoa := Timecode(ffoa, extents.rate))).timecodeTrimmed == current
  {
  }

  /**
   * The cached model keeps a stale end: an FFOA past the end pushes the end
   * out with it, and lowering the FFOA back to 0 leaves the end there, beyond
   * the timeline's extents, where the current model returns the full range.
   */
  lemma StaleEndAfterLoweringFfoa(extents: TimecodeRange, far: int)
    requires far > extents.Duration()
    ensures var s1 := UpdateFfoa(extents, Initial(extents).(defaultFfoa := Timecode(far, extents.rate)));
      var s2 := UpdateFfoa(extents, s1.(defaultFfoa := Timecode(0, extents.rate)));
      && s2.timecodeTrimmed == FrameSpan(extents.start, extents.start + far, extents.rate)
      && s2.timecodeTrimmed.end > extents.end
      && DataModels.Trimmed(extents, DataModels.TrimFields(Timecode(0, extents.rate), Timecode(0, extents.rate), None, None)) == extents
  {
  }

  /**
   * The stale end inside the extents: an LFOA of 140 on 240 frames ends the
   * range at 100; an FFOA marker at 150 pushes the end to 150; clearing the
   * marker moves the start back but leaves the end at 150. The reported
   * tail offset is still 140 while the range's tail distance is 90, where
   * the current model gives the range 0 to 100.
   */
  lemma StaleEndAfterClearingFfoaMarker(marker: MarkerInfo)
    requires marker.frmOffset == 150
    ensures var extents: TimecodeRange := FrameSpan(0, 240, 24);
      var s1 := UpdateLfoa(extents, Initial(extents).(defaultLfoa := Timecode(140, 24)));
      var s2 := UpdateFfoa(extents, s1.(markerFfoa := Some(marker)));
      var s3 := UpdateFfoa(extents, s2.(markerFfoa := None));
      && s1.timecodeTrimmed == FrameSpan(0, 100, 24)
      && s3.timecodeTrimmed == FrameSpan(0, 150, 24)
      && s3.activeLfoaOffset.frames == 140 && extents.end - s3.timecodeTrimmed.end == 90
      && DataModels.Trimmed(extents, DataModels.TrimFields(Timecode(0, 24), Timecode(140, 24), None, None)) == FrameSpan(0, 100, 24)
  {
  }

  /**
   * The two models read an LFOA marker differently. Here the marked frame
   * becomes the last frame kept (the end is just after it); the current model
   * takes the marker's offset from the start as the distance from the end.
   * The two ends coincide only when the marker sits at the exact midpoint.
   */
  lemma LfoaMarkerConventionsDiffer(extents: TimecodeRange, marker: MarkerInfo)
    requires 0 <= marker.frmOffset < extents.Duration()
    ensures var cached := UpdateLfoa(extents, Initial(extents).(markerLfoa := Some(marker))).timecodeTrimmed;
      var current := DataModels.Trimmed(extents,
        DataModels.TrimFields(Timecode(0, extents.rate), Timecode(0, extents.rate), None, Some(marker)));
      && cached.end == extents.start + marker.frmOffset + 1
      && current.end == extents.end - marker.frmOffset
      && (cached == current <==> extents.Duration() == 2 * marker.frmOffset + 1)
  {
  }

  /** `TRTDataModel.CalculatedTimelineInfo`. */
  class CalculatedTimelineInfo {
    const info: TimelineInfo

    var defaultFfoa: Timecode
    var defaultLfoa: Timecode
    var markerFfoa: Option<MarkerInfo>
    var markerLfoa: Option<MarkerInfo>
    var activeFfoaOffset: Timecode
    var activeLfoaOffset: Timecode
    var timecodeTrimmed: TimecodeRange

    function State(): CachedState
      reads this
    {
      CachedState(defaultFfoa, defaultLfoa, markerFfoa, markerLfoa, activeFfoaOffset, activeLfoaOffset, timecodeTrimmed)
    }

    /** The fields form a consistent state for the timeline's extents. */
    ghost predicate Valid()
      reads this
    {
      Consistent(info.timelineTcRange, State())
    }

    constructor (timelineInfo: TimelineInfo)
      ensures info == timelineInfo && Valid()
      ensures State() == Initial(timelineInfo.timelineTcRange)
    {
      info := timelineInfo;
      defaultFfoa := Timecode(0, timelineInfo.timelineTcRange.rate);
      defaultLfoa := Timecode(0, timelineInfo.timelineTcRange.rate);
      markerFfoa := None;
      markerLfoa := None;
      activeFfoaOffset := Timecode(0, timelineInfo.timelineTcRange.rate);
      activeLfoaOffset := Timecode(0, timelineInfo.timelineTcRange.rate);
      timecodeTrimmed := timelineInfo.timelineTcRange;
    }

    function TimelineName(): string { info.timelineName }

    function BinFilePath(): string { info.binPath }

    function BinLockInfo(): Option<LockInfo> { info.binLock }

    function TimelineColor(): Option<ClipColor> { info.timelineColor }

    function TimelineTimecodeExtents(): TimecodeRange { info.timelineTcRange }

    function TimelineTimecodeTrimmed(): (r: TimecodeRange)
      reads this
      ensures Valid() ==> r.rate == info.timelineTcRange.rate && r.start == info.timelineTcRange.start + FfoaOffset().frames
    {
      timecodeTrimmed
    }

    function TimelineDateModified(): Timestamp { info.dateModified }

    function TimelineDateCreated(): Timestamp { info.dateCreated }

    function MarkerFfoa(): Option<MarkerInfo> reads this { markerFfoa }

    function MarkerLfoa(): Option<MarkerInfo> reads this { markerLfoa }

    /** Duration from head to FFOA, as last computed: the head distance of the range. */
    function FfoaOffset(): (r: Timecode)
      reads this
      ensures Valid() ==> r.frames == timecodeTrimmed.start - info.timelineTcRange.start
    {
      activeFfoaOffset
    }

    /**
     * Duration from LFOA to tail, as last computed: at least the tail
     * distance of the range (more once the end went stale, see
     * `StaleEndAfterClearingFfoaMarker`).
     */
    function LfoaOffset(): (r: Timecode)
      reads this
      ensures Valid() ==> info.timelineTcRange.end - timecodeTrimmed.end <= r.frames
    {
      activeLfoaOffset
    }

    /** Sets the default FFOA and moves the start; an offset at another rate is refused and nothing changes. */
    method SetGlobalFfoa(ffoa: Timecode) returns (status: Status)
      requires Valid()
      modifies this
      ensures Valid()
      ensures status == (if ffoa.rate == info.timelineTcRange.rate then Ok else RateMismatch)
      ensures State() == if status == Ok then UpdateFfoa(info.timelineTcRange, old(State()).(defaultFfoa := ffoa))
                         else old(State())
    {
      if ffoa.rate != timecodeTrimmed.rate {
        return RateMismatch;
      }
      defaultFfoa := ffoa;
      UpdateFfoaOffset();
      return Ok;
    }

    /** Sets the default LFOA and moves the end; an offset at another rate is refused and nothing changes. */
    method SetGlobalLfoa(lfoa: Timecode) returns (status: Status)
      requires Valid()
      modifies this
      ensures Valid()
      ensures status == (if lfoa.rate == info.timelineTcRange.rate then Ok else RateMismatch)
      ensures State() == if status == Ok then UpdateLfoa(info.timelineTcRange, old(State()).(defaultLfoa := lfoa))
                         else old(State())
    {
      if lfoa.rate != timecodeTrimmed.rate {
        return RateMismatch;
      }
      defaultLfoa := lfoa;
      UpdateLfoaOffset();
      return Ok;
    }

    /** Adopts the first FFOA marker in ascending offset order (none for an unset preset) and returns it. */
    method FindMarkerFfoaFromPreset(markerPreset: Option<MarkerPreset>) returns (r: Option<MarkerInfo>)
      requires Valid()
      modifies this
      ensures Valid()
      ensures r == MarkerFor(markerPreset, info.markers, false)
      ensures State() == UpdateFfoa(info.timelineTcRange, old(State()).(markerFfoa := r))
    {
      if markerPreset.None? {
        markerFfoa := None;
      } else {
        markerFfoa := FindMarkerFromPreset(markerPreset.value, SortByOffset(info.markers, false));
      }
      UpdateFfoaOffset();
      return markerFfoa;
    }

    /** Adopts the first LFOA marker in descending offset order (none for an unset preset) and returns it. */
    method FindMarkerLfoaFromPreset(markerPreset: Option<MarkerPreset>) returns (r: Option<MarkerInfo>)
      requires Valid()
      modifies this
      ensures Valid()
      ensures r == MarkerFor(markerPreset, info.markers, true)
      ensures State() == UpdateLfoa(info.timelineTcRange, old(State()).(markerLfoa := r))
    {
      if markerPreset.None? {
        markerLfoa := None;
      } else {
        markerLfoa := FindMarkerFromPreset(markerPreset.value, SortByOffset(info.markers, true));
      }
      UpdateLfoaOffset();
      return markerLfoa;
    }

    /** `_updateFFOAOffset`. */
    method UpdateFfoaOffset()
      requires Valid()
      modifies this`activeFfoaOffset, this`timecodeTrimmed
      ensures Valid()
      ensures State() == UpdateFfoa(info.timelineTcRange, old(State()))
    {
      var frameOffset := if markerFfoa.Some? then markerFfoa.value.frmOffset else defaultFfoa.frames;
      activeFfoaOffset := Timecode(frameOffset, timecodeTrimmed.rate);
      var extents := info.timelineTcRange;
      timecodeTrimmed := FrameSpan(extents.start + frameOffset, Max(timecodeTrimmed.end, extents.start + frameOffset),
                                   extents.rate);
    }

    /** `_updateLFOAOffset`. */
    method UpdateLfoaOffset()
      requires Valid()
      modifies this`activeLfoaOffset, this`timecodeTrimmed
      ensures Valid()
      ensures State() == UpdateLfoa(info.timelineTcRange, old(State()))
    {
      var extents := info.timelineTcRange;
      var frameOffset := if markerLfoa.Some? then extents.Duration() - markerLfoa.value.frmOffset - 1
                         else defaultLfoa.frames;
      activeLfoaOffset := Timecode(frameOffset, timecodeTrimmed.rate);
      timecodeTrimmed := FrameSpan(timecodeTrimmed.start, Max(extents.end - frameOffset, timecodeTrimmed.start),
                                   timecodeTrimmed.rate);
    }

    /** `_findMarkerFromPreset`: the first marker of `markerList` that matches the preset, or `None`. */
    static method FindMarkerFromPreset(markerPreset: MarkerPreset, markerList: seq<MarkerInfo>) returns (r: Option<MarkerInfo>)
      ensures r == FirstMatch(markerPreset, markerList)
      ensures r.None? <==> forall i :: 0 <= i < |markerList| ==> !Match(markerPreset, markerList[i])
      ensures r.Some? ==> r.value in markerList && Match(markerPreset, r.value)
    {
      for i := 0 to |markerList|
        invariant FirstMatch(markerPreset, markerList) == FirstMatch(markerPreset, markerList[i..])
      {
        if Match(markerPreset, markerList[i]) {
          return Some(markerList[i]);
        }
        assert markerList[i..][1..] == markerList[i + 1..];
      }
      return None;
    }
  }
}
