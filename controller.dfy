/**
 * The `Controller` of the example driver: an ordered list of trimmed
 * timelines to which offset and marker settings are broadcast, and the total
 * running time (TRT) as the sum of their trimmed durations.
 */
module TimelineController {
  import opened Foundation
  import opened Markers
  import opened DataModels

  function Sum(xs: seq<int>): int
  {
    if xs == [] then 0 else Sum(xs[..|xs| - 1]) + xs[|xs| - 1]
  }

  /** Lowering every element by `k` lowers the sum by `k` per element. */
  lemma {:induction false} SumOfShifted(xs: seq<int>, ys: seq<int>, k: int)
    requires |xs| == |ys|
    requires forall i :: 0 <= i < |xs| ==> ys[i] == xs[i] - k
    ensures Sum(ys) == Sum(xs) - k * |xs|
  {
    if xs != [] {
      SumOfShifted(xs[..|xs| - 1], ys[..|ys| - 1], k);
    }
  }

  /** The trimmed duration of each timeline, in list order. */
  function TrimmedDurations(ts: seq<TrimmedTimelineInfo>): seq<int>
    reads ts
  {
    seq(|ts|, i requires 0 <= i < |ts| reads ts => ts[i].timecodeTrimmed.Duration())
  }

  /** The index of the first timeline whose rate is not `rate` (the list's length if there is none). */
  function FirstRateMismatch(ts: seq<TrimmedTimelineInfo>, rate: Rate): (k: nat)
    ensures k <= |ts|
    ensures forall i :: 0 <= i < k ==> ts[i].info.timelineTcRange.rate == rate
    ensures k < |ts| ==> ts[k].info.timelineTcRange.rate != rate
  {
    if ts == [] then 0
    else if ts[0].info.timelineTcRange.rate != rate then 0
    else 1 + FirstRateMismatch(ts[1..], rate)
  }

  /** The trimming fields of each timeline, in list order. */
  function FieldsOf(ts: seq<TrimmedTimelineInfo>): seq<TrimFields>
    reads ts
  {
    seq(|ts|, i requires 0 <= i < |ts| reads ts => ts[i].Fields())
  }

  /** The only trim requested is a default tail offset of `n` frames. */
  predicate OnlyTailTrim(f: TrimFields, n: int)
  {
    f.markerFfoa.None? && f.defaultFfoa.frames == 0 && f.markerLfoa.None? && f.defaultLfoa.frames == n
  }

  /** The full duration of each timeline, in list order. */
  function FullDurations(ts: seq<TrimmedTimelineInfo>): seq<int>
  {
    seq(|ts|, i requires 0 <= i < |ts| => ts[i].info.timelineTcRange.Duration())
  }

  /** Timelines trimmed only at the tail, by `n` frames that fit each, add up to `n` less per timeline. */
  lemma TailTrimmedTotal(ts: seq<TrimmedTimelineInfo>, n: int)
    requires AllValid(ts)
    requires forall j :: 0 <= j < |ts| ==> OnlyTailTrim(ts[j].Fields(), n) && 0 <= n <= ts[j].info.timelineTcRange.Duration()
    ensures Sum(TrimmedDurations(ts)) == Sum(FullDurations(ts)) - n * |ts|
  {
    forall j | 0 <= j < |ts| ensures TrimmedDurations(ts)[j] == FullDurations(ts)[j] - n {
      assert ts[j].Valid();
    }
    SumOfShifted(FullDurations(ts), TrimmedDurations(ts), n);
  }

  /** No timeline object occurs twice in the list. */
  predicate Distinct(ts: seq<TrimmedTimelineInfo>)
  {
    forall i, j :: 0 <= i < j < |ts| ==> ts[i] != ts[j]
  }

  /** Every timeline of the list has its trimmed range up to date. */
  ghost predicate AllValid(ts: seq<TrimmedTimelineInfo>)
    reads ts
  {
    forall i :: 0 <= i < |ts| ==> ts[i].Valid()
  }

  /**
   * The loop of `setRelativeFFOA`: sets the default FFOA of each timeline in
   * turn and stops at the first one that refuses it for its rate.
   */
  method BroadcastFfoa(ts: seq<TrimmedTimelineInfo>, ffoa: Timecode) returns (status: Status)
    requires Distinct(ts) && AllValid(ts)
    modifies ts
    ensures AllValid(ts)
    ensures var k := FirstRateMismatch(ts, ffoa.rate);
      && (status == Ok <==> k == |ts|)
      && forall i :: 0 <= i < |ts| ==>
           ts[i].Fields() == if i < k then old(ts[i].Fields()).(defaultFfoa := ffoa) else old(ts[i].Fields())
  {
    ghost var fields := FieldsOf(ts);
    ghost var k := FirstRateMismatch(ts, ffoa.rate);
    for i := 0 to |ts|
      invariant i <= k
      invariant forall j :: 0 <= j < i ==> ts[j].Valid() && ts[j].Fields() == fields[j].(defaultFfoa := ffoa)
      invariant forall j :: i <= j < |ts| ==> ts[j].Valid() && ts[j].Fields() == fields[j]
    {
      assert forall j :: 0 <= j < |ts| && j != i ==> ts[j] != ts[i];
      var st := ts[i].SetGlobalFfoa(ffoa);
      if st == RateMismatch {
        assert i == k;
        return RateMismatch;
      }
    }
    return Ok;
  }

  /** The loop of `setRelativeLFOA`, as `BroadcastFfoa` for the default LFOA. */
  method BroadcastLfoa(ts: seq<TrimmedTimelineInfo>, lfoa: Timecode) returns (status: Status)
    requires Distinct(ts) && AllValid(ts)
    modifies ts
    ensures AllValid(ts)
    ensures var k := FirstRateMismatch(ts, lfoa.rate);
      && (status == Ok <==> k == |ts|)
      && forall i :: 0 <= i < |ts| ==>
           ts[i].Fields() == if i < k then old(ts[i].Fields()).(defaultLfoa := lfoa) else old(ts[i].Fields())
  {
    ghost var fields := FieldsOf(ts);
    ghost var k := FirstRateMismatch(ts, lfoa.rate);
    for i := 0 to |ts|
      invariant i <= k
      invariant forall j :: 0 <= j < i ==> ts[j].Valid() && ts[j].Fields() == fields[j].(defaultLfoa := lfoa)
      invariant forall j :: i <= j < |ts| ==> ts[j].Valid() && ts[j].Fields() == fields[j]
    {
      assert forall j :: 0 <= j < |ts| && j != i ==> ts[j] != ts[i];
      var st := ts[i].SetGlobalLfoa(lfoa);
      if st == RateMismatch {
        assert i == k;
        return RateMismatch;
      }
    }
    return Ok;
  }

  /** The loop of `setMarkerFFOA`: every timeline adopts its FFOA marker for the preset. */
  method AdoptFfoaMarkers(ts: seq<TrimmedTimelineInfo>, markerPreset: Option<MarkerPreset>)
    requires Distinct(ts) && AllValid(ts)
    modifies ts
    ensures AllValid(ts)
    ensures forall i :: 0 <= i < |ts| ==>
      ts[i].Fields() == old(ts[i].Fields()).(markerFfoa := MarkerFor(markerPreset, ts[i].info.markers, false))
  {
    ghost var before := FieldsOf(ts);
    ghost var after := seq(|ts|, j requires 0 <= j < |ts| =>
      before[j].(markerFfoa := MarkerFor(markerPreset, ts[j].info.markers, false)));
    for i := 0 to |ts|
      invariant forall j :: 0 <= j < i ==> ts[j].Valid() && ts[j].Fields() == after[j]
      invariant forall j :: i <= j < |ts| ==> ts[j].Valid() && ts[j].Fields() == before[j]
    {
      assert forall j :: 0 <= j < |ts| && j != i ==> ts[j] != ts[i];
      ts[i].SetMarkerFfoaFromPreset(markerPreset);
    }
  }

  /** The loop of `setMarkerLFOA`: every timeline adopts its LFOA marker for the preset. */
  method AdoptLfoaMarkers(ts: seq<TrimmedTimelineInfo>, markerPreset: Option<MarkerPreset>)
    requires Distinct(ts) && AllValid(ts)
    modifies ts
    ensures AllValid(ts)
    ensures forall i :: 0 <= i < |ts| ==>
      ts[i].Fields() == old(ts[i].Fields()).(markerLfoa := MarkerFor(markerPreset, ts[i].info.markers, true))
  {
    ghost var before := FieldsOf(ts);
    ghost var after := seq(|ts|, j requires 0 <= j < |ts| =>
      before[j].(markerLfoa := MarkerFor(markerPreset, ts[j].info.markers, true)));
    for i := 0 to |ts|
      invariant forall j :: 0 <= j < i ==> ts[j].Valid() && ts[j].Fields() == after[j]
      invariant forall j :: i <= j < |ts| ==> ts[j].Valid() && ts[j].Fields() == before[j]
    {
      assert forall j :: 0 <= j < |ts| && j != i ==> ts[j] != ts[i];
      ts[i].SetMarkerLfoaFromPreset(markerPreset);
    }
  }

  class Controller {
    var timelines: seq<TrimmedTimelineInfo>
    var markerFfoa: Option<MarkerPreset>
    var markerLfoa: Option<MarkerPreset>

    /** The timelines are distinct objects, each with its trimmed range up to date. */
    ghost predicate Valid()
      reads this, timelines
    {
      Distinct(timelines) && AllValid(timelines)
    }

    constructor ()
      ensures Valid() && timelines == [] && markerFfoa == None && markerLfoa == None
    {
      timelines := [];
      markerFfoa := None;
      markerLfoa := None;
    }

    /**
     * Wraps the record in a new trimmed timeline at the end of the list,
     * leaving the earlier ones as they were, and resets the stored presets.
     */
    method AddTimeline(timeline: TimelineInfo)
      requires Valid()
      modifies this
      ensures Valid()
      ensures |timelines| == |old(timelines)| + 1 && timelines[..|old(timelines)|] == old(timelines)
      ensures forall i :: 0 <= i < |old(timelines)| ==> timelines[i].Fields() == old(timelines[i].Fields())
      ensures var added := timelines[|old(timelines)|];
        && fresh(added) && added.info == timeline && added.timecodeTrimmed == timeline.timelineTcRange
        && added.Fields() == TrimFields(Timecode(0, timeline.timelineTcRange.rate),
                                        Timecode(0, timeline.timelineTcRange.rate), None, None)
      ensures markerFfoa == None && markerLfoa == None
    {
      var t := new TrimmedTimelineInfo(timeline);
      timelines := timelines + [t];
      markerFfoa := None;
      markerLfoa := None;
    }

    /**
     * Sets the default FFOA of every timeline in list order. The first
     * timeline at another rate stops the broadcast: the timelines before it
     * keep the new offset, it and the ones after it are left unchanged.
     */
    method SetRelativeFfoa(ffoa: Timecode) returns (status: Status)
      requires Valid()
      modifies timelines
      ensures Valid()
      ensures var k := FirstRateMismatch(timelines, ffoa.rate);
        && (status == Ok <==> k == |timelines|)
        && forall i :: 0 <= i < |timelines| ==>
             timelines[i].Fields() == if i < k then old(timelines[i].Fields()).(defaultFfoa := ffoa)
                                      else old(timelines[i].Fields())
    {
      status := BroadcastFfoa(timelines, ffoa);
    }

    /**
     * Sets the default LFOA of every timeline in list order, stopping at the
     * first timeline at another rate (see `TailTrimmedTotal` for its effect
     * on the TRT).
     */
    method SetRelativeLfoa(lfoa: Timecode) returns (status: Status)
      requires Valid()
      modifies timelines
      ensures Valid()
      ensures var k := FirstRateMismatch(timelines, lfoa.rate);
        && (status == Ok <==> k == |timelines|)
        && forall i :: 0 <= i < |timelines| ==>
             timelines[i].Fields() == if i < k then old(timelines[i].Fields()).(defaultLfoa := lfoa)
                                      else old(timelines[i].Fields())
    {
      status := BroadcastLfoa(timelines, lfoa);
    }

    /** Stores the preset and has every timeline adopt its FFOA marker for it. */
    method SetMarkerFfoa(markerPreset: Option<MarkerPreset>)
      requires Valid()
      modifies this, timelines
      ensures Valid() && timelines == old(timelines)
      ensures markerFfoa == markerPreset && markerLfoa == old(markerLfoa)
      ensures forall i :: 0 <= i < |timelines| ==>
        timelines[i].Fields() == old(timelines[i].Fields()).(markerFfoa := MarkerFor(markerPreset, timelines[i].info.markers, false))
    {
      markerFfoa := markerPreset;
      AdoptFfoaMarkers(timelines, markerPreset);
    }

    /** Stores the preset and has every timeline adopt its LFOA marker for it. */
    method SetMarkerLfoa(markerPreset: Option<MarkerPreset>)
      requires Valid()
      modifies this, timelines
      ensures Valid() && timelines == old(timelines)
      ensures markerLfoa == markerPreset && markerFfoa == old(markerFfoa)
      ensures forall i :: 0 <= i < |timelines| ==>
        timelines[i].Fields() == old(timelines[i].Fields()).(markerLfoa := MarkerFor(markerPreset, timelines[i].info.markers, true))
    {
      markerLfoa := markerPreset;
      AdoptLfoaMarkers(timelines, markerPreset);
    }

    /** Total running time: the trimmed durations summed, counted at 24 fps. */
    function Trt(): (r: Timecode)
      reads this, timelines
      ensures r.rate == 24
      ensures timelines == [] ==> r.frames == 0
    {
      Timecode(Sum(TrimmedDurations(timelines)), 24)
    }
  }

  /** Sum of the durations 240, 239, ... of the first `n` reels of the example script. */
  function ReelTotal(n: nat): int
  {
    if n == 0 then 0 else ReelTotal(n - 1) + 240 - (n - 1)
  }

  /** Reel `n` of the example script: it starts at n hours plus n frames and lasts 240 - n frames at 24 fps. */
  function Reel(n: nat, now: Timestamp): (r: TimelineInfo)
    requires n < 10
    ensures r.timelineTcRange.Duration() == 240 - n && r.timelineTcRange.rate == 24
  {
    var digit := [('0' as int + n) as char];
    var start := n * 86400 + n;
    TimelineInfo("Reel " + digit, FrameSpan(start, start + (240 - n), 24), None, now, now, [],
                 "/Users/mjordan/Desktop/Reel " + digit + ".avb", None)
  }

  /** The example script's state after its first `n` reels were added. */
  ghost predicate ReelsAdded(controller: Controller, n: nat)
    reads controller, controller.timelines
  {
    && controller.Valid() && |controller.timelines| == n
    && (forall i :: 0 <= i < n ==>
         && controller.timelines[i].info.timelineTcRange.rate == 24
         && controller.timelines[i].info.timelineTcRange.Duration() == 240 - i
         && OnlyTailTrim(controller.timelines[i].Fields(), 0))
    && Sum(FullDurations(controller.timelines)) == ReelTotal(n)
  }

  /** Adds reel `n` of the example script. */
  method AddReel(controller: Controller, n: nat, now: Timestamp)
    requires n < 8 && ReelsAdded(controller, n)
    modifies controller
    ensures ReelsAdded(controller, n + 1)
    ensures controller.timelines == old(controller.timelines) + [controller.timelines[n]] && fresh(controller.timelines[n])
  {
    ghost var previous := controller.timelines;
    controller.AddTimeline(Reel(n, now));
    assert controller.timelines == previous + [controller.timelines[n]];
    assert FullDurations(controller.timelines)[..n] == FullDurations(previous);
  }

  /** The controller of the example script after its eight reels were added. */
  method BuildReels(now: Timestamp) returns (controller: Controller)
    ensures fresh(controller) && fresh(controller.timelines) && ReelsAdded(controller, 8)
    ensures Sum(FullDurations(controller.timelines)) == 1892
  {
    controller := new Controller();
    for n := 0 to 8
      invariant fresh(controller) && fresh(controller.timelines) && ReelsAdded(controller, n)
    {
      AddReel(controller, n, now);
    }
    assert ReelTotal(8) == 1892;
  }

  /**
   * The example script: eight reels lasting 240 - n frames at 24 fps, no
   * markers; the TRT before and after an LFOA of 20 frames.
   */
  method ExampleScript(now: Timestamp) returns (beforeTrims: Timecode, afterTrims: Timecode)
    ensures beforeTrims == Timecode(1892, 24)
    ensures afterTrims == Timecode(1892 - 8 * 20, 24)
  {
    var controller := BuildReels(now);
    ghost var reels := controller.timelines;
    TailTrimmedTotal(reels, 0);
    beforeTrims := controller.Trt();
    var _ := controller.SetRelativeLfoa(Timecode(20, 24));
    assert FirstRateMismatch(reels, 24) == 8;
    TailTrimmedTotal(reels, 20);
    afterTrims := controller.Trt();
  }
}
