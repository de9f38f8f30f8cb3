# Total running time: the timeline trimming model

This project models the trimming core of a tool that reports the total running
time (TRT) of the reels of a film. The tool reads the timelines (sequences) of
Avid bins. Each timeline has a full timecode range. It gets trimmed by a head
offset, the FFOA (first frame of action), and a tail offset, the LFOA (last
frame of action). Each offset comes either from a global default or from a marker
that matches a preset. The TRT is the sum of the trimmed durations.

Modules, one per source file plus two shared ones:

- `Foundation` holds the values the core reads from outside libraries.
  - A `Timecode` is a frame count and a rate.
  - A `TimecodeRange` is a start and an end at one rate, with `start <= end`.
  - The end of a range is taken to be **exclusive**, so the duration is `end - start`.
  - The records the bin parser hands over are `MarkerInfo`, `LockInfo` and `TimelineInfo`.
  - Dates are opaque `Timestamp` integers.
- `Markers` models `TRTMarkerPresetInfo.match`, which `trt_model/datamodels.py`
  and `trt_model/_datamodels.py` define identically. It also models:
  - Python's substring test;
  - the stable `sorted` by frame offset;
  - the first-match search.
- `DataModels` models `TRTTrimmedTimelineInfo`, the current version, as a class.
  - Its fields are updated in place by the setters.
  - `Valid()` says that the trimmed range is `Trimmed(full, Fields())`, a pure
    function of the four trim fields.
  - The getters are functions. The ones for the timeline's record read the
    constant `info`; the trimmed range, the matched markers and the two offsets
    read the mutable fields.
- `CachedDataModels` models the older `TRTDataModel.CalculatedTimelineInfo`.
  - Each trim update starts from the previous trimmed range.
  - It is specified by the pure state transformers `UpdateFfoa` and `UpdateLfoa`.
- `TimelineController` models the `Controller` of `examples/from_timeline_info.py`.
  - It is an ordered list of distinct trimmed timelines, and settings are broadcast to them.
  - `Trt()` is the sum of the trimmed durations at 24 fps.
  - The eight-reel example script is modelled as `ExampleScript`.
- `ViewItems` models the pure string formatters of `trt_model/viewitems.py`.
  - The class attribute `STRING_PADDING` can be reassigned by callers, so each
    formatter takes the padding as a parameter. `DefaultPadding` is the declared value, 0.

The comments and annotations of the source disagree with its code in several
places. For example, `_updateLFOAOffset` is documented as setting the FFOA, and
the clamps are described as "must be less than" where `min` allows equality.
The one the model depends on is the annotation of the marker fields: they are
typed as presets but hold the matched `MarkerInfo`. The model follows the code
throughout.

## Model

| member | source | states |
|---|---|---|
| Markers.Match | trt_model/datamodels.py:20-28 | `match`, the same in both versions: a match needs all three criteria set (the inverted substring tests are characterised by `MatchIsInvertedContainment`) |
| Markers.MarkerFor | trt_model/datamodels.py:154 | the marker a timeline adopts: none for an unset preset; otherwise none iff no marker of the timeline matches, else a matching marker of the timeline with the least offset (greatest from the end) |
| Markers.ContainsIff | trt_model/datamodels.py:25-26 | Python's `p in s` holds exactly when `p` occurs in `s` at some index |
| Markers.MatchIsInvertedContainment | trt_model/datamodels.py:20-28 | a preset matches iff its colour is set and equal, its author is set and occurs nowhere in the marker's author, and its comment is set and occurs nowhere in the marker's comment |
| Markers.UnsetCriterionNeverMatches | trt_model/_datamodels.py:50-58 | a preset with any criterion unset matches no marker, so the search finds nothing |
| Markers.AuthorContainedRejects | trt_model/datamodels.py:25 | the inverted test rejects a marker whose author contains the preset's author ("Joe" in "Joel") |
| Markers.Insert | trt_model/datamodels.py:183 | inserting into an ordered list keeps it ordered and adds exactly the one element |
| Markers.SortByOffset | trt_model/datamodels.py:183 | the result is ordered by frame offset (descending with `reverse`) and is a permutation of the input |
| Markers.FirstMatch | trt_model/_datamodels.py:224-228 | `None` iff no candidate matches; otherwise a matching candidate with no match before it |
| Markers.FirstMatchInOrderIsExtreme | trt_model/datamodels.py:180-187 | searching in offset order finds a matching marker of the timeline with the least offset (greatest when from the end), and finds none iff no marker matches |
| DataModels.Trimmed | trt_model/datamodels.py:175-178 | the trimmed range keeps the rate of the full range |
| DataModels.TrimmedWithinFull | trt_model/datamodels.py:163-178 | with non-negative requests, `full.start <= trimmed.start <= trimmed.end <= full.end` |
| DataModels.FittingRequestsApplied | trt_model/datamodels.py:167-173 | requests that fit the duration move the start and the end by exactly the requested offsets |
| DataModels.OverlongRequestsLeaveEmpty | trt_model/datamodels.py:167-173 | requests that together exceed the duration leave an empty range whose start is moved by the head offset, capped at the duration: the FFOA wins |
| DataModels.OffsetsWithinDuration | trt_model/datamodels.py:167-173 | the applied head and tail offsets never add up to more than the full duration |
| DataModels.FfoaMarkerOverridesDefault | trt_model/datamodels.py:167 | while an FFOA marker is matched, the default FFOA has no effect |
| DataModels.LfoaMarkerOverridesDefault | trt_model/datamodels.py:172 | while an LFOA marker is matched, the default LFOA has no effect |
| DataModels.TrimmedTimelineInfo.constructor | trt_model/datamodels.py:64-82 | both defaults are 0 at the timeline's rate, there are no marker overrides, and the trimmed range is the full range |
| DataModels.TrimmedTimelineInfo.TimelineTimecodeTrimmed | trt_model/datamodels.py:84-122 | the accessors: the trimmed range is at the timeline's rate and, with non-negative requests, inside the full range; the other accessors return the record's fields and the matched markers as stored |
| DataModels.TrimmedTimelineInfo.FfoaOffset | trt_model/datamodels.py:124-126 | the head distance `trimmed.start - full.start`, at the timeline's rate; it equals the resolved FFOA, and with the tail distance it fits the full duration |
| DataModels.TrimmedTimelineInfo.LfoaOffset | trt_model/datamodels.py:128-130 | the tail distance `full.end - trimmed.end`, which equals the resolved LFOA |
| DataModels.TrimmedTimelineInfo.SetGlobalFfoa | trt_model/datamodels.py:133-140 | an offset at another rate is refused and changes nothing; otherwise only the default FFOA changes and the trimmed range is recomputed |
| DataModels.TrimmedTimelineInfo.SetGlobalLfoa | trt_model/datamodels.py:142-149 | the same for the default LFOA |
| DataModels.TrimmedTimelineInfo.SetMarkerFfoaFromPreset | trt_model/datamodels.py:151-155 | the FFOA marker becomes the first match in ascending offset order, or `None` for an unset preset; nothing else changes and the range is recomputed |
| DataModels.TrimmedTimelineInfo.SetMarkerLfoaFromPreset | trt_model/datamodels.py:157-161 | the same for the LFOA marker, in descending offset order |
| DataModels.TrimmedTimelineInfo.UpdateTimelineTimecodeTrimmed | trt_model/datamodels.py:163-178 | recomputing re-establishes `trimmed == Trimmed(full, fields)` and changes no other field |
| DataModels.TrimmedTimelineInfo.FindMarkerFromPreset | trt_model/datamodels.py:180-187 | the loop returns the first match of the sorted markers, which is a matching marker with the extreme offset, or `None` iff none matches |
| DataModels.SetGlobalFfoaIdempotent | trt_model/datamodels.py:133-140 | setting the same FFOA twice leaves the trimmed range as one call does |
| DataModels.DefaultSettersCommute | trt_model/datamodels.py:133-149 | setting FFOA then LFOA gives the same trimmed range as LFOA then FFOA |
| DataModels.OneSecondHeadThenFullTail | trt_model/datamodels.py:163-178 | on 240 frames at 24 fps, an FFOA of 24 frames moves the start on by 24; an LFOA of 240 then collapses the range onto the FFOA |
| CachedDataModels.UpdateFfoa | trt_model/_datamodels.py:194-205 | only the active head offset and the trimmed range change; the new start is `extents.start` plus the unclamped offset; the end is kept, or pushed onto the new start |
| CachedDataModels.UpdateLfoa | trt_model/_datamodels.py:207-218 | only the active tail offset and the range change; the tail distance is `duration - frm_offset - 1` for a marker, otherwise the default; the start stays and the end honours the distance unless the range collapses |
| CachedDataModels.Consistent | trt_model/_datamodels.py:194-218 | the invariant of a cached state: the range is at the timeline's rate, the stored head offset is the head distance, and the stored tail offset is at least the tail distance |
| CachedDataModels.InitialConsistent | trt_model/_datamodels.py:88-92 | a fresh timeline's state is consistent |
| CachedDataModels.UpdatesKeepConsistent | trt_model/_datamodels.py:194-218 | both updates keep a state consistent, whatever defaults and markers it holds |
| CachedDataModels.FreshFittingDefaultsAgree | trt_model/_datamodels.py:194-218 | on a fresh timeline, defaults that fit give the current version's range, in either order |
| CachedDataModels.StaleEndAfterLoweringFfoa | trt_model/_datamodels.py:202-205 | an FFOA past the end, lowered back to 0, leaves the end beyond the extents, where the current version gives the full range |
| CachedDataModels.StaleEndAfterClearingFfoaMarker | trt_model/_datamodels.py:202-218 | on 240 frames, an LFOA of 140, an FFOA marker at 150 and clearing the marker leave the range 0 to 150 with a reported tail offset of 140, where the current version gives 0 to 100 |
| CachedDataModels.LfoaMarkerConventionsDiffer | trt_model/_datamodels.py:211 | the cached version ends the range just after the LFOA marker, the current one at `end - frm_offset`; the two agree only for a marker at the exact midpoint |
| CachedDataModels.CalculatedTimelineInfo.constructor | trt_model/_datamodels.py:70-92 | zero defaults and active offsets, no markers, the full range |
| CachedDataModels.CalculatedTimelineInfo.TimelineTimecodeTrimmed | trt_model/_datamodels.py:94-132 | the accessors: the trimmed range is at the timeline's rate and starts at the reported FFOA; the other accessors return the record's fields and the matched markers as stored |
| CachedDataModels.CalculatedTimelineInfo.FfoaOffset | trt_model/_datamodels.py:134-136 | the stored head offset, which is exactly the head distance of the trimmed range |
| CachedDataModels.CalculatedTimelineInfo.LfoaOffset | trt_model/_datamodels.py:138-140 | the stored tail offset, which is at least the tail distance of the trimmed range (more once the end is stale) |
| CachedDataModels.CalculatedTimelineInfo.SetGlobalFfoa | trt_model/_datamodels.py:143-150 | an offset at another rate is refused and changes nothing; otherwise the new state is `UpdateFfoa` of the old one with the new default |
| CachedDataModels.CalculatedTimelineInfo.SetGlobalLfoa | trt_model/_datamodels.py:152-159 | the same with `UpdateLfoa` |
| CachedDataModels.CalculatedTimelineInfo.FindMarkerFfoaFromPreset | trt_model/_datamodels.py:161-175 | returns and stores the first match in ascending offset order (`None` for an unset preset), then updates the head |
| CachedDataModels.CalculatedTimelineInfo.FindMarkerLfoaFromPreset | trt_model/_datamodels.py:177-191 | the same in descending order, then updates the tail |
| CachedDataModels.CalculatedTimelineInfo.UpdateFfoaOffset | trt_model/_datamodels.py:194-205 | the new state is `UpdateFfoa` of the old one |
| CachedDataModels.CalculatedTimelineInfo.UpdateLfoaOffset | trt_model/_datamodels.py:207-218 | the new state is `UpdateLfoa` of the old one |
| CachedDataModels.CalculatedTimelineInfo.FindMarkerFromPreset | trt_model/_datamodels.py:220-228 | the loop returns the first matching marker of the list, or `None` iff none matches |
| TimelineController.SumOfShifted | examples/from_timeline_info.py:40-41 | lowering every term by `k` lowers the sum by `k` per term |
| TimelineController.FirstRateMismatch | examples/from_timeline_info.py:18-26 | the index of the first timeline at another rate: every timeline before it has the rate |
| TimelineController.TailTrimmedTotal | examples/from_timeline_info.py:63-69 | with no head trim and a tail trim of `n` frames that fits every timeline, the trimmed durations sum to the full durations minus `n` per timeline |
| TimelineController.BroadcastFfoa | examples/from_timeline_info.py:20-21 | the timelines before the first rate mismatch get the new default FFOA, the others are unchanged, and the status is `Ok` iff there is no mismatch |
| TimelineController.BroadcastLfoa | examples/from_timeline_info.py:25-26 | the same for the default LFOA |
| TimelineController.AdoptFfoaMarkers | examples/from_timeline_info.py:31-32 | every timeline adopts its FFOA marker for the preset and nothing else changes |
| TimelineController.AdoptLfoaMarkers | examples/from_timeline_info.py:37-38 | the same for the LFOA marker |
| TimelineController.Controller.constructor | examples/from_timeline_info.py:7-9 | an empty list and no presets; the source creates the preset attributes only in `addTimeline`, and nothing reads them before, so starting them at `None` changes no behaviour |
| TimelineController.Controller.AddTimeline | examples/from_timeline_info.py:11-16 | appends exactly one new wrapped timeline, leaves the earlier ones and their order unchanged, and resets both stored presets to `None` |
| TimelineController.Controller.SetRelativeFfoa | examples/from_timeline_info.py:18-21 | the list stays the same; every timeline up to the first rate mismatch gets the default FFOA, and the status reports whether all did |
| TimelineController.Controller.SetRelativeLfoa | examples/from_timeline_info.py:23-26 | the same for the default LFOA |
| TimelineController.Controller.SetMarkerFfoa | examples/from_timeline_info.py:28-32 | stores the preset, and every timeline adopts its FFOA marker for it |
| TimelineController.Controller.SetMarkerLfoa | examples/from_timeline_info.py:34-38 | stores the preset, and every timeline adopts its LFOA marker for it |
| TimelineController.Controller.Trt | examples/from_timeline_info.py:40-41 | the sum of the trimmed durations at rate 24, and 0 for an empty controller |
| TimelineController.Reel | examples/from_timeline_info.py:50-62 | reel `n` lasts `240 - n` frames at 24 fps |
| TimelineController.AddReel | examples/from_timeline_info.py:49-62 | each added reel is appended, fresh and untrimmed, and the full durations add up to the running total of the reels so far |
| TimelineController.BuildReels | examples/from_timeline_info.py:47-62 | eight reels are added, lasting 1892 frames in all |
| TimelineController.ExampleScript | examples/from_timeline_info.py:45-69 | the TRT is 1892 frames before the trims, and 1892 - 8 * 20 after an LFOA of 20 frames |
| ViewItems.PadLeft | trt_model/viewitems.py:139 | `rjust`: length `max(len, width)`, the input as suffix, spaces before it |
| ViewItems.LStrip | trt_model/viewitems.py:235 | `lstrip(chars)`: a suffix of the input; every removed character is in the set, and the first kept one is not |
| ViewItems.RFind | trt_model/viewitems.py:231 | `rfind`: the last index of the character, or -1 when it is absent |
| ViewItems.SliceBound | trt_model/viewitems.py:233 | a Python slice bound: a bound within the string is kept, a negative one counts from the end, one past the end gives the length and one before the start gives 0 |
| ViewItems.NatToString | trt_model/viewitems.py:88-89 | `str` of a natural number: decimal digits with no leading zero |
| ViewItems.NatRoundTrip | trt_model/viewitems.py:88-89 | parsing `str(n)` gives back `n` |
| ViewItems.IntToString | trt_model/viewitems.py:88-89 | `str` of an integer: starts with '-' iff it is negative, and holds no space and no '+' |
| ViewItems.IntRoundTrip | trt_model/viewitems.py:88-89 | `str(i)` is well formed and parses back to `i` |
| ViewItems.NumericToString | trt_model/viewitems.py:137-139 | `str(data)` right-justified: length `max(len, padding)`, ending with `str(data)` |
| ViewItems.NumericRoundTrip | trt_model/viewitems.py:137-139 | stripping the padding gives back `str(data)`, which parses to `data` |
| ViewItems.PaddingStrips | trt_model/viewitems.py:139 | stripping spaces from a right-justified string that does not start with a space recovers it |
| ViewItems.ZFill | trt_model/viewitems.py:262 | `zfill`: length `max(len, width)`, the text as suffix with all-'0' fill before it; a sign moves to the front with the zeros after it |
| ViewItems.FramesField | trt_model/viewitems.py:262 | the frames field is two digits denoting `n % 16` |
| ViewItems.FeetFramesToString | trt_model/viewitems.py:260-262 | the `feet+ff` text right-justified to the padding; stripping the padding (as the `formatted` field of `to_json` at line 257 does) gives the text back, and it reads back as the frame count |
| ViewItems.FeetFramesRoundTrip | trt_model/viewitems.py:260-262 | `feet+ff` reads back as `n`, with `feet * 16 + ff == n` and `ff` in 0 to 15 |
| ViewItems.PythonFloorDivision16 | trt_model/viewitems.py:262 | Python's `n // 16`, the `q` with `16 * q <= n < 16 * q + 16`, and `n % 16 == n - 16 * q` are Dafny's `n / 16` and `n % 16`, negative `n` included |
| ViewItems.DurationCut | trt_model/viewitems.py:231-233 | the cut index lies within the text |
| ViewItems.DurationHead | trt_model/viewitems.py:235 | the head keeps a suffix of the text before the cut; every removed character is '-', '0' or ':', and the first kept one is not |
| ViewItems.DurationToString | trt_model/viewitems.py:224-237 | sign, stripped head and tail, right-justified to the padding |
| ViewItems.DurationKeepsTail | trt_model/viewitems.py:231-237 | the tail from one character before the last ':' ends the output unchanged |
| ViewItems.DurationSign | trt_model/viewitems.py:228-237 | a '-' at the start of the input starts the output; the converse holds for inputs with no '-' after their first character |
| ViewItems.StrayMinusBecomesSign | trt_model/viewitems.py:228-237 | without that condition the converse fails: "0-:5" becomes "-:5" |
| ViewItems.BinLockDisplay | trt_model/viewitems.py:315 | the display text is empty exactly when there is no lock or the holder's name is empty, and otherwise is the holder's name |
| ViewItems.BinLockJson | trt_model/viewitems.py:319-320 | no value iff there is no lock or its name is empty; otherwise the name |
| ViewItems.BinLockJsonRecoversDisplay | trt_model/viewitems.py:315-320 | the JSON value gives back the display text, with no value standing for "" |

## Left out

- Qt and PySide6 code is not modelled: views, item models, role tables, delegates, palettes and fonts. It is user interface glue.
- Bin-file I/O, the `BinViewLoader` thread pool and the parser libraries become plain input records.
- Dates and colour conversions are left out. `datetime.now()` in the example script becomes the parameter `now`.
- The `print` calls of the example script are left out. `ExampleScript` returns the two TRT values instead.
- The example's `Timecode("0n:00:00:00", rate=24)` is converted by hand to `n * 86400` frames. The timecode library's parsing and formatting are not modelled.
- The example's duration `Timecode("00:00:10", rate=24)` is read as 10 seconds, 240 frames. This is an assumption about how the timecode library parses a three-field text.
- Frame rates are whole numbers (`Rate` is a `nat`). Non-integer rates such as 23.976 are left out. The core only compares rates for equality, so nothing else depends on this.
- `str(Timecode)` is an opaque input string to the duration formatter.
- Rate checks inside the timecode library's own arithmetic are not modelled. The core adds plain frame counts.
- The `ValueError` of the rate checks becomes the `RateMismatch` status.
  - A timeline that refuses changes nothing.
  - In the Controller, the exception ends the loop early, and the status reports it.
- `TRTDataModel.__init__` is left out; it only creates two unused lists.
- Markers.SortByOffset: the contract states the order and the permutation but not stability. The body is a stable insertion sort, like Python's `sorted`, so ties keep their list order.
- ViewItems.NumericToString: models integer data only. The source takes any value that `str` accepts.
- ViewItems.DurationSign: proves "output starts with '-' exactly when the input does" only for inputs with no '-' after the first character. `StrayMinusBecomesSign` shows the general claim fails for such texts, which a real timecode never produces.
- TimelineController.Controller.SetRelativeLfoa: its effect on the TRT is not stated in its own contract. `TailTrimmedTotal` states it over the timeline fields that the method's contract determines.

## Findings

| source | as written | input that shows it | evidently intended | confidence | as-written member | corrected member |
|---|---|---|---|---|---|---|
| trt_model/_datamodels.py:202-205 | the new end is `max(old end, new start)`, so an end pushed out by a large FFOA is never pulled back | extents 0 to 240; an FFOA of 300, then an FFOA of 0: the range becomes 0 to 300, beyond the timeline | the trimmed range stays within the timeline's extents and depends only on the current trims | not executed | CachedDataModels.StaleEndAfterLoweringFfoa | DataModels.TrimmedWithinFull |
| trt_model/_datamodels.py:202-218 | the same `max` keeps a stale end inside the extents, and `lfoaOffset()` keeps reporting the tail offset last computed | extents 0 to 240; an LFOA of 140 (end 100), an FFOA marker at 150 (end 150), then the marker cleared: the range is 0 to 150 while `lfoaOffset()` reports 140 | clearing the marker restores the range 0 to 100 that the LFOA of 140 asks for | not executed | CachedDataModels.StaleEndAfterClearingFfoaMarker | DataModels.FittingRequestsApplied |
