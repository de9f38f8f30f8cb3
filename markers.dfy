/**
 * Marker presets and the marker search shared by both versions of the
 * trimming model: the matching rule, Python's substring test, the stable
 * sort of a timeline's markers by frame offset, and "first match in a list".
 */
module Markers {
  import opened Foundation

  /** A rule for picking a marker; the criteria that are `None` are unset. */
  datatype MarkerPreset = MarkerPreset(
    presetName: string,
    color: Option<MarkerColor>,
    author: Option<string>,
    comment: Option<string>)

  /** Python's `p in s` on strings: `p` occurs somewhere in `s` (the empty string occurs everywhere). */
  predicate Contains(s: string, p: string)
    decreases |s|
  {
    (|p| <= |s| && s[..|p|] == p) || (|s| > 0 && Contains(s[1..], p))
  }

  /** `p` occurs in `s` starting at index `i`. */
  ghost predicate OccursAt(s: string, p: string, i: int)
  {
    0 <= i && i + |p| <= |s| && s[i..i + |p|] == p
  }

  /** The recursive substring test agrees with "occurs at some index". */
  lemma {:induction false} ContainsIff(s: string, p: string)
    ensures Contains(s, p) <==> exists i :: OccursAt(s, p, i)
    decreases |s|
  {
    if |p| <= |s| && s[..|p|] == p {
      assert OccursAt(s, p, 0);
    } else if |s| == 0 {
      forall i | OccursAt(s, p, i) ensures false {
      }
    } else {
      ContainsIff(s[1..], p);
      if Contains(s[1..], p) {
        var i :| OccursAt(s[1..], p, i);
        assert s[i + 1..i + 1 + |p|] == s[1..][i..i + |p|];
        assert OccursAt(s, p, i + 1);
      } else {
        forall i | OccursAt(s, p, i) ensures false {
          assert i != 0;
          assert s[1..][i - 1..i - 1 + |p|] == s[i..i + |p|];
          assert OccursAt(s[1..], p, i - 1);
        }
      }
    }
  }

  /**
   * `TRTMarkerPresetInfo.match`: every criterion must be set, the colour must
   * be equal, and the author and comment criteria must NOT occur in the
   * marker's author and comment (the source tests `not in`).
   */
  predicate Match(preset: MarkerPreset, marker: MarkerInfo)
    ensures Match(preset, marker) ==> preset.color.Some? && preset.author.Some? && preset.comment.Some?
  {
    && (preset.color.Some? && preset.color.value == marker.color)
    && (preset.author.Some? && !Contains(marker.author, preset.author.value))
    && (preset.comment.Some? && !Contains(marker.comment, preset.comment.value))
  }

  /**
   * The match is the conjunction of three set criteria, and the author and
   * comment criteria are satisfied exactly when they occur NOWHERE in the
   * marker's text.
   */
  lemma MatchIsInvertedContainment(preset: MarkerPreset, marker: MarkerInfo)
    ensures Match(preset, marker) <==>
      && preset.color == Some(marker.color)
      && preset.author.Some? && (forall i :: !OccursAt(marker.author, preset.author.value, i))
      && preset.comment.Some? && (forall i :: !OccursAt(marker.comment, preset.comment.value, i))
  {
    if preset.author.Some? {
      ContainsIff(marker.author, preset.author.value);
    }
    if preset.comment.Some? {
      ContainsIff(marker.comment, preset.comment.value);
    }
  }

  /** A preset with any criterion unset matches no marker at all. */
  lemma UnsetCriterionNeverMatches(preset: MarkerPreset, markers: seq<MarkerInfo>)
    requires preset.color.None? || preset.author.None? || preset.comment.None?
    ensures FirstMatch(preset, markers) == None
  {
  }

  /** Scenario: the preset (RED, "Joe", "final") does not match a marker by "Joel", since "Joe" IS in "Joel". */
  lemma AuthorContainedRejects()
    ensures !Match(MarkerPreset("Takes", Some(1), Some("Joe"), Some("final")), MarkerInfo(0, 1, "Joel", "draft cut"))
  {
    assert "Joel"[..|"Joe"|] == "Joe";
  }

  // ---------------------------------------------------------------------
  // `sorted(markers, key=lambda m: m.frm_offset, reverse=...)`

  /** `a` may come before `b` in ascending (`reverse` false) or descending frame-offset order. */
  predicate Precedes(a: MarkerInfo, b: MarkerInfo, reverse: bool)
  {
    if reverse then a.frmOffset >= b.frmOffset else a.frmOffset <= b.frmOffset
  }

  ghost predicate Ordered(s: seq<MarkerInfo>, reverse: bool)
  {
    forall i, j :: 0 <= i < j < |s| ==> Precedes(s[i], s[j], reverse)
  }

  /**
   * Puts `m` in front of the first element it may precede. Elements of equal
   * offset that follow `m` stay behind it, so the sort below is stable, as
   * Python's `sorted` is (with and without `reverse`).
   */
  function Insert(m: MarkerInfo, s: seq<MarkerInfo>, reverse: bool): (r: seq<MarkerInfo>)
    requires Ordered(s, reverse)
    ensures Ordered(r, reverse)
    ensures multiset(r) == multiset(s) + multiset{m}
  {
    if s == [] || Precedes(m, s[0], reverse) then
      [m] + s
    else
      var rest := Insert(m, s[1..], reverse);
      InsertKeepsHeadFirst(m, s, rest, reverse);
      assert s == [s[0]] + s[1..];
      [s[0]] + rest
  }

  /** The head of `s` may precede everything the insertion into the tail of `s` produces. */
  lemma InsertKeepsHeadFirst(m: MarkerInfo, s: seq<MarkerInfo>, rest: seq<MarkerInfo>, reverse: bool)
    requires s != [] && Ordered(s, reverse) && !Precedes(m, s[0], reverse)
    requires Ordered(rest, reverse) && multiset(rest) == multiset(s[1..]) + multiset{m}
    ensures Ordered([s[0]] + rest, reverse)
  {
    forall k | 0 <= k < |rest| ensures Precedes(s[0], rest[k], reverse) {
      assert rest[k] in multiset(rest);
      if rest[k] != m {
        assert rest[k] in multiset(s[1..]);
        var j :| 0 <= j < |s[1..]| && s[1..][j] == rest[k];
        assert s[j + 1] == rest[k];
      }
    }
    var r := [s[0]] + rest;
    forall i, j | 0 <= i < j < |r| ensures Precedes(r[i], r[j], reverse) {
      if i == 0 {
        assert r[j] == rest[j - 1];
      } else {
        assert r[i] == rest[i - 1] && r[j] == rest[j - 1];
      }
    }
  }

  /** The markers sorted by frame offset, ascending or (with `reverse`) descending. */
  function SortByOffset(markers: seq<MarkerInfo>, reverse: bool): (r: seq<MarkerInfo>)
    ensures Ordered(r, reverse)
    ensures multiset(r) == multiset(markers)
  {
    if markers == [] then
      []
    else
      assert markers == [markers[0]] + markers[1..];
      Insert(markers[0], SortByOffset(markers[1..], reverse), reverse)
  }

  /** The first marker of `candidates` that matches, or `None`. */
  function FirstMatch(preset: MarkerPreset, candidates: seq<MarkerInfo>): (r: Option<MarkerInfo>)
    ensures r.None? <==> forall i :: 0 <= i < |candidates| ==> !Match(preset, candidates[i])
    ensures r.Some? ==> exists k :: (0 <= k < |candidates| && candidates[k] == r.value && Match(preset, r.value)
      && forall i :: 0 <= i < k ==> !Match(preset, candidates[i]))
  {
    if candidates == [] then
      None
    else if Match(preset, candidates[0]) then
      Some(candidates[0])
    else
      var r := FirstMatch(preset, candidates[1..]);
      assert r.Some? ==> var k :| 0 <= k < |candidates[1..]| && candidates[1..][k] == r.value
        && Match(preset, r.value) && forall i :: 0 <= i < k ==> !Match(preset, candidates[1..][i]);
        candidates[k + 1] == r.value && forall i :: 0 <= i < k + 1 ==> !Match(preset, candidates[i]);
      r
  }

  /**
   * The marker a timeline adopts for a preset: none when the preset is unset,
   * otherwise the first match in frame-offset order.
   */
  function MarkerFor(preset: Option<MarkerPreset>, markers: seq<MarkerInfo>, fromEnd: bool): (r: Option<MarkerInfo>)
    ensures preset.None? ==> r.None?
    ensures preset.Some? ==> (r.None? <==> forall m :: m in markers ==> !Match(preset.value, m))
    ensures r.Some? ==> && preset.Some? && r.value in markers && Match(preset.value, r.value)
                        && forall m :: m in markers && Match(preset.value, m) ==> Precedes(r.value, m, fromEnd)
  {
    if preset.None? then None
    else
      FirstMatchInOrderIsExtreme(preset.value, markers, fromEnd);
      FirstMatch(preset.value, SortByOffset(markers, fromEnd))
  }

  /** Two lists holding the same multiset hold the same elements. */
  lemma SameElements(a: seq<MarkerInfo>, b: seq<MarkerInfo>)
    requires multiset(a) == multiset(b)
    ensures forall m :: m in a <==> m in b
  {
    forall m ensures m in a <==> m in b {
      assert m in a <==> m in multiset(a);
      assert m in b <==> m in multiset(b);
    }
  }

  /** In an ordered list, the first match may precede every other match. */
  lemma FirstMatchPrecedesMatches(preset: MarkerPreset, s: seq<MarkerInfo>, reverse: bool)
    requires Ordered(s, reverse) && FirstMatch(preset, s).Some?
    ensures forall j :: 0 <= j < |s| && Match(preset, s[j]) ==> Precedes(FirstMatch(preset, s).value, s[j], reverse)
  {
    var r := FirstMatch(preset, s);
    var k :| 0 <= k < |s| && s[k] == r.value && Match(preset, r.value)
      && forall i :: 0 <= i < k ==> !Match(preset, s[i]);
    forall j | 0 <= j < |s| && Match(preset, s[j]) ensures Precedes(r.value, s[j], reverse) {
      assert k <= j;
    }
  }

  /**
   * The search in frame-offset order finds a matching marker of the timeline
   * with the least offset (greatest with `fromEnd`), and finds none exactly
   * when no marker matches.
   */
  lemma {:induction false} FirstMatchInOrderIsExtreme(preset: MarkerPreset, markers: seq<MarkerInfo>, fromEnd: bool)
    ensures var r := FirstMatch(preset, SortByOffset(markers, fromEnd));
      && (r.None? <==> forall m :: m in markers ==> !Match(preset, m))
      && (r.Some? ==> (r.value in markers && Match(preset, r.value)
            && forall m :: m in markers && Match(preset, m) ==> Precedes(r.value, m, fromEnd)))
  {
    var sorted := SortByOffset(markers, fromEnd);
    SameElements(markers, sorted);
    if FirstMatch(preset, sorted).Some? {
      FirstMatchPrecedesMatches(preset, sorted, fromEnd);
    }
  }
}
