/**
 * The pure string formatters of the view items: right-justified numbers,
 * 35mm feet+frames, durations with their leading zero fields stripped, and
 * the bin-lock display text. The class attribute `STRING_PADDING` can be
 * reassigned by a caller, so every formatter takes the padding as a parameter;
 * its default is `DefaultPadding`.
 */
module ViewItems {
  import opened Foundation

  /** `TRTNumericViewItem.STRING_PADDING` as declared. */
  const DefaultPadding: int := 0

  /** Python's `str.rjust(width)` with the default fill character. */
  function PadLeft(s: string, width: int): (r: string)
    ensures |r| == Max(|s|, width)
    ensures r[|r| - |s|..] == s
    ensures forall i :: 0 <= i < |r| - |s| ==> r[i] == ' '
  {
    if width <= |s| then s else seq(width - |s|, _ => ' ') + s
  }

  /** Python's `str.lstrip(chars)`: drop the longest prefix made of characters in `chars`. */
  function LStrip(s: string, chars: set<char>): (r: string)
    ensures |r| <= |s| && r == s[|s| - |r|..]
    ensures forall i :: 0 <= i < |s| - |r| ==> s[i] in chars
    ensures r == [] || r[0] !in chars
  {
    if s != [] && s[0] in chars then LStrip(s[1..], chars) else s
  }

  /** Python's `str.rfind(c)` for one character: the last index of `c`, or -1. */
  function RFind(s: string, c: char): (k: int)
    ensures -1 <= k < |s|
    ensures k >= 0 ==> s[k] == c
    ensures forall j :: k < j < |s| ==> s[j] != c
  {
    if s == [] then -1
    else if s[|s| - 1] == c then |s| - 1
    else RFind(s[..|s| - 1], c)
  }

  /** The first index of `c` in `s`, or -1. */
  function Find(s: string, c: char): (k: int)
    ensures -1 <= k < |s|
    ensures k >= 0 ==> s[k] == c
    ensures forall j :: 0 <= j < |s| && (k == -1 || j < k) ==> s[j] != c
  {
    if s == [] then -1
    else if s[0] == c then 0
    else var k := Find(s[1..], c); if k == -1 then -1 else k + 1
  }

  /** Where a Python slice bound `i` falls in a string of length `n`: negative bounds count from the end, all are clipped. */
  function SliceBound(i: int, n: nat): (r: nat)
    ensures r <= n
    ensures 0 <= i <= n ==> r == i
    ensures -(n as int) <= i < 0 ==> r as int == n as int + i
    ensures i > n ==> r == n
    ensures i < -(n as int) ==> r == 0
  {
    if i < 0 then Max(0, n + i) else Min(i, n)
  }

  // ---------------------------------------------------------------------
  // Decimal digits

  predicate IsDigit(c: char) { '0' <= c <= '9' }

  predicate AllDigits(s: string) { forall i :: 0 <= i < |s| ==> IsDigit(s[i]) }

  function DigitChar(d: int): (c: char)
    requires 0 <= d < 10
    ensures IsDigit(c)
  {
    ('0' as int + d) as char
  }

  function DigitValue(c: char): (d: int)
    requires IsDigit(c)
    ensures 0 <= d < 10
  {
    c as int - '0' as int
  }

  /** `str(n)` for a natural number: its decimal digits, without leading zeros. */
  function NatToString(n: nat): (r: string)
    ensures |r| >= 1 && AllDigits(r)
    ensures r[0] == '0' ==> n == 0
  {
    if n < 10 then [DigitChar(n)] else NatToString(n / 10) + [DigitChar(n % 10)]
  }

  /** A non-empty string of decimal digits. */
  predicate IsNatText(s: string) { |s| >= 1 && AllDigits(s) }

  /** A non-empty string of decimal digits, optionally after a minus sign. */
  predicate IsIntText(s: string)
  {
    |s| >= 1 && (if s[0] == '-' then IsNatText(s[1..]) else AllDigits(s))
  }

  /** The number a non-empty digit string denotes (leading zeros allowed). */
  function ParseNat(s: string): (n: nat)
    requires IsNatText(s)
  {
    if |s| == 1 then DigitValue(s[0]) else ParseNat(s[..|s| - 1]) * 10 + DigitValue(s[|s| - 1])
  }

  lemma {:induction false} NatRoundTrip(n: nat)
    ensures ParseNat(NatToString(n)) == n
  {
    if n >= 10 {
      NatRoundTrip(n / 10);
      var s := NatToString(n);
      assert s[..|s| - 1] == NatToString(n / 10);
    }
  }

  /** `str(i)` for an integer: a minus sign before the digits of a negative number. */
  function IntToString(i: int): (r: string)
    ensures |r| >= 1
    ensures r[0] == '-' <==> i < 0
    ensures ' ' !in r && '+' !in r
  {
    if i < 0 then "-" + NatToString(-i) else NatToString(i)
  }

  /** The integer an optionally signed digit string denotes. */
  function ParseInt(s: string): int
    requires IsIntText(s)
  {
    if s[0] == '-' then -(ParseNat(s[1..]) as int) else ParseNat(s)
  }

  lemma IntRoundTrip(i: int)
    ensures IsIntText(IntToString(i)) && ParseInt(IntToString(i)) == i
  {
    var s := IntToString(i);
    if i < 0 {
      assert s[1..] == NatToString(-i);
      NatRoundTrip(-i);
    } else {
      NatRoundTrip(i);
    }
  }

  // ---------------------------------------------------------------------
  // TRTNumericViewItem

  /** `TRTNumericViewItem.to_string` for integer data: `str(data)` right-justified to `padding`. */
  function NumericToString(data: int, padding: int): (r: string)
    ensures |r| == Max(|IntToString(data)|, padding)
    ensures r[|r| - |IntToString(data)|..] == IntToString(data)
  {
    PadLeft(IntToString(data), padding)
  }

  /** Stripping the padding off a formatted number gives back its `str`, which parses to the number. */
  lemma {:induction false} NumericRoundTrip(data: int, padding: int)
    ensures LStrip(NumericToString(data, padding), {' '}) == IntToString(data)
    ensures ParseInt(LStrip(NumericToString(data, padding), {' '})) == data
  {
    var r := NumericToString(data, padding);
    var s := IntToString(data);
    PaddingStrips(s, padding);
    IntRoundTrip(data);
  }

  /** Stripping spaces from a right-justified string without leading spaces recovers it. */
  lemma PaddingStrips(s: string, width: int)
    requires s != [] && s[0] != ' '
    ensures LStrip(PadLeft(s, width), {' '}) == s
  {
    var r := PadLeft(s, width);
    assert r[|r| - |s|] == s[0];
  }

  // ---------------------------------------------------------------------
  // TRTFeetFramesViewItem

  /** Python's `str.zfill(width)`: zeros inserted after an optional sign up to `width`. */
  function ZFill(s: string, width: int): (r: string)
    ensures |r| == Max(|s|, width)
    ensures r[|r| - |s|..] == s || (s[0] in {'+', '-'} && r[0] == s[0] && r[|r| - |s| + 1..] == s[1..])
    // unsigned text: the fill before it is all zeros
    ensures (s == [] || s[0] !in {'+', '-'}) ==> forall i :: 0 <= i < |r| - |s| ==> r[i] == '0'
    // signed text that is widened: the sign moves to the front and the zeros follow it
    ensures s != [] && s[0] in {'+', '-'} && width > |s| ==>
      r[0] == s[0] && r[|r| - |s| + 1..] == s[1..] && forall i :: 1 <= i <= |r| - |s| ==> r[i] == '0'
  {
    if width <= |s| then s
    else if s != [] && s[0] in {'+', '-'} then [s[0]] + seq(width - |s|, _ => '0') + s[1..]
    else seq(width - |s|, _ => '0') + s
  }

  /** The `ff` part: the frame count within the foot, 0 to 15, as two digits. */
  function FramesField(n: int): (r: string)
    ensures |r| == 2 && IsNatText(r)
    ensures ParseNat(r) == n % 16
  {
    var d := NatToString(n % 16);
    NatRoundTrip(n % 16);
    if n % 16 < 10 then
      assert d == [DigitChar(n % 16)];
      ZFill(d, 2)
    else
      d
  }

  /**
   * `TRTFeetFramesViewItem.to_string`: `feet+ff` with 16 frames to the foot.
   * Python's `//` and `%` round toward minus infinity; for the divisor 16
   * they agree with Dafny's, so negative counts give negative feet and the
   * frames stay in 0..15.
   */
  function FeetFramesToString(n: int, padding: int): (r: string)
    ensures |r| == Max(|FeetFramesText(n)|, padding)
    ensures r[|r| - |FeetFramesText(n)|..] == FeetFramesText(n)
    // the `formatted` field of `to_json` strips the padding off again ...
    ensures LStrip(r, {' '}) == FeetFramesText(n)
    // ... and what is left reads back as the frame count
    ensures ParseFeetFrames(LStrip(r, {' '})) == Some(n)
  {
    var text := FeetFramesText(n);
    assert text[0] == IntToString(n / 16)[0];
    PaddingStrips(text, padding);
    FeetFramesRoundTrip(n);
    PadLeft(text, padding)
  }

  /** Reads `feet+ff` back into a frame count. */
  function ParseFeetFrames(s: string): Option<int>
  {
    var k := Find(s, '+');
    if k < 1 then None
    else
      var feet := s[..k];
      var frames := s[k + 1..];
      if IsIntText(feet) && IsNatText(frames) then Some(ParseInt(feet) * 16 + ParseNat(frames)) else None
  }

  /** The text of `FeetFramesToString` before padding: the feet, a '+' and the two-digit frames field. */
  function FeetFramesText(n: int): string
  {
    IntToString(n / 16) + "+" + FramesField(n)
  }

  /**
   * The unpadded text reads back as the frame count: feet * 16 + frames == n,
   * with the frames field in 0 to 15 (see `FramesField`).
   */
  lemma {:induction false} FeetFramesRoundTrip(n: int)
    ensures ParseFeetFrames(FeetFramesText(n)) == Some(n)
  {
    IntRoundTrip(n / 16);
    ParseJoinedFeetFrames(IntToString(n / 16), FramesField(n));
  }

  /**
   * Python defines `n // 16` as the floor of n / 16, the one `q` with
   * 16 * q <= n < 16 * q + 16, and `n % 16` as `n - 16 * (n // 16)`. For the
   * divisor 16 those are Dafny's `/` and `%`, for negative `n` as well.
   */
  lemma PythonFloorDivision16(n: int, q: int)
    requires 16 * q <= n < 16 * q + 16
    ensures q == n / 16 && n - 16 * q == n % 16
  {
  }

  /** `feet+ff` with a well-formed feet field and a digit frames field parses to feet * 16 + ff. */
  lemma ParseJoinedFeetFrames(feet: string, ff: string)
    requires IsIntText(feet) && '+' !in feet && IsNatText(ff)
    ensures ParseFeetFrames(feet + "+" + ff) == Some(ParseInt(feet) * 16 + ParseNat(ff))
  {
    var text := feet + "+" + ff;
    assert text == feet + ("+" + ff);
    FindAfterPrefix(feet, "+" + ff, '+');
    var k := Find(text, '+');
    assert text[..k] == feet;
    assert text[k + 1..] == ff;
  }

  /** Looking for `c` in `p + q` where `p` has no `c` and `q` starts with it. */
  lemma FindAfterPrefix(p: string, q: string, c: char)
    requires c !in p && q != [] && q[0] == c
    ensures Find(p + q, c) == |p|
  {
    assert (p + q)[|p|] == c;
    assert forall j :: 0 <= j < |p| ==> (p + q)[j] == p[j];
  }

  // ---------------------------------------------------------------------
  // TRTDurationViewItem

  /** The characters `lstrip("-00:")` removes. */
  const StripChars: set<char> := {'-', '0', ':'}

  /** Where the duration text is cut: one character before the last ':' (Python slice semantics). */
  function DurationCut(tc: string): (k: nat)
    ensures k <= |tc|
  {
    SliceBound(RFind(tc, ':') - 1, |tc|)
  }

  /** The kept tail: the last field with the digit before its separator. */
  function DurationTail(tc: string): string
  {
    tc[DurationCut(tc)..]
  }

  /** The head with its leading '-', '0' and ':' characters stripped. */
  function DurationHead(tc: string): (r: string)
    ensures |r| <= DurationCut(tc) && r == tc[DurationCut(tc) - |r|..DurationCut(tc)]
    ensures forall i :: 0 <= i < DurationCut(tc) - |r| ==> tc[i] in StripChars
    ensures r == [] || r[0] !in StripChars
  {
    LStrip(tc[..DurationCut(tc)], StripChars)
  }

  /** The formatted duration before padding: the sign, the stripped head and the tail. */
  function DurationText(tc: string): string
  {
    (if |tc| > 0 && tc[0] == '-' then "-" else "") + DurationHead(tc) + DurationTail(tc)
  }

  /** `TRTDurationViewItem.to_string` applied to the text of a timecode. */
  function DurationToString(tc: string, padding: int): (r: string)
    ensures |r| == Max(|DurationText(tc)|, padding)
    ensures r[|r| - |DurationText(tc)|..] == DurationText(tc)
    ensures forall i :: 0 <= i < |r| - |DurationText(tc)| ==> r[i] == ' '
  {
    PadLeft(DurationText(tc), padding)
  }

  /** The tail of the input from one character before its last ':' is kept unchanged at the end of the output. */
  lemma DurationKeepsTail(tc: string, padding: int)
    ensures var r := DurationToString(tc, padding);
      |DurationTail(tc)| <= |r| && r[|r| - |DurationTail(tc)|..] == DurationTail(tc)
  {
    var t := DurationText(tc);
    var tail := DurationTail(tc);
    assert t[|t| - |tail|..] == tail by {
      var prefix := (if |tc| > 0 && tc[0] == '-' then "-" else "") + DurationHead(tc);
      assert t == prefix + tail;
    }
    SuffixOfSuffix(DurationToString(tc, padding), t, tail);
  }

  /** A suffix of a suffix is a suffix. */
  lemma SuffixOfSuffix(r: string, t: string, u: string)
    requires |t| <= |r| && r[|r| - |t|..] == t
    requires |u| <= |t| && t[|t| - |u|..] == u
    ensures r[|r| - |u|..] == u
  {
    assert r[|r| - |t|..][|t| - |u|..] == r[|r| - |u|..];
  }

  /**
   * A negative duration keeps its sign; and for a timecode text with no '-'
   * after its first character, the output starts with '-' only if the input
   * does.
   */
  lemma DurationSign(tc: string)
    ensures |tc| > 0 && tc[0] == '-' ==> DurationText(tc)[0] == '-'
    ensures (forall i :: 1 <= i < |tc| ==> tc[i] != '-') && DurationText(tc) != [] && DurationText(tc)[0] == '-'
      ==> |tc| > 0 && tc[0] == '-'
  {
    var head := DurationHead(tc);
    var cut := DurationCut(tc);
    if !(|tc| > 0 && tc[0] == '-') && head == [] && DurationText(tc) != [] {
      assert DurationText(tc) == DurationTail(tc);
      assert DurationText(tc)[0] == tc[cut];
      if cut == 0 {
        assert tc[0] == DurationText(tc)[0];
      }
    }
  }

  /** Without that condition the sign is not preserved: "0-:5" becomes "-:5". */
  lemma StrayMinusBecomesSign()
    ensures DurationText("0-:5") == "-:5"
  {
    assert RFind("0-:5", ':') == 2;
    assert DurationCut("0-:5") == 1;
    assert "0-:5"[..1] == "0";
    assert LStrip("0", StripChars) == "";
    assert "0-:5"[1..] == "-:5";
  }

  // ---------------------------------------------------------------------
  // TRTBinLockViewItem

  /** The display text of a bin lock: its holder's name, or "" when the bin is not locked. */
  function BinLockDisplay(lock: Option<LockInfo>): (r: string)
    // the text is empty exactly when nobody holds a named lock, and otherwise names the holder
    ensures r == "" <==> lock.None? || lock.value.name == ""
    ensures r != "" ==> lock.Some? && r == lock.value.name
  {
    if lock.Some? then lock.value.name else ""
  }

  /** `TRTBinLockViewItem.to_json`: the display text, with "" mapped to no value. */
  function BinLockJson(lock: Option<LockInfo>): (r: Option<string>)
    ensures r.None? <==> lock.None? || lock.value.name == ""
    ensures r.Some? ==> r.value == lock.value.name && r.value != ""
  {
    var display := BinLockDisplay(lock);
    if display == "" then None else Some(display)
  }

  /** The JSON value gives back the display text: no value stands for "". */
  lemma BinLockJsonRecoversDisplay(lock: Option<LockInfo>)
    ensures var j := BinLockJson(lock);
      (if j.Some? then j.value else "") == BinLockDisplay(lock)
  {
  }
}
