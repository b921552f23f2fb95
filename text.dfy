/** String operations the guards rely on: `String.prototype.trim`, ASCII case
    conversion, `Array.prototype.join`, and the ISO-8601 date pattern used by
    `ensureISODate`. */
module Text {

  /** ECMAScript WhiteSpace and LineTerminator code points: what `trim()` strips. */
  predicate IsJsWhitespace(c: char): (ws: bool)
    ensures c < '\U{0080}' ==> (ws <==> c == ' ' || '\t' <= c <= '\r')
  {
    || c == '\t' || c == '\n' || c == '\U{000B}' || c == '\U{000C}' || c == '\r' || c == ' '
    || c == '\U{00A0}' || c == '\U{1680}' || ('\U{2000}' <= c <= '\U{200A}')
    || c == '\U{2028}' || c == '\U{2029}' || c == '\U{202F}' || c == '\U{205F}'
    || c == '\U{3000}' || c == '\U{FEFF}'
  }

  predicate AllWhitespace(s: string) {
    forall k :: 0 <= k < |s| ==> IsJsWhitespace(s[k])
  }

  /** The index of the first non-whitespace character of `s` at or after
      `i`, or `|s|` when there is none: where `trim()` starts its result. */
  function SkipLeading(s: string, i: nat): (j: nat)
    requires i <= |s|
    ensures i <= j <= |s|
    ensures forall k :: i <= k < j ==> IsJsWhitespace(s[k])
    ensures j == |s| || !IsJsWhitespace(s[j])
    decreases |s| - i
  {
    if i < |s| && IsJsWhitespace(s[i]) then SkipLeading(s, i + 1) else i
  }

  /** The index just past the last non-whitespace character of `s` below
      `j`, or `lo` when there is none from `lo` on: where `trim()` ends its
      result. */
  function SkipTrailing(s: string, lo: nat, j: nat): (e: nat)
    requires lo <= j <= |s|
    ensures lo <= e <= j
    ensures forall k :: e <= k < j ==> IsJsWhitespace(s[k])
    ensures e == lo || !IsJsWhitespace(s[e - 1])
    decreases j - lo
  {
    if lo < j && IsJsWhitespace(s[j - 1]) then SkipTrailing(s, lo, j - 1) else j
  }

  /** `s.trim()`: no whitespace is left at either end, and a string without
      whitespace at its ends comes back unchanged. */
  function Trim(s: string): (t: string)
    ensures |t| <= |s|
    ensures t == [] || (!IsJsWhitespace(t[0]) && !IsJsWhitespace(t[|t| - 1]))
    ensures |s| > 0 && !IsJsWhitespace(s[0]) && !IsJsWhitespace(s[|s| - 1]) ==> t == s
  {
    var i := SkipLeading(s, 0);
    var e := SkipTrailing(s, i, |s|);
    assert s[0..|s|] == s;
    s[i..e]
  }

  /** What `trim()` returns: the slice of `s` that starts at the first and ends
      at the last non-whitespace character; only whitespace is cut off. */
  lemma TrimIsSlice(s: string)
    ensures var t, i := Trim(s), SkipLeading(s, 0);
      && i + |t| <= |s| && t == s[i..i + |t|]
      && AllWhitespace(s[..i]) && AllWhitespace(s[i + |t|..])
      && (t == [] || (!IsJsWhitespace(t[0]) && !IsJsWhitespace(t[|t| - 1])))
  {
    var i := SkipLeading(s, 0);
    var e := SkipTrailing(s, i, |s|);
    assert Trim(s) == s[i..e];
    assert forall k :: 0 <= k < |s[e..]| ==> s[e..][k] == s[e + k];
  }

  /** A string trims to the empty string exactly when it is all whitespace. */
  lemma TrimEmptyIffBlank(s: string)
    ensures Trim(s) == [] <==> AllWhitespace(s)
  {
    var i := SkipLeading(s, 0);
    var e := SkipTrailing(s, i, |s|);
    assert Trim(s) == s[i..e];
    if AllWhitespace(s) {
      assert i == |s|;
    }
  }

  /** Trimming twice is trimming once. */
  lemma TrimIdempotent(s: string)
    ensures Trim(Trim(s)) == Trim(s)
  {
    var t := Trim(s);
    if t != [] {
      assert !IsJsWhitespace(t[0]) && !IsJsWhitespace(t[|t| - 1]);
    }
  }

  function LowerChar(c: char): char {
    if 'A' <= c <= 'Z' then (c as int + 32) as char else c
  }

  function UpperChar(c: char): char {
    if 'a' <= c <= 'z' then (c as int - 32) as char else c
  }

  /** `s.toLowerCase()` restricted to ASCII letters. */
  function Lower(s: string): (r: string)
    ensures |r| == |s|
    ensures forall i :: 0 <= i < |s| ==> r[i] == LowerChar(s[i])
  {
    seq(|s|, i requires 0 <= i < |s| => LowerChar(s[i]))
  }

  /** `s.toUpperCase()` restricted to ASCII letters. */
  function Upper(s: string): (r: string)
    ensures |r| == |s|
    ensures forall i :: 0 <= i < |s| ==> r[i] == UpperChar(s[i])
  {
    seq(|s|, i requires 0 <= i < |s| => UpperChar(s[i]))
  }

  /** Upper-casing does not depend on the case of the input: two strings with
      the same lower-case form have the same upper-case form. */
  lemma UpperOfLower(s: string)
    ensures Upper(Lower(s)) == Upper(s)
  {
    assert forall i :: 0 <= i < |s| ==> UpperChar(LowerChar(s[i])) == UpperChar(s[i]);
  }

  /** Lower-casing does not depend on the case of the input either. */
  lemma LowerOfUpper(s: string)
    ensures Lower(Upper(s)) == Lower(s)
  {
    assert forall i :: 0 <= i < |s| ==> LowerChar(UpperChar(s[i])) == LowerChar(s[i]);
  }

  /** `xs.join(sep)` */
  function Join(xs: seq<string>, sep: string): (r: string)
    ensures |xs| == 0 ==> r == ""
    ensures |xs| == 1 ==> r == xs[0]
    ensures |xs| > 0 ==> |r| >= |xs[0]| && |r| >= |xs[|xs| - 1]| && r[..|xs[0]|] == xs[0] && r[|r| - |xs[|xs| - 1]|..] == xs[|xs| - 1]
    ensures |xs| > 1 ==> |r| >= |xs[0]| + |sep| && r[|xs[0]|..|xs[0]| + |sep|] == sep
  {
    if |xs| == 0 then "" else if |xs| == 1 then xs[0] else xs[0] + sep + Join(xs[1..], sep)
  }

  // ---------------------------------------------------------------------
  // ISO-8601 date pattern of ensureISODate:
  //   /^\d{4}-\d{2}-\d{2}(T\d{2}:\d{2}:\d{2}(\.\d{3})?Z?)?$/
  // (no `u` flag, so \d is the ASCII digits; no `m` flag, so $ is the end).
  // ---------------------------------------------------------------------

  predicate IsDigit(c: char) {
    '0' <= c <= '9'
  }

  predicate DigitsAt(s: string, i: nat, n: nat) {
    i + n <= |s| && forall k :: i <= k < i + n ==> IsDigit(s[k])
  }

  /** The regular expression read left to right, one group at a time. */
  predicate IsoDateRegex(s: string): (b: bool)
    ensures b ==> |s| == 10 || |s| == 19 || |s| == 20 || |s| == 23 || |s| == 24
  {
    && |s| >= 10
    && DigitsAt(s, 0, 4) && s[4] == '-' && DigitsAt(s, 5, 2) && s[7] == '-' && DigitsAt(s, 8, 2)
    && TimeGroup(s[10..])
  }

  /** `(T\d{2}:\d{2}:\d{2}(\.\d{3})?Z?)?$` */
  predicate TimeGroup(t: string) {
    || t == []
    || (&& |t| >= 9
        && t[0] == 'T' && DigitsAt(t, 1, 2) && t[3] == ':' && DigitsAt(t, 4, 2) && t[6] == ':' && DigitsAt(t, 7, 2)
        && FractionZone(t[9..]))
  }

  /** `(\.\d{3})?Z?$`: a greedy optional fraction cannot be undone usefully,
      since without it the rest would have to begin with '.'. */
  predicate FractionZone(u: string) {
    var v := if |u| >= 4 && u[0] == '.' && DigitsAt(u, 1, 3) then u[4..] else u;
    v == [] || v == "Z"
  }

  /** Reference definition. Every admitted string is a prefix, cut at a group
      boundary, of the longest form `dddd-dd-ddTdd:dd:dd.dddZ`, or is the
      date-time `dddd-dd-ddTdd:dd:dd` followed directly by `Z`. `Slot(i)` is
      what that longest form holds at position `i`, '#' standing for a digit. */
  function Slot(i: nat): char {
    if i == 4 || i == 7 then '-'
    else if i == 10 then 'T'
    else if i == 13 || i == 16 then ':'
    else if i == 19 then '.'
    else if i == 23 then 'Z'
    else '#'
  }

  predicate FitsSlots(s: string, n: nat)
    requires n <= |s|
  {
    forall i :: 0 <= i < n ==> (if Slot(i) == '#' then IsDigit(s[i]) else s[i] == Slot(i))
  }

  predicate IsIsoShaped(s: string) {
    || ((|s| == 10 || |s| == 19 || |s| == 23 || |s| == 24) && FitsSlots(s, |s|))
    || (|s| == 20 && FitsSlots(s, 19) && s[19] == 'Z')
  }

  lemma IsoDateRegexIsShaped(s: string)
    requires IsoDateRegex(s)
    ensures IsIsoShaped(s)
  {
    var t := s[10..];
    if t != [] {
      var u := t[9..];
      assert forall i :: 10 <= i < 19 ==> s[i] == t[i - 10];
      assert FitsSlots(s, 19);
      if |u| >= 4 && u[0] == '.' && DigitsAt(u, 1, 3) {
        assert forall i :: 19 <= i < |s| ==> s[i] == u[i - 19];
      } else if u != [] {
        assert s[19] == u[0];
      }
    }
  }

  lemma ShapedIsIsoDateRegex(s: string)
    requires IsIsoShaped(s)
    ensures IsoDateRegex(s)
  {
    assert FitsSlots(s, 10);
    assert DigitsAt(s, 0, 4) && DigitsAt(s, 5, 2) && DigitsAt(s, 8, 2);
    var t := s[10..];
    if |s| > 10 {
      assert FitsSlots(s, 19);
      assert DigitsAt(t, 1, 2) && DigitsAt(t, 4, 2) && DigitsAt(t, 7, 2);
      var u := t[9..];
      if |s| >= 23 {
        assert DigitsAt(u, 1, 3);
        assert |s| == 24 ==> u[4..] == "Z";
      } else if |s| == 20 {
        assert u == "Z";
      }
    }
  }

  /** The regular expression accepts exactly the reference shapes. */
  lemma IsoDateRegexShapes(s: string)
    ensures IsoDateRegex(s) <==> IsIsoShaped(s)
  {
    if IsoDateRegex(s) { IsoDateRegexIsShaped(s); }
    if IsIsoShaped(s) { ShapedIsIsoDateRegex(s); }
  }
}
