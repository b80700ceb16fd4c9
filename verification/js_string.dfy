/**
 * The few JavaScript string operations the lead pages rely on:
 * `trim`, `toLowerCase`, `toUpperCase`, `includes` and truthiness.
 * Case mapping is ASCII only; `trim` strips the ECMAScript WhiteSpace
 * and LineTerminator code points.
 */
module JsString {
  import opened Wrappers

  /** ECMAScript WhiteSpace (including the Zs category) and LineTerminator. */
  predicate IsJsSpace(c: char) {
    || c == ' ' || c == '\t' || c == '\n' || c == '\r'
    || c as int == 0x0B || c as int == 0x0C
    || c as int == 0xA0 || c as int == 0x1680
    || (0x2000 <= c as int <= 0x200A)
    || c as int == 0x2028 || c as int == 0x2029
    || c as int == 0x202F || c as int == 0x205F
    || c as int == 0x3000 || c as int == 0xFEFF
  }

  /** A string whose every character is white space (so `s.trim()` is falsy). */
  predicate Blank(s: string) {
    forall i :: 0 <= i < |s| ==> IsJsSpace(s[i])
  }

  /** `s.trimStart()` */
  function TrimStart(s: string): (r: string)
    ensures |r| <= |s| && r == s[|s| - |r|..]
    ensures r == [] || !IsJsSpace(r[0])
    ensures Blank(s[..|s| - |r|])
  {
    if |s| > 0 && IsJsSpace(s[0]) then
      var r := TrimStart(s[1..]);
      assert s[1..][..|s| - 1 - |r|] == s[1..|s| - |r|];
      r
    else s
  }

  /** `s.trimEnd()` */
  function TrimEnd(s: string): (r: string)
    ensures |r| <= |s| && r == s[..|r|]
    ensures r == [] || !IsJsSpace(r[|r| - 1])
    ensures Blank(s[|r|..])
  {
    if |s| > 0 && IsJsSpace(s[|s| - 1]) then
      var r := TrimEnd(s[..|s| - 1]);
      assert s[|r|..] == s[..|s| - 1][|r|..] + [s[|s| - 1]];
      r
    else s
  }

  /**
   * `s.trim()`: `trimEnd` after `trimStart`, so what it removes is white
   * space at either end, and what is left neither starts nor ends with it.
   */
  function Trim(s: string): (r: string)
    ensures |r| <= |s|
    ensures r == [] || (!IsJsSpace(r[0]) && !IsJsSpace(r[|r| - 1]))
  {
    var t := TrimStart(s);
    var r := TrimEnd(t);
    assert r != [] ==> r[0] == t[0];
    r
  }

  /** `s.trim()` is the slice of `s` between a white-space prefix and a white-space suffix. */
  lemma TrimMiddle(s: string)
    ensures exists i, j :: 0 <= i <= j <= |s| && Trim(s) == s[i..j] && Blank(s[..i]) && Blank(s[j..])
  {
    var t := TrimStart(s);
    var r := TrimEnd(t);
    var i := |s| - |t|;
    var j := i + |r|;
    assert t[..|r|] == s[i..j];
    assert t[|r|..] == s[j..];
  }

  /** `s.trim()` is the empty string exactly when every character of `s` is white space. */
  lemma TrimEmptyIffBlank(s: string)
    ensures Trim(s) == "" <==> Blank(s)
  {
    var t := TrimStart(s);
    if t == [] {
      assert s[..|s|] == s;
    } else {
      assert t[0] == s[|s| - |t|];
      assert t[0..] == t;
    }
  }

  /** A present, non-empty string: what `||` treats as truthy here. */
  predicate Truthy(a: Option<string>) {
    a.Some? && a.value != ""
  }

  /** `a || b` for an optional string: `a` when it is a non-empty string, else `b`. */
  function OrElse(a: Option<string>, b: string): (r: string)
    ensures Truthy(a) ==> r == a.value
    ensures !Truthy(a) ==> r == b
  {
    if Truthy(a) then a.value else b
  }

  /** ASCII `toLowerCase` of one character. */
  function LowerChar(c: char): char {
    if 'A' <= c <= 'Z' then (c as int + 32) as char else c
  }

  /** ASCII `toUpperCase` of one character. */
  function UpperChar(c: char): char {
    if 'a' <= c <= 'z' then (c as int - 32) as char else c
  }

  /** `s.toLowerCase()`, character by character. */
  function ToLower(s: string): (r: string)
    ensures |r| == |s|
    ensures forall i :: 0 <= i < |s| ==> r[i] == LowerChar(s[i])
  {
    seq(|s|, i requires 0 <= i < |s| => LowerChar(s[i]))
  }

  /** `s.toUpperCase()`, character by character. */
  function ToUpper(s: string): (r: string)
    ensures |r| == |s|
    ensures forall i :: 0 <= i < |s| ==> r[i] == UpperChar(s[i])
  {
    seq(|s|, i requires 0 <= i < |s| => UpperChar(s[i]))
  }

  /** Lowering a string that was upper-cased gives the same as lowering the original. */
  lemma LowerOfUpper(s: string)
    ensures ToLower(ToUpper(s)) == ToLower(s)
  {
    forall i | 0 <= i < |s| ensures ToLower(ToUpper(s))[i] == ToLower(s)[i] {
      assert LowerChar(UpperChar(s[i])) == LowerChar(s[i]);
    }
  }

  /** Lower-casing is idempotent. */
  lemma LowerIdempotent(s: string)
    ensures ToLower(ToLower(s)) == ToLower(s)
  {
  }

  /** `s.charAt(0).toUpperCase() + s.slice(1)` */
  function Capitalize(s: string): (r: string)
    ensures |r| == |s|
    ensures |s| > 0 ==> r[0] == UpperChar(s[0]) && r[1..] == s[1..]
  {
    if s == "" then "" else ToUpper(s[..1]) + s[1..]
  }

  /** `needle` occurs in `hay` starting at position `i`. */
  predicate OccursAt(hay: string, needle: string, i: int) {
    0 <= i && i + |needle| <= |hay| && hay[i..i + |needle|] == needle
  }

  /** `hay.includes(needle)`, searched left to right. */
  function Includes(hay: string, needle: string): (b: bool)
    ensures b <==> exists i :: OccursAt(hay, needle, i)
    decreases |hay|
  {
    if |needle| > |hay| then
      assert forall i :: !OccursAt(hay, needle, i);
      false
    else if hay[..|needle|] == needle then
      assert OccursAt(hay, needle, 0);
      true
    else
      var b := Includes(hay[1..], needle);
      OccursShift(hay, needle);
      b
  }

  /** Occurrences in `hay` other than at 0 are the occurrences in `hay[1..]`, shifted by one. */
  lemma OccursShift(hay: string, needle: string)
    requires |hay| > 0 && !OccursAt(hay, needle, 0)
    ensures (exists i :: OccursAt(hay, needle, i)) <==> (exists j :: OccursAt(hay[1..], needle, j))
  {
    if i :| OccursAt(hay, needle, i) {
      assert i > 0;
      assert hay[1..][i - 1..i - 1 + |needle|] == hay[i..i + |needle|];
      assert OccursAt(hay[1..], needle, i - 1);
    }
    if j :| OccursAt(hay[1..], needle, j) {
      assert hay[1..][j..j + |needle|] == hay[j + 1..j + 1 + |needle|];
      assert OccursAt(hay, needle, j + 1);
    }
  }

  /** The empty string is included in every string. */
  lemma EmptyIncluded(hay: string)
    ensures Includes(hay, "")
  {
    assert OccursAt(hay, "", 0);
  }
}
