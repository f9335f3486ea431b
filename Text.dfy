/** Character classes and string helpers of the Kotlin standard library, over
    strings of Unicode scalar values. */
module Text {

  /** Kotlin's `Char.isWhitespace()` on the JVM, which is
      `Character.isWhitespace(c) || Character.isSpaceChar(c)`: the controls
      U+0009..U+000D and U+001C..U+001F, and every space, line and paragraph
      separator of the Unicode character database. */
  predicate IsWhitespace(c: char) {
    || ('\t' <= c <= '\r')
    || ('\U{1C}' <= c <= ' ')
    || c == '\U{A0}'
    || c == '\U{1680}'
    || ('\U{2000}' <= c <= '\U{200A}')
    || c == '\U{2028}' || c == '\U{2029}'
    || c == '\U{202F}' || c == '\U{205F}'
    || c == '\U{3000}'
  }

  /** Kotlin's `trimEnd()`. */
  function TrimEnd(s: string): (r: string)
    ensures r <= s
    ensures |r| > 0 ==> !IsWhitespace(r[|r| - 1])
    ensures forall i :: |r| <= i < |s| ==> IsWhitespace(s[i])
  {
    if |s| > 0 && IsWhitespace(s[|s| - 1]) then TrimEnd(s[..|s| - 1]) else s
  }

  /** Kotlin's `trimStart()`. */
  function TrimStart(s: string): (r: string)
    ensures |r| <= |s| && r == s[|s| - |r|..]
    ensures |r| > 0 ==> !IsWhitespace(r[0])
    ensures forall i :: 0 <= i < |s| - |r| ==> IsWhitespace(s[i])
  {
    if |s| > 0 && IsWhitespace(s[0]) then TrimStart(s[1..]) else s
  }

  /** Kotlin's `isBlank()`: every character is whitespace. */
  predicate IsBlank(s: string) {
    forall i :: 0 <= i < |s| ==> IsWhitespace(s[i])
  }

  /** Kotlin's `trim()`: the longest infix whose both ends are not whitespace.
      It is a prefix of `TrimStart(s)`, the suffix of `s` left after its
      leading whitespace, and what follows it there is whitespace. */
  function Trim(s: string): (r: string)
    ensures |r| > 0 ==> (!IsWhitespace(r[0]) && !IsWhitespace(r[|r| - 1]))
    ensures |r| == 0 <==> IsBlank(s)
    ensures r <= TrimStart(s)
    ensures forall k :: |r| <= k < |TrimStart(s)| ==> IsWhitespace(TrimStart(s)[k])
  {
    TrimEnd(TrimStart(s))
  }

  /** A string with no whitespace at either end is its own trim. */
  predicate IsTrimmed(s: string) {
    |s| > 0 ==> (!IsWhitespace(s[0]) && !IsWhitespace(s[|s| - 1]))
  }

  lemma TrimOfTrimmed(s: string)
    requires IsTrimmed(s)
    ensures Trim(s) == s
  {
  }

  lemma TrimIdempotent(s: string)
    ensures Trim(Trim(s)) == Trim(s)
  {
    TrimOfTrimmed(Trim(s));
  }

  /** A trimmed non-empty line followed by a newline trims back to the line. */
  lemma TrimOfLine(s: string)
    requires s != [] && IsTrimmed(s)
    ensures Trim(s + "\n") == s
  {
    var t := s + "\n";
    assert TrimStart(t) == t;
    assert t[..|t| - 1] == s;
  }

  /** A line made of a head that does not start with whitespace and a tail
      that does not end with it trims to itself once its newline is gone. */
  lemma TrimOfJoinedLine(head: string, tail: string)
    requires head != [] && !IsWhitespace(head[0])
    requires tail != [] && !IsWhitespace(tail[|tail| - 1])
    ensures Trim(head + tail + "\n") == head + tail
  {
    var s := head + tail;
    assert s[0] == head[0] && s[|s| - 1] == tail[|tail| - 1];
    TrimOfLine(s);
  }

  /** ASCII decimal digits, standing in for Kotlin's `Char.isDigit()`. */
  predicate IsDigit(c: char) {
    '0' <= c <= '9'
  }

  predicate AllDigits(s: string) {
    forall i :: 0 <= i < |s| ==> IsDigit(s[i])
  }

  /** Exactly `n` ASCII digits: the check the view model applies to card
      numbers (16) and phone suffixes (4). */
  predicate IsDigitString(s: string, n: nat) {
    |s| == n && AllDigits(s)
  }

  /** Kotlin's `digitToInt()` on an ASCII digit. */
  function DigitToInt(c: char): (d: int)
    requires IsDigit(c)
    ensures 0 <= d < 10
  {
    c as int - '0' as int
  }

  /** ASCII letters to upper case, everything else unchanged. */
  function UpperAscii(c: char): (u: char)
    ensures 'a' <= c <= 'z' ==> 'A' <= u <= 'Z' && u as int == c as int - 32
    ensures !('a' <= c <= 'z') ==> u == c
  {
    if 'a' <= c <= 'z' then (c as int - 32) as char else c
  }

  /** ASCII letters to lower case, everything else unchanged. */
  function LowerAscii(c: char): (l: char)
    ensures 'A' <= c <= 'Z' ==> 'a' <= l <= 'z' && l as int == c as int + 32
    ensures !('A' <= c <= 'Z') ==> l == c
  {
    if 'A' <= c <= 'Z' then (c as int + 32) as char else c
  }

  function ToLowerAscii(s: string): (r: string)
    ensures |r| == |s| && forall i :: 0 <= i < |s| ==> r[i] == LowerAscii(s[i])
  {
    seq(|s|, i requires 0 <= i < |s| => LowerAscii(s[i]))
  }

  lemma ToLowerAsciiAppend(a: string, b: string)
    ensures ToLowerAscii(a + b) == ToLowerAscii(a) + ToLowerAscii(b)
  {
  }

  /** `equals(other, ignoreCase = true)` with ASCII case folding. */
  predicate EqualsIgnoreCase(a: string, b: string) {
    |a| == |b| && forall i :: 0 <= i < |a| ==> UpperAscii(a[i]) == UpperAscii(b[i])
  }

  /** Kotlin's `joinToString(sep)` over already rendered parts. */
  function Join(sep: string, parts: seq<string>): (r: string)
    ensures |parts| == 0 ==> r == ""
    ensures |parts| == 1 ==> r == parts[0]
  {
    if |parts| == 0 then ""
    else if |parts| == 1 then parts[0]
    else parts[0] + sep + Join(sep, parts[1..])
  }
}
