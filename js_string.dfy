/**
 * The few JavaScript string operations the core relies on, stated over Dafny
 * strings (sequences of Unicode scalar values):
 *   - `String.prototype.trim`, which strips ECMAScript white space and line
 *     terminators from both ends;
 *   - `String.prototype.split` with a one-character separator and no limit, and
 *     `Array.prototype.join` as its inverse;
 *   - `.length`, which counts UTF-16 code units, not characters.
 */
module JsString {

  /** ECMAScript LineTerminator: LF, CR, LINE SEPARATOR, PARAGRAPH SEPARATOR. */
  const LineTerminators: set<char> := {'\n', '\r', '\U{2028}', '\U{2029}'}

  predicate IsLineTerminator(c: char) {
    c in LineTerminators
  }

  /**
   * ECMAScript WhiteSpace (TAB, VT, FF, ZWNBSP and the space separators of
   * category Zs: U+0020, U+00A0, U+1680, U+2000 to U+200A, U+202F, U+205F,
   * U+3000) and LineTerminator: the characters `trim` removes.
   */
  const WhiteSpaceChars: set<char> :=
    {'\t', '\U{000B}', '\U{000C}', '\U{FEFF}',
     ' ', '\U{00A0}', '\U{1680}',
     '\U{2000}', '\U{2001}', '\U{2002}', '\U{2003}', '\U{2004}', '\U{2005}',
     '\U{2006}', '\U{2007}', '\U{2008}', '\U{2009}', '\U{200A}',
     '\U{202F}', '\U{205F}', '\U{3000}',
     '\n', '\r', '\U{2028}', '\U{2029}'}

  predicate IsWhiteSpace(c: char) {
    c in WhiteSpaceChars
  }

  predicate AllWhiteSpace(s: string) {
    forall i :: 0 <= i < |s| ==> IsWhiteSpace(s[i])
  }

  /** s[lo..hi] is all white space (stated on indices of s). */
  predicate WhiteSpaceBetween(s: string, lo: int, hi: int) {
    forall i :: lo <= i < hi && 0 <= i < |s| ==> IsWhiteSpace(s[i])
  }

  /** Neither end of s is white space (the empty string qualifies). */
  predicate Trimmed(s: string) {
    s == [] || (!IsWhiteSpace(s[0]) && !IsWhiteSpace(s[|s| - 1]))
  }

  /** The end of the white-space run of s that starts at index i. */
  function WhiteSpaceRunEnd(s: string, i: int): (e: int)
    requires 0 <= i <= |s|
    ensures i <= e <= |s| && WhiteSpaceBetween(s, i, e)
    ensures e < |s| ==> !IsWhiteSpace(s[e])
    decreases |s| - i
  {
    if i < |s| && IsWhiteSpace(s[i]) then WhiteSpaceRunEnd(s, i + 1) else i
  }

  /** The start of the white-space run of s that ends at index j, going back no further than lo. */
  function WhiteSpaceRunStart(s: string, lo: int, j: int): (b: int)
    requires 0 <= lo <= j <= |s|
    ensures lo <= b <= j && WhiteSpaceBetween(s, b, j)
    ensures b > lo ==> !IsWhiteSpace(s[b - 1])
    decreases j - lo
  {
    if j > lo && IsWhiteSpace(s[j - 1]) then WhiteSpaceRunStart(s, lo, j - 1) else j
  }

  /** Length of the longest white-space prefix of s: where `trim` starts. */
  function TrimOffset(s: string): (a: nat)
    ensures a <= |s| && WhiteSpaceBetween(s, 0, a)
    ensures a < |s| ==> !IsWhiteSpace(s[a])
  {
    WhiteSpaceRunEnd(s, 0)
  }

  /**
   * `s.trim()`: the part of s left after removing white space from both ends.
   * The result is the piece of s that starts at TrimOffset(s), everything cut
   * away is white space, and neither end of the result is white space.
   */
  function Trim(s: string): (r: string)
    ensures TrimOffset(s) + |r| <= |s|
    ensures r == s[TrimOffset(s)..TrimOffset(s) + |r|]
    ensures WhiteSpaceBetween(s, TrimOffset(s) + |r|, |s|)
    ensures Trimmed(r)
  {
    var a := TrimOffset(s);
    var b := WhiteSpaceRunStart(s, a, |s|);
    assert b > a ==> s[a..b][0] == s[a] && s[a..b][b - a - 1] == s[b - 1];
    s[a..b]
  }

  /** A string with no white space at either end is its own trim. */
  lemma TrimOfTrimmed(s: string)
    requires Trimmed(s)
    ensures Trim(s) == s
  {
    assert TrimOffset(s) == 0;
    assert WhiteSpaceRunStart(s, 0, |s|) == |s|;
  }

  /** A string of white space only trims to the empty string. */
  lemma TrimOfWhiteSpace(s: string)
    requires AllWhiteSpace(s)
    ensures Trim(s) == ""
  {
    assert TrimOffset(s) == |s|;
  }

  /** Trimming twice is trimming once. */
  lemma TrimIdempotent(s: string)
    ensures Trim(Trim(s)) == Trim(s)
  {
    TrimOfTrimmed(Trim(s));
  }

  /** Trimming cannot introduce a character: a character absent from s is absent from its trim. */
  lemma TrimKeepsAbsent(s: string, c: char)
    requires c !in s
    ensures c !in Trim(s)
  {
    var r := Trim(s);
    var a := TrimOffset(s);
    forall k | 0 <= k < |r| ensures r[k] != c {
      assert r[k] == s[a + k];
    }
  }

  /** `"\tabc".trim()` is `"abc"`. */
  lemma TrimLeadingTabExample()
    ensures Trim("\tabc") == "abc"
  {
    var t := "\tabc";
    assert |t| == 4 && t[0] == '\t' && t[1] == 'a' && t[2] == 'b' && t[3] == 'c';
    assert WhiteSpaceRunEnd(t, 1) == 1;
    assert TrimOffset(t) == 1;
    assert WhiteSpaceRunStart(t, 1, 4) == 4;
    assert t[1..4] == "abc";
  }

  /** Index of the first occurrence of c in s. */
  function IndexOf(s: string, c: char): (i: nat)
    requires c in s
    ensures i < |s| && s[i] == c && c !in s[..i]
  {
    if s[0] == c then 0
    else
      var i := 1 + IndexOf(s[1..], c);
      assert s[..i] == [s[0]] + s[1..][..i - 1];
      i
  }

  /** `parts.join(sep)` for a one-character separator. */
  function Join(parts: seq<string>, sep: char): string
    decreases |parts|
  {
    if parts == [] then []
    else if |parts| == 1 then parts[0]
    else parts[0] + [sep] + Join(parts[1..], sep)
  }

  /**
   * `s.split(sep)` for a one-character separator and no limit: the maximal
   * separator-free pieces of s, in order. Joining them with sep gives s back,
   * and there is always at least one piece (the empty string splits into [""]).
   */
  function Split(s: string, sep: char): (parts: seq<string>)
    ensures |parts| >= 1
    ensures forall k :: 0 <= k < |parts| ==> sep !in parts[k]
    ensures Join(parts, sep) == s
    decreases |s|
  {
    if sep in s then
      var i := IndexOf(s, sep);
      var rest := Split(s[i + 1..], sep);
      var parts := [s[..i]] + rest;
      assert parts[1..] == rest;
      assert s == s[..i] + [sep] + s[i + 1..];
      parts
    else
      [s]
  }

  /** Splitting a join of separator-free pieces gives the pieces back. */
  lemma {:induction false} SplitJoin(parts: seq<string>, sep: char)
    requires |parts| >= 1
    requires forall k :: 0 <= k < |parts| ==> sep !in parts[k]
    ensures Split(Join(parts, sep), sep) == parts
    decreases |parts|
  {
    if |parts| > 1 {
      var s := Join(parts, sep);
      var head := parts[0];
      var tail := parts[1..];
      assert s == head + [sep] + Join(tail, sep);
      assert s[|head|] == sep;
      assert s[..|head|] == head;
      assert IndexOf(s, sep) == |head|;
      assert s[|head| + 1..] == Join(tail, sep);
      SplitJoin(tail, sep);
      assert parts == [head] + tail;
    }
  }

  /** `s.split(' ').pop()`: the last piece of s split at single spaces. */
  function LastSpaceSegment(s: string): (r: string)
    ensures ' ' !in r
  {
    var parts := Split(s, ' ');
    parts[|parts| - 1]
  }

  /** A join of two or more pieces ends with the separator and the last piece. */
  lemma {:induction false} JoinLast(parts: seq<string>, sep: char)
    requires |parts| >= 2
    ensures Join(parts, sep) == Join(parts[..|parts| - 1], sep) + [sep] + parts[|parts| - 1]
    decreases |parts|
  {
    var init := parts[..|parts| - 1];
    var last := parts[|parts| - 1];
    if |parts| == 2 {
      assert init == [parts[0]];
    } else {
      JoinLast(parts[1..], sep);
      assert parts[1..][..|parts| - 2] == init[1..];
      assert init[0] == parts[0];
      calc {
        Join(parts, sep);
        parts[0] + [sep] + Join(parts[1..], sep);
        parts[0] + [sep] + (Join(init[1..], sep) + [sep] + last);
        (parts[0] + [sep] + Join(init[1..], sep)) + [sep] + last;
        Join(init, sep) + [sep] + last;
      }
    }
  }

  /**
   * The last piece of a split at spaces is the text after the last space of s,
   * or all of s when s has no space.
   */
  lemma LastSpaceSegmentIsTextAfterLastSpace(s: string)
    ensures ' ' !in LastSpaceSegment(s)
    ensures |LastSpaceSegment(s)| <= |s|
    ensures LastSpaceSegment(s) == s[|s| - |LastSpaceSegment(s)|..]
    ensures |LastSpaceSegment(s)| < |s| ==> s[|s| - |LastSpaceSegment(s)| - 1] == ' '
  {
    var parts := Split(s, ' ');
    var r := parts[|parts| - 1];
    if |parts| >= 2 {
      JoinLast(parts, ' ');
      var front := Join(parts[..|parts| - 1], ' ') + [' '];
      assert s == front + r;
      assert s[|front|..] == r && s[|front| - 1] == ' ';
    }
  }

  /** Number of UTF-16 code units that encode c. */
  function CodeUnits(c: char): nat {
    if c as int < 0x10000 then 1 else 2
  }

  /**
   * JavaScript `.length` of s: UTF-16 code units, so each character above
   * U+FFFF counts twice.
   */
  function Utf16Length(s: string): (n: nat)
    ensures |s| <= n <= 2 * |s|
  {
    if s == [] then 0 else CodeUnits(s[0]) + Utf16Length(s[1..])
  }

  /** `.length` of a concatenation is the sum of the lengths. */
  lemma {:induction false} Utf16LengthAppend(a: string, b: string)
    ensures Utf16Length(a + b) == Utf16Length(a) + Utf16Length(b)
    decreases |a|
  {
    if a != [] {
      assert (a + b)[0] == a[0];
      assert (a + b)[1..] == a[1..] + b;
      Utf16LengthAppend(a[1..], b);
    } else {
      assert a + b == b;
    }
  }

  /** On text inside the Basic Multilingual Plane `.length` is the number of characters. */
  lemma {:induction false} Utf16LengthOfBmp(s: string)
    requires forall i :: 0 <= i < |s| ==> s[i] as int < 0x10000
    ensures Utf16Length(s) == |s|
    decreases |s|
  {
    if s != [] {
      Utf16LengthOfBmp(s[1..]);
    }
  }
}
