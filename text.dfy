/** String primitives shared by the front end (JavaScript) and the back end
    (Python): substring search, ASCII lower-casing, whitespace trimming and
    slicing with the two languages' own index conventions. */
module Text {

  /** `sub` occurs in `s` starting at index `i`. */
  predicate OccursAt(s: string, sub: string, i: nat) {
    i + |sub| <= |s| && s[i..i + |sub|] == sub
  }

  /** The first index `r >= start` at which `sub` occurs in `s`, or -1:
      Python's `s.find(sub, start)`. */
  function Find(s: string, sub: string, start: nat): (r: int)
    ensures r == -1 || (start <= r && OccursAt(s, sub, r))
    ensures r == -1 ==> forall i: nat :: start <= i ==> !OccursAt(s, sub, i)
    ensures r != -1 ==> forall i: nat :: start <= i < r ==> !OccursAt(s, sub, i)
    decreases |s| - start
  {
    if start + |sub| > |s| then -1
    else if s[start..start + |sub|] == sub then start
    else Find(s, sub, start + 1)
  }

  /** Substring test: Python's `sub in s` and JavaScript's `s.includes(sub)`. */
  predicate Contains(s: string, sub: string) {
    exists i :: 0 <= i <= |s| - |sub| && OccursAt(s, sub, i)
  }

  /** `find` succeeds exactly when the substring test does. */
  lemma FindIffContains(s: string, sub: string)
    ensures Find(s, sub, 0) >= 0 <==> Contains(s, sub)
  {
  }

  /** `find` returns the first occurrence at or after `start`. */
  lemma FindIs(s: string, sub: string, start: nat, k: nat)
    requires start <= k && OccursAt(s, sub, k)
    requires forall i: nat :: start <= i < k ==> !OccursAt(s, sub, i)
    ensures Find(s, sub, start) == k
  {
  }

  /** An occurrence at a known position is found. */
  lemma ContainsAt(s: string, sub: string, i: nat)
    requires OccursAt(s, sub, i)
    ensures Contains(s, sub)
  {
  }

  /** A text that lacks one of the characters of `sub` cannot contain `sub`. */
  lemma MissingCharNotContained(s: string, sub: string, c: char)
    requires c in sub && c !in s
    ensures !Contains(s, sub)
  {

  }

  /** ASCII upper-case letters map to lower case; every other character is kept. */
  function LowerChar(c: char): char {
    if 'A' <= c <= 'Z' then (c as int - 'A' as int + 'a' as int) as char else c
  }

  /** `toLowerCase()` / `lower()`, restricted to the ASCII letters. */
  function ToLower(s: string): (r: string)
    ensures |r| == |s|
    ensures forall i :: 0 <= i < |s| ==> r[i] == LowerChar(s[i])
  {
    seq(|s|, i requires 0 <= i < |s| => LowerChar(s[i]))
  }

  lemma ToLowerAppend(a: string, b: string)
    ensures ToLower(a + b) == ToLower(a) + ToLower(b)
  {
  }

  /** Lower-casing is idempotent, so a lowered title lowers to itself. */
  lemma ToLowerIdempotent(s: string)
    ensures ToLower(ToLower(s)) == ToLower(s)
  {
  }

  /** Python's `str.isspace()` characters, the ones `str.strip()` removes. */
  predicate IsPyWhitespace(c: char) {
    ('\t' <= c <= '\r') || ('\U{1C}' <= c <= '\U{1F}') || c == ' ' || c == '\U{85}' || c == '\U{A0}'
    || c == '\U{1680}' || ('\U{2000}' <= c <= '\U{200A}') || c == '\U{2028}' || c == '\U{2029}'
    || c == '\U{202F}' || c == '\U{205F}' || c == '\U{3000}'
  }

  /** The white space and line terminators that JavaScript's `String.prototype.trim` removes. */
  predicate IsJsWhitespace(c: char) {
    ('\t' <= c <= '\r') || c == ' ' || c == '\U{A0}' || c == '\U{FEFF}'
    || c == '\U{1680}' || ('\U{2000}' <= c <= '\U{200A}') || c == '\U{2028}' || c == '\U{2029}'
    || c == '\U{202F}' || c == '\U{205F}' || c == '\U{3000}'
  }

  /** `s[i..j]` is `s` with a white-space prefix and a white-space suffix cut off. */
  predicate TrimmedTo(s: string, space: char -> bool, i: int, j: int) {
    0 <= i <= j <= |s|
    && (forall k :: 0 <= k < i ==> space(s[k]))
    && (forall k :: j <= k < |s| ==> space(s[k]))
  }

  /** The index of the first character at or after `i` that is not white
      space, or `|s|` when there is none. */
  function SkipFrom(s: string, space: char -> bool, i: nat): (n: nat)
    requires i <= |s|
    ensures i <= n <= |s|
    ensures forall k :: i <= k < n ==> space(s[k])
    ensures n < |s| ==> !space(s[n])
    decreases |s| - i
  {
    if i < |s| && space(s[i]) then SkipFrom(s, space, i + 1) else i
  }

  /** The end of `s` once the white space after index `lo` is dropped from the
      back: every character from it on is white space, and the one before it,
      if it lies after `lo`, is not. */
  function EndAfter(s: string, space: char -> bool, lo: nat, j: nat): (n: nat)
    requires lo <= j <= |s|
    requires forall k :: j <= k < |s| ==> space(s[k])
    ensures lo <= n <= j
    ensures forall k :: n <= k < |s| ==> space(s[k])
    ensures lo < n ==> !space(s[n - 1])
    decreases j
  {
    if lo < j && space(s[j - 1]) then EndAfter(s, space, lo, j - 1) else j
  }

  /** How many characters trimming removes from the front. */
  function Leading(s: string, space: char -> bool): (n: nat)
    ensures n <= |s|
    ensures forall k :: 0 <= k < n ==> space(s[k])
    ensures n < |s| ==> !space(s[n])
  {
    SkipFrom(s, space, 0)
  }

  /** Both ends trimmed: the result is the input with only leading and trailing
      white space removed, it is empty exactly when every character is white
      space, and otherwise it starts and ends with a character that is not. */
  function Trim(s: string, space: char -> bool): (r: string)
    ensures TrimmedTo(s, space, Leading(s, space), Leading(s, space) + |r|)
    ensures r == s[Leading(s, space)..Leading(s, space) + |r|]
    ensures r == [] <==> forall i :: 0 <= i < |s| ==> space(s[i])
    ensures r != [] ==> !space(r[0]) && !space(r[|r| - 1])
  {
    var i := Leading(s, space);
    var j := EndAfter(s, space, i, |s|);
    assert i < |s| ==> i < j;
    s[i..j]
  }

  /** Python's `s.strip()`. */
  function PyStrip(s: string): (r: string)
    ensures TrimmedTo(s, IsPyWhitespace, Leading(s, IsPyWhitespace), Leading(s, IsPyWhitespace) + |r|)
    ensures r == s[Leading(s, IsPyWhitespace)..Leading(s, IsPyWhitespace) + |r|]
    ensures r != [] ==> !IsPyWhitespace(r[0]) && !IsPyWhitespace(r[|r| - 1])
  {
    Trim(s, IsPyWhitespace)
  }

  /** JavaScript's `s.trim()`. */
  function JsTrim(s: string): (r: string)
    ensures TrimmedTo(s, IsJsWhitespace, Leading(s, IsJsWhitespace), Leading(s, IsJsWhitespace) + |r|)
    ensures r == s[Leading(s, IsJsWhitespace)..Leading(s, IsJsWhitespace) + |r|]
    ensures r == [] <==> forall i :: 0 <= i < |s| ==> IsJsWhitespace(s[i])
    ensures r != [] ==> !IsJsWhitespace(r[0]) && !IsJsWhitespace(r[|r| - 1])
  {
    Trim(s, IsJsWhitespace)
  }

  /** Python's slice `s[start:stop]`: a negative bound counts from the end, and
      bounds are clamped to the string; a slice whose bounds cross is empty. */
  function PySlice(s: string, start: int, stop: int): (r: string)
    ensures 0 <= start <= stop <= |s| ==> r == s[start..stop]
    ensures 0 <= start <= |s| && stop < 0 && 0 <= |s| + stop ==> r == if start < |s| + stop then s[start..|s| + stop] else ""
    ensures PyIndex(|s|, stop) <= PyIndex(|s|, start) ==> r == ""
    ensures |r| <= |s|
  {
    var lo := PyIndex(|s|, start);
    var hi := PyIndex(|s|, stop);
    if lo < hi then s[lo..hi] else ""
  }

  /** How a slice bound is resolved against a sequence of length `n`. */
  function PyIndex(n: nat, i: int): (k: nat)
    ensures k <= n
    ensures 0 <= i <= n ==> k == i
    ensures i < 0 && 0 <= n + i ==> k == n + i
    ensures i > n ==> k == n
    ensures i + n < 0 ==> k == 0
  {
    if i < 0 then (if i + n < 0 then 0 else i + n) else if i > n then n else i
  }

  /** A slice of a slice is a slice of the whole. */
  lemma SliceOfSlice<T>(s: seq<T>, lo: nat, hi: nat, k: nat, n: nat)
    requires lo <= hi <= |s| && k + n <= hi - lo
    ensures s[lo..hi][k..k + n] == s[lo + k..lo + k + n]
  {
    var a := s[lo..hi][k..k + n];
    var b := s[lo + k..lo + k + n];
    forall m | 0 <= m < n ensures a[m] == b[m] {
      assert s[lo..hi][k + m] == s[lo + k + m];
    }
  }

  /** Concatenation regroups freely. */
  lemma AppendAssoc<T>(a: seq<T>, b: seq<T>, c: seq<T>)
    ensures (a + b) + c == a + (b + c)
  {
  }

  /** `xs.slice(0, n)`: at most the first `n` elements. */
  function Take<T>(xs: seq<T>, n: nat): (r: seq<T>)
    ensures |r| == if |xs| < n then |xs| else n
    ensures r == xs[..|r|]
  {
    if |xs| < n then xs else xs[..n]
  }
}
