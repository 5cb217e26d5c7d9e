/**
 * The JavaScript string built-ins the bridge relies on: `s.replace(/[^0-9]/g, '')`,
 * `String.prototype.trim` and `String.prototype.includes`, together with the
 * "truthy string" test that `||` and `if (s)` perform.
 */
module JsString {
  import opened Wrappers

  /** `!!x` for a possibly absent string: absent and "" are both falsy. */
  predicate Truthy(x: Option<string>) {
    x.Some? && x.value != ""
  }

  /** `x || fallback` for a possibly absent string: absent and "" are both falsy. */
  function OrElse(x: Option<string>, fallback: string): (r: string)
    ensures x.Some? && x.value != "" ==> r == x.value
    ensures x.None? || x.value == "" ==> r == fallback
  {
    if x.Some? && x.value != "" then x.value else fallback
  }

  /** `x || null` for a possibly absent string: "" becomes null. */
  function OrNull(x: Option<string>): (r: Option<string>)
    ensures r.Some? <==> x.Some? && x.value != ""
    ensures r.Some? ==> r == x
  {
    if x.Some? && x.value != "" then x else None
  }

  // ---------------------------------------------------------------------------
  // Digits only: the character class [0-9]

  predicate IsDigit(c: char) {
    '0' <= c <= '9'
  }

  predicate AllDigits(s: string) {
    forall i :: 0 <= i < |s| ==> IsDigit(s[i])
  }

  /** `s.replace(/[^0-9]/g, '')`: every character outside 0-9 removed. */
  function DigitsOnly(s: string): (r: string)
    ensures AllDigits(r)
    ensures |r| <= |s|
  {
    if s == [] then []
    else (if IsDigit(s[0]) then [s[0]] else []) + DigitsOnly(s[1..])
  }

  /** `a` can be obtained from `b` by deleting characters (leftmost matching). */
  predicate Subsequence(a: string, b: string)
    decreases |b|
  {
    a == [] || (b != [] && if a[0] == b[0] then Subsequence(a[1..], b[1..]) else Subsequence(a, b[1..]))
  }

  /** The digits are kept in their original order. */
  lemma {:induction false} DigitsOnlyIsSubsequence(s: string)
    ensures Subsequence(DigitsOnly(s), s)
  {
    if s != [] {
      DigitsOnlyIsSubsequence(s[1..]);
      var rest := DigitsOnly(s[1..]);
      if IsDigit(s[0]) {
        assert DigitsOnly(s) == [s[0]] + rest;
        assert ([s[0]] + rest)[1..] == rest;
      } else {
        assert DigitsOnly(s) == rest;
        assert rest != [] ==> rest[0] != s[0];
      }
    }
  }

  /** Every digit occurrence survives and nothing else does. */
  lemma {:induction false} DigitsOnlyCounts(s: string, c: char)
    ensures multiset(DigitsOnly(s))[c] == if IsDigit(c) then multiset(s)[c] else 0
  {
    if s == [] {
    } else {
      DigitsOnlyCounts(s[1..], c);
      assert s == [s[0]] + s[1..];
      assert multiset(s) == multiset{s[0]} + multiset(s[1..]);
      var head: string := if IsDigit(s[0]) then [s[0]] else [];
      assert multiset(DigitsOnly(s)) == multiset(head) + multiset(DigitsOnly(s[1..]));
    }
  }

  /** A string of digits is left as it is. */
  lemma {:induction false} DigitsOnlyFixesDigits(s: string)
    requires AllDigits(s)
    ensures DigitsOnly(s) == s
  {
    if s != [] {
      assert AllDigits(s[1..]);
      DigitsOnlyFixesDigits(s[1..]);
      assert s == [s[0]] + s[1..];
    }
  }

  /** Normalising a phone number twice is the same as normalising it once. */
  lemma DigitsOnlyIdempotent(s: string)
    ensures DigitsOnly(DigitsOnly(s)) == DigitsOnly(s)
  {
    DigitsOnlyFixesDigits(DigitsOnly(s));
  }

  // ---------------------------------------------------------------------------
  // String.prototype.trim: ECMAScript WhiteSpace and LineTerminator code points

  predicate IsJsSpace(c: char) {
    || c == '\t' || c == '\n' || c == '\U{000B}' || c == '\U{000C}' || c == '\r' || c == ' '
    || c == '\U{00A0}' || c == '\U{1680}' || ('\U{2000}' <= c <= '\U{200A}')
    || c == '\U{2028}' || c == '\U{2029}' || c == '\U{202F}' || c == '\U{205F}'
    || c == '\U{3000}' || c == '\U{FEFF}'
  }

  predicate AllSpace(s: string) {
    forall i :: 0 <= i < |s| ==> IsJsSpace(s[i])
  }

  /** The number of white-space characters `s` starts with. */
  function LeadingSpace(s: string): (n: nat)
    ensures n <= |s|
    ensures AllSpace(s[..n])
    ensures n < |s| ==> !IsJsSpace(s[n])
  {
    if s != [] && IsJsSpace(s[0]) then
      var m := LeadingSpace(s[1..]);
      assert s[..m + 1] == [s[0]] + s[1..][..m];
      m + 1
    else 0
  }

  /** White space followed by a white-space last character is white space. */
  lemma SpaceBeforeLast(s: string, m: nat)
    requires m < |s| && IsJsSpace(s[|s| - 1]) && AllSpace(s[..|s| - 1][|s| - 1 - m..])
    ensures AllSpace(s[|s| - (m + 1)..])
    ensures m + 1 < |s| ==> s[|s| - 1 - (m + 1)] == s[..|s| - 1][|s| - 1 - 1 - m]
  {
    var a := s[..|s| - 1][|s| - 1 - m..];
    var b := s[|s| - (m + 1)..];
    forall i | 0 <= i < m + 1
      ensures IsJsSpace(b[i])
    {
      if i < m {
        assert b[i] == a[i];
      }
    }
  }

  /** The number of white-space characters `s` ends with. */
  function TrailingSpace(s: string): (n: nat)
    ensures n <= |s|
    ensures AllSpace(s[|s| - n..])
    ensures n < |s| ==> !IsJsSpace(s[|s| - 1 - n])
  {
    if s != [] && IsJsSpace(s[|s| - 1]) then
      var m := TrailingSpace(s[..|s| - 1]);
      SpaceBeforeLast(s, m);
      m + 1
    else 0
  }

  /** `s.trim()`: white space cut from both ends of `s`. */
  function Trim(s: string): (r: string)
    ensures |r| <= |s|
    ensures r == [] || (!IsJsSpace(r[0]) && !IsJsSpace(r[|r| - 1]))
    ensures r == [] <==> AllSpace(s)
  {
    var a := LeadingSpace(s);
    var rest := s[a..];
    rest[..|rest| - TrailingSpace(rest)]
  }

  /** What `trim` removes is white space at the two ends and nothing else. */
  lemma TrimIsSlice(s: string)
    ensures var r := Trim(s);
      exists i :: 0 <= i <= |s| - |r| && s[i..i + |r|] == r && AllSpace(s[..i]) && AllSpace(s[i + |r|..])
  {
    var r := Trim(s);
    var a := LeadingSpace(s);
    var rest := s[a..];
    var b := TrailingSpace(rest);
    assert r == rest[..|rest| - b];
    assert s[a..a + |r|] == r;
    assert s[a + |r|..] == rest[|rest| - b..];
  }

  /** Trimming twice is the same as trimming once. */
  lemma TrimIdempotent(s: string)
    ensures Trim(Trim(s)) == Trim(s)
  {
    var r := Trim(s);
    if r != [] {
      assert LeadingSpace(r) == 0;
      assert r[0..] == r;
      assert TrailingSpace(r) == 0;
      assert r[..|r| - 0] == r;
    }
  }

  // ---------------------------------------------------------------------------
  // String.prototype.includes

  /** `t` occurs in `s` starting at position `i`. */
  predicate OccursAt(s: string, t: string, i: int) {
    0 <= i <= |s| - |t| && s[i..i + |t|] == t
  }

  /** `s.includes(t)`: `t` occurs in `s` at some position. */
  predicate Includes(s: string, t: string) {
    exists i | 0 <= i <= |s| - |t| :: OccursAt(s, t, i)
  }

  /** A text holding a character that `s` lacks does not occur in `s`. */
  lemma NotIncludedByChar(s: string, t: string, c: char)
    requires c in t && c !in s
    ensures !Includes(s, t)
  {
    var k :| 0 <= k < |t| && t[k] == c;
    forall i | 0 <= i <= |s| - |t|
      ensures !OccursAt(s, t, i)
    {
      assert s[i..i + |t|][k] == s[i + k];
    }
  }
}
