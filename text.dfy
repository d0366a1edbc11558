/**
 * The JavaScript string built-ins the launcher relies on: `includes`,
 * `toLowerCase` (over ASCII letters only) and `trim` (over the fixed set of
 * characters ECMAScript counts as white space or line terminators).
 */
module Text {

  /** `w` is a prefix of `s`. */
  predicate IsPrefix(w: string, s: string) {
    |w| <= |s| && s[..|w|] == w
  }

  /** `w` occurs in `s` starting at index `i`. */
  predicate OccursAt(s: string, w: string, i: int) {
    0 <= i && i + |w| <= |s| && s[i..i + |w|] == w
  }

  /** JavaScript's `s.includes(w)`, scanning `s` from the left. */
  function Includes(s: string, w: string): bool
    decreases |s|
  {
    IsPrefix(w, s) || (|s| > 0 && Includes(s[1..], w))
  }

  /** A copy of `w` at some index of `s` is found by `Includes`. */
  lemma {:induction false} OccursImpliesIncludes(s: string, w: string, i: int)
    requires OccursAt(s, w, i)
    ensures Includes(s, w)
    decreases i
  {
    if i > 0 {
      assert s[1..][i - 1..i - 1 + |w|] == s[i..i + |w|];
      OccursImpliesIncludes(s[1..], w, i - 1);
    }
  }

  /** When `Includes` holds, some index of `s` starts a copy of `w`. */
  lemma {:induction false} IncludesImpliesOccurs(s: string, w: string) returns (i: int)
    requires Includes(s, w)
    ensures OccursAt(s, w, i)
    decreases |s|
  {
    if IsPrefix(w, s) {
      i := 0;
    } else {
      var j := IncludesImpliesOccurs(s[1..], w);
      assert s[1..][j..j + |w|] == s[j + 1..j + 1 + |w|];
      i := j + 1;
    }
  }

  /** `Includes` agrees with the positional reading: some index of `s` starts a copy of `w`. */
  lemma IncludesIffOccurs(s: string, w: string)
    ensures Includes(s, w) <==> exists i :: OccursAt(s, w, i)
  {
    if Includes(s, w) {
      var i := IncludesImpliesOccurs(s, w);
    }
    forall i | OccursAt(s, w, i) ensures Includes(s, w) {
      OccursImpliesIncludes(s, w, i);
    }
  }

  /** Whatever contains `a + b` contains `b`. */
  lemma IncludesSuffixOfInfix(s: string, a: string, b: string)
    ensures Includes(s, a + b) ==> Includes(s, b)
  {
    IncludesIffOccurs(s, a + b);
    IncludesIffOccurs(s, b);
    if Includes(s, a + b) {
      var i :| OccursAt(s, a + b, i);
      assert s[i + |a|..i + |a| + |b|] == s[i..i + |a| + |b|][|a|..];
      assert OccursAt(s, b, i + |a|);
    }
  }

  // ---------------------------------------------------------------------
  // Lower-casing

  predicate IsAsciiUpper(c: char) { 'A' <= c <= 'Z' }

  predicate IsAsciiLetter(c: char) { 'A' <= c <= 'Z' || 'a' <= c <= 'z' }

  /** `toLowerCase` on one character, restricted to the ASCII letters. */
  function LowerChar(c: char): char {
    if IsAsciiUpper(c) then (c as int + 32) as char else c
  }

  /** `toLowerCase` on a string, restricted to the ASCII letters. */
  function AsciiLower(s: string): (r: string)
    ensures |r| == |s|
  {
    seq(|s|, i requires 0 <= i < |s| => LowerChar(s[i]))
  }

  /** Lower-casing changes no position where a letter-free word matches or fails to match. */
  lemma LowerKeepsOccurrence(s: string, w: string, i: int)
    requires forall k :: 0 <= k < |w| ==> !IsAsciiLetter(w[k])
    ensures OccursAt(AsciiLower(s), w, i) <==> OccursAt(s, w, i)
  {
    var l := AsciiLower(s);
    if 0 <= i && i + |w| <= |s| {
      forall k | 0 <= k < |w| ensures l[i + k] == w[k] <==> s[i + k] == w[k] {
        assert l[i + k] == LowerChar(s[i + k]);
      }
      assert OccursAt(l, w, i) <==> forall k :: 0 <= k < |w| ==> l[i + k] == w[k];
      assert OccursAt(s, w, i) <==> forall k :: 0 <= k < |w| ==> s[i + k] == w[k];
    }
  }

  /** A word without ASCII letters is found in a string exactly when it is found in its lower-cased form. */
  lemma LowerPreservesLetterFreeMatches(s: string, w: string)
    requires forall k :: 0 <= k < |w| ==> !IsAsciiLetter(w[k])
    ensures Includes(AsciiLower(s), w) <==> Includes(s, w)
  {
    var l := AsciiLower(s);
    if Includes(s, w) {
      var i := IncludesImpliesOccurs(s, w);
      LowerKeepsOccurrence(s, w, i);
      OccursImpliesIncludes(l, w, i);
    }
    if Includes(l, w) {
      var i := IncludesImpliesOccurs(l, w);
      LowerKeepsOccurrence(s, w, i);
      OccursImpliesIncludes(s, w, i);
    }
  }

  // ---------------------------------------------------------------------
  // Trimming

  /**
   * The characters `String.prototype.trim` removes: the ECMAScript
   * WhiteSpace code points (tab, vertical tab, form feed, space, no-break
   * space, zero-width no-break space and the Unicode space separators) and the
   * LineTerminator code points.
   */
  predicate IsJsSpace(c: char) {
    c == '\t' || c == '\n' || c == '\U{000B}' || c == '\U{000C}' || c == '\r' || c == ' '
    || c == '\U{00A0}' || c == '\U{1680}' || ('\U{2000}' <= c <= '\U{200A}')
    || c == '\U{2028}' || c == '\U{2029}' || c == '\U{202F}' || c == '\U{205F}'
    || c == '\U{3000}' || c == '\U{FEFF}'
  }

  predicate AllSpace(s: string) {
    forall k :: 0 <= k < |s| ==> IsJsSpace(s[k])
  }

  /** The length of the leading white space of `s`. */
  function LeadLength(s: string): (n: nat)
    ensures n <= |s|
    ensures forall k :: 0 <= k < n ==> IsJsSpace(s[k])
    ensures n < |s| ==> !IsJsSpace(s[n])
    decreases |s|
  {
    if |s| > 0 && IsJsSpace(s[0]) then
      var n := 1 + LeadLength(s[1..]);
      assert forall k :: 1 <= k < |s| ==> s[k] == s[1..][k - 1];
      n
    else 0
  }

  /** Where the trailing white space of `s` begins. */
  function TrailStart(s: string): (n: nat)
    ensures n <= |s|
    ensures forall k :: n <= k < |s| ==> IsJsSpace(s[k])
    ensures n > 0 ==> !IsJsSpace(s[n - 1])
    decreases |s|
  {
    if |s| > 0 && IsJsSpace(s[|s| - 1]) then
      var n := TrailStart(s[..|s| - 1]);
      assert forall k :: 0 <= k < |s| - 1 ==> s[k] == s[..|s| - 1][k];
      n
    else |s|
  }

  /** JavaScript's `s.trim()`: what lies between the leading and the trailing white space. */
  function Trim(s: string): string {
    var i := LeadLength(s);
    var j := TrailStart(s);
    if i < j then s[i..j] else ""
  }

  /**
   * The trimmed string is the slice of the input that starts after the
   * leading white space, and everything around that slice is white space.
   */
  lemma TrimIsSlice(s: string)
    ensures LeadLength(s) + |Trim(s)| <= |s|
    ensures Trim(s) == s[LeadLength(s)..LeadLength(s) + |Trim(s)|]
    ensures forall k :: 0 <= k < LeadLength(s) ==> IsJsSpace(s[k])
    ensures forall k :: LeadLength(s) + |Trim(s)| <= k < |s| ==> IsJsSpace(s[k])
  {
    var i := LeadLength(s);
    var j := TrailStart(s);
    if i >= j {
      assert i == |s|;
    }
  }

  /** The trimmed string neither starts nor ends with white space, and it is empty exactly when the input is all white space. */
  lemma TrimEdges(s: string)
    ensures Trim(s) == [] || (!IsJsSpace(Trim(s)[0]) && !IsJsSpace(Trim(s)[|Trim(s)| - 1]))
    ensures Trim(s) == [] <==> AllSpace(s)
  {
    var i := LeadLength(s);
    var j := TrailStart(s);
    if i >= j {
      assert i == |s|;
    } else {
      assert !IsJsSpace(s[i]);
    }
  }

  /** Trimming twice is trimming once. */
  lemma TrimIdempotent(s: string)
    ensures Trim(Trim(s)) == Trim(s)
  {
    var r := Trim(s);
    TrimEdges(s);
    if r != [] {
      assert LeadLength(r) == 0;
      assert TrailStart(r) == |r|;
      assert r[0..|r|] == r;
    }
  }
}
