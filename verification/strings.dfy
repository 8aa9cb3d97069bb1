/** The few JavaScript string operations the site relies on, stated on `seq<char>`. */
module Strings {
  import opened Wrappers

  /** JavaScript truthiness of a string-valued property: `undefined`, `null` and `""` are falsy. */
  predicate IsTruthy(v: Option<string>) {
    v.Some? && v.value != ""
  }

  /**
   * `a || b` on two such values: the first when it is truthy, the second otherwise. The result
   * is always one of the operands, and it is truthy exactly when one of them is.
   */
  function Or(a: Option<string>, b: Option<string>): (r: Option<string>)
    ensures r == a || r == b
    ensures IsTruthy(r) <==> IsTruthy(a) || IsTruthy(b)
  {
    if IsTruthy(a) then a else b
  }

  // ---------------------------------------------------------------------------
  // String.prototype.toLowerCase, restricted to the ASCII letters
  // ---------------------------------------------------------------------------

  predicate IsUpper(c: char) {
    'A' <= c <= 'Z'
  }

  function LowerChar(c: char): (d: char)
    ensures !IsUpper(d)
    ensures !IsUpper(c) ==> d == c
  {
    if IsUpper(c) then (c as int + 32) as char else c
  }

  function ToLower(s: string): (r: string)
    ensures |r| == |s|
    ensures forall i :: 0 <= i < |s| ==> r[i] == LowerChar(s[i])
  {
    seq(|s|, i requires 0 <= i < |s| => LowerChar(s[i]))
  }

  /** Lower-casing twice is lower-casing once. */
  lemma ToLowerIdempotent(s: string)
    ensures ToLower(ToLower(s)) == ToLower(s)
  {
  }

  /** The comparison `a.toLowerCase() === b.toLowerCase()`. */
  predicate EqualsIgnoringCase(a: string, b: string) {
    ToLower(a) == ToLower(b)
  }

  // ---------------------------------------------------------------------------
  // String.prototype.replace with a string pattern: only the first occurrence
  // ---------------------------------------------------------------------------

  /** `pat` occurs in `s` starting at index `i`. */
  predicate OccursAt(s: string, pat: string, i: int) {
    0 <= i && i + |pat| <= |s| && s[i..i + |pat|] == pat
  }

  /** `i` is the leftmost occurrence of `pat` in `s`. */
  predicate FirstOccurrence(s: string, pat: string, i: int) {
    OccursAt(s, pat, i) && forall j :: 0 <= j < i ==> !OccursAt(s, pat, j)
  }

  lemma OccursAtTail(s: string, pat: string, j: int)
    requires |s| > 0 && 0 <= j
    ensures OccursAt(s[1..], pat, j) <==> OccursAt(s, pat, j + 1)
  {
    if j + |pat| <= |s| - 1 {
      assert s[1..][j..j + |pat|] == s[j + 1..j + 1 + |pat|];
    }
  }

  /**
   * Scans `s` left to right and replaces the first occurrence of `pat` by `rep`;
   * a string without `pat` comes back unchanged.
   */
  function ReplaceFirst(s: string, pat: string, rep: string): (r: string)
    ensures (forall j :: !OccursAt(s, pat, j)) ==> r == s
    ensures forall k :: FirstOccurrence(s, pat, k) ==> r == s[..k] + rep + s[k + |pat|..]
    decreases |s|
  {
    if |s| < |pat| then
      s
    else if s[..|pat|] == pat then
      assert OccursAt(s, pat, 0);
      rep + s[|pat|..]
    else
      var t := ReplaceFirst(s[1..], pat, rep);
      ReplaceFirstSkip(s, pat, rep, t);
      [s[0]] + t
  }

  /** One step of the scan: no match at index 0, so the answer is `s[0]` before the answer for the tail. */
  lemma ReplaceFirstSkip(s: string, pat: string, rep: string, t: string)
    requires |s| > 0 && !OccursAt(s, pat, 0)
    requires (forall j :: !OccursAt(s[1..], pat, j)) ==> t == s[1..]
    requires forall k :: FirstOccurrence(s[1..], pat, k) ==> t == s[1..][..k] + rep + s[1..][k + |pat|..]
    ensures (forall j :: !OccursAt(s, pat, j)) ==> [s[0]] + t == s
    ensures forall k :: FirstOccurrence(s, pat, k) ==> [s[0]] + t == s[..k] + rep + s[k + |pat|..]
  {
    if forall j :: !OccursAt(s, pat, j) {
      forall j ensures !OccursAt(s[1..], pat, j) {
        if 0 <= j { OccursAtTail(s, pat, j); }
      }
    }
    forall k | FirstOccurrence(s, pat, k)
      ensures [s[0]] + t == s[..k] + rep + s[k + |pat|..]
    {
      FirstOccurrenceTail(s, pat, k);
      SkipSplice(s, s[1..], pat, rep, k, t);
    }
  }

  /** A first occurrence at `k > 0` is a first occurrence at `k - 1` in the tail. */
  lemma FirstOccurrenceTail(s: string, pat: string, k: int)
    requires |s| > 0 && !OccursAt(s, pat, 0) && FirstOccurrence(s, pat, k)
    ensures k >= 1 && FirstOccurrence(s[1..], pat, k - 1)
  {
    forall j | 0 <= j < k - 1 ensures !OccursAt(s[1..], pat, j) {
      OccursAtTail(s, pat, j);
    }
    OccursAtTail(s, pat, k - 1);
  }

  lemma SkipSplice(s: string, tail: string, pat: string, rep: string, k: int, t: string)
    requires |s| > 0 && tail == s[1..] && 1 <= k && k + |pat| <= |s|
    requires t == tail[..k - 1] + rep + tail[k - 1 + |pat|..]
    ensures [s[0]] + t == s[..k] + rep + s[k + |pat|..]
  {
    assert tail[..k - 1] == s[1..k];
    assert tail[k - 1 + |pat|..] == s[k + |pat|..];
    assert [s[0]] + s[1..k] == s[..k];
  }

  /** Replacing a pattern by a replacement at least as long never shortens the string. */
  lemma ReplaceFirstLength(s: string, pat: string, rep: string)
    requires |rep| >= |pat|
    ensures |ReplaceFirst(s, pat, rep)| >= |s|
  {
    if exists k :: FirstOccurrence(s, pat, k) {
      var k :| FirstOccurrence(s, pat, k);
      assert |s[..k] + rep + s[k + |pat|..]| == |s| - |pat| + |rep|;
    } else {
      ExistsFirstOccurrence(s, pat);
    }
  }

  /** If `pat` occurs at all, it has a leftmost occurrence. */
  lemma ExistsFirstOccurrence(s: string, pat: string)
    ensures (exists j :: OccursAt(s, pat, j)) ==> exists k :: FirstOccurrence(s, pat, k)
  {
    if exists j :: OccursAt(s, pat, j) {
      var j :| OccursAt(s, pat, j);
      var k := j;
      while exists i :: 0 <= i < k && OccursAt(s, pat, i)
        invariant OccursAt(s, pat, k)
        decreases k
      {
        var i :| 0 <= i < k && OccursAt(s, pat, i);
        k := i;
      }
      assert FirstOccurrence(s, pat, k);
    }
  }

  // ---------------------------------------------------------------------------
  // `s.split(c)[0]`: the part of `s` before the first `c`
  // ---------------------------------------------------------------------------

  function BeforeFirst(s: string, c: char): (r: string)
    ensures r <= s
    ensures c !in r
    ensures |r| < |s| ==> s[|r|] == c
  {
    if s == [] then []
    else if s[0] == c then []
    else [s[0]] + BeforeFirst(s[1..], c)
  }

  /** The text before the first `c` of `p + [c] + rest`, where `p` holds no `c`, is `p`. */
  lemma {:induction false} BeforeFirstSplit(p: string, c: char, rest: string)
    requires c !in p
    ensures BeforeFirst(p + [c] + rest, c) == p
  {
    if p != [] {
      assert (p + [c] + rest)[1..] == p[1..] + [c] + rest;
      BeforeFirstSplit(p[1..], c, rest);
    }
  }

  // ---------------------------------------------------------------------------
  // Lexicographic order on strings (code-unit order)
  // ---------------------------------------------------------------------------

  predicate LexLeq(a: string, b: string) {
    a == [] || (b != [] && (a[0] < b[0] || (a[0] == b[0] && LexLeq(a[1..], b[1..]))))
  }

  lemma {:induction false} LexLeqReflexive(a: string)
    ensures LexLeq(a, a)
  {
    if a != [] { LexLeqReflexive(a[1..]); }
  }

  lemma {:induction false} LexLeqTotal(a: string, b: string)
    ensures LexLeq(a, b) || LexLeq(b, a)
  {
    if a != [] && b != [] && a[0] == b[0] { LexLeqTotal(a[1..], b[1..]); }
  }

  lemma {:induction false} LexLeqAntisymmetric(a: string, b: string)
    requires LexLeq(a, b) && LexLeq(b, a)
    ensures a == b
  {
    if a != [] && b != [] {
      LexLeqAntisymmetric(a[1..], b[1..]);
      assert a == [a[0]] + a[1..] && b == [b[0]] + b[1..];
    }
  }

  lemma {:induction false} LexLeqTransitive(a: string, b: string, c: string)
    requires LexLeq(a, b) && LexLeq(b, c)
    ensures LexLeq(a, c)
  {
    if a != [] && b != [] && c != [] && a[0] == b[0] && b[0] == c[0] {
      LexLeqTransitive(a[1..], b[1..], c[1..]);
    }
  }
}
