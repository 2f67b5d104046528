/**
 * String helpers shared by the page and the backend: whitespace trimming as the
 * two runtimes define it, prefix tests and Python-style slicing `s[:n]`.
 */
module Text {

  /** The two runtimes whose trimming rules appear in the system. */
  datatype Runtime = JavaScript | Python

  /**
   * Whitespace as each runtime's trimming sees it. JavaScript's `String.prototype.trim`
   * removes WhiteSpace and LineTerminator code points (which include U+FEFF but not
   * U+0085 or U+001C..U+001F); Python's `str.strip()` removes the characters for which
   * `str.isspace()` holds (which include U+0085 and U+001C..U+001F but not U+FEFF).
   */
  predicate IsSpace(c: char, rt: Runtime) {
    c == ' ' || c == '\t' || c == '\n' || c == '\r' || c == '\U{000B}' || c == '\U{000C}'
    || c == '\U{00A0}' || c == '\U{1680}' || ('\U{2000}' <= c <= '\U{200A}')
    || c == '\U{2028}' || c == '\U{2029}' || c == '\U{202F}' || c == '\U{205F}' || c == '\U{3000}'
    || (rt == JavaScript && c == '\U{FEFF}')
    || (rt == Python && (c == '\U{0085}' || ('\U{001C}' <= c <= '\U{001F}')))
  }

  /** Every character of `s` is whitespace. */
  predicate AllSpace(s: string, rt: Runtime) {
    forall i :: 0 <= i < |s| ==> IsSpace(s[i], rt)
  }

  /** Neither end of `s` is whitespace (vacuously true of the empty string). */
  predicate IsTrimmed(s: string, rt: Runtime) {
    s == [] || (!IsSpace(s[0], rt) && !IsSpace(s[|s| - 1], rt))
  }

  /** The first index at or after `i` that does not hold whitespace, or `|s|`. */
  function SkipSpace(s: string, i: nat, rt: Runtime): (r: nat)
    requires i <= |s|
    ensures i <= r <= |s|
    ensures forall m :: i <= m < r ==> IsSpace(s[m], rt)
    ensures r < |s| ==> !IsSpace(s[r], rt)
    decreases |s| - i
  {
    if i < |s| && IsSpace(s[i], rt) then SkipSpace(s, i + 1, rt) else i
  }

  /** Walking back from `j` towards `lo`: the end of the stretch before `j` that does not end in whitespace. */
  function SkipSpaceBack(s: string, lo: nat, j: nat, rt: Runtime): (r: nat)
    requires lo <= j <= |s|
    ensures lo <= r <= j
    ensures forall m :: r <= m < j ==> IsSpace(s[m], rt)
    ensures lo < r ==> !IsSpace(s[r - 1], rt)
    decreases j
  {
    if lo < j && IsSpace(s[j - 1], rt) then SkipSpaceBack(s, lo, j - 1, rt) else j
  }

  /** How many whitespace characters `s` starts with. */
  function LeadingSpace(s: string, rt: Runtime): (k: nat)
    ensures k <= |s|
  {
    SkipSpace(s, 0, rt)
  }

  /** `s.trim()` in JavaScript, `s.strip()` in Python: `s` without whitespace at either end. */
  function Trim(s: string, rt: Runtime): (r: string)
    ensures IsTrimmed(r, rt) && |r| <= |s|
  {
    s[LeadingSpace(s, rt)..SkipSpaceBack(s, LeadingSpace(s, rt), |s|, rt)]
  }

  /**
   * The trim is the substring of `s` that starts after its leading whitespace and ends
   * before its trailing whitespace.
   */
  lemma TrimIsMiddle(s: string, rt: Runtime)
    ensures LeadingSpace(s, rt) + |Trim(s, rt)| <= |s|
    ensures Trim(s, rt) == s[LeadingSpace(s, rt)..LeadingSpace(s, rt) + |Trim(s, rt)|]
    ensures AllSpace(s[..LeadingSpace(s, rt)], rt)
    ensures AllSpace(s[LeadingSpace(s, rt) + |Trim(s, rt)|..], rt)
  {
    var k := LeadingSpace(s, rt);
    var j := SkipSpaceBack(s, k, |s|, rt);
    assert j == k + |Trim(s, rt)|;
    assert forall m :: 0 <= m < k ==> s[..k][m] == s[m];
    assert forall m :: 0 <= m < |s| - j ==> s[j..][m] == s[j + m];
  }

  /** The trim is empty exactly when the whole string is whitespace. */
  lemma TrimEmptyIffBlank(s: string, rt: Runtime)
    ensures Trim(s, rt) == [] <==> AllSpace(s, rt)
  {
    var k := LeadingSpace(s, rt);
    var j := SkipSpaceBack(s, k, |s|, rt);
    if Trim(s, rt) == [] {
      assert j == k;
      assert k == |s|;
    } else {
      assert !IsSpace(s[k], rt);
    }
  }

  /** Skipping from `i` stops at the first non-whitespace character `k`. */
  lemma {:induction false} SkipSpaceStopsAt(s: string, i: nat, k: nat, rt: Runtime)
    requires i <= k <= |s|
    requires forall m :: i <= m < k ==> IsSpace(s[m], rt)
    requires k == |s| || !IsSpace(s[k], rt)
    ensures SkipSpace(s, i, rt) == k
    decreases k - i
  {
    if i < k {
      SkipSpaceStopsAt(s, i + 1, k, rt);
    }
  }

  /**
   * Whitespace in front of `body` does not hide what `body` starts with: when `body` starts
   * with `p`, whose first and last characters are not whitespace, so does the trim.
   */
  lemma TrimOfPadded(pad: string, body: string, p: string, rt: Runtime)
    requires AllSpace(pad, rt)
    requires p != [] && !IsSpace(p[0], rt) && !IsSpace(p[|p| - 1], rt)
    requires p <= body
    ensures p <= Trim(pad + body, rt)
  {
    var s := pad + body;
    assert s[|pad|] == p[0];
    SkipSpaceStopsAt(s, 0, |pad|, rt);
    var j := SkipSpaceBack(s, |pad|, |s|, rt);
    assert s[|pad| + |p| - 1] == p[|p| - 1];
    assert |pad| + |p| <= j;
    forall i | 0 <= i < |p| ensures Trim(s, rt)[i] == p[i] {
      assert s[|pad| + i] == body[i];
    }
  }

  /** Trimming leaves a string that has no whitespace at either end unchanged. */
  lemma TrimOfTrimmed(s: string, rt: Runtime)
    requires IsTrimmed(s, rt)
    ensures Trim(s, rt) == s
  {
    if s != [] {
      assert LeadingSpace(s, rt) == 0;
      assert SkipSpaceBack(s, 0, |s|, rt) == |s|;
    }
  }

  /** Trimming is idempotent. */
  lemma TrimIdempotent(s: string, rt: Runtime)
    ensures Trim(Trim(s, rt), rt) == Trim(s, rt)
  {
    TrimOfTrimmed(Trim(s, rt), rt);
  }

  /** A string whose trim is non-empty is itself non-empty. */
  lemma {:induction false} NonBlankIsNonEmpty(s: string, rt: Runtime)
    requires Trim(s, rt) != []
    ensures s != []
  {
    TrimEmptyIffBlank(s, rt);
  }

  /** `p` is a prefix of `s`: Python's `s.startswith(p)`, case-sensitive. */
  predicate StartsWith(s: string, p: string) {
    p <= s
  }

  /** A prefix of `a` is a prefix of any extension of `a`. */
  lemma PrefixOfExtension(p: string, a: string, b: string)
    requires p <= a
    ensures p <= a + b
  {
  }

  /** `part` occurs in `s` at some offset: Python's `part in s`. */
  predicate IsInfix(part: string, s: string) {
    exists k :: 0 <= k <= |s| && part <= s[k..]
  }

  /** The middle piece of a concatenation occurs in it. */
  lemma InfixOfConcat(a: string, b: string, c: string)
    ensures IsInfix(b, a + b + c)
  {
    assert (a + b + c)[|a|..] == b + c;
  }

  /** What occurs in `a` occurs in any extension of `a`. */
  lemma InfixOfExtension(part: string, a: string, b: string)
    requires IsInfix(part, a)
    ensures IsInfix(part, a + b)
  {
    var k :| 0 <= k <= |a| && part <= a[k..];
    assert part <= (a + b)[k..];
  }

  /** What occurs in a part of `s` occurs in `s`. */
  lemma InfixTransitive(a: string, b: string, c: string)
    requires IsInfix(a, b) && IsInfix(b, c)
    ensures IsInfix(a, c)
  {
    var i :| 0 <= i <= |b| && a <= b[i..];
    var j :| 0 <= j <= |c| && b <= c[j..];
    assert c[j + i..][..|a|] == b[i..][..|a|];
    assert a <= c[j + i..];
  }

  function Min(a: int, b: int): int {
    if a <= b then a else b
  }

  /** Python's `s[:n]` for a non-negative `n`: the first `n` elements, or all of `s` when shorter. */
  function Take<T>(s: seq<T>, n: nat): (r: seq<T>)
    ensures |r| == Min(n, |s|)
    ensures r <= s
  {
    if |s| <= n then s else s[..n]
  }

  /** The strings `f` makes of the elements of `xs`, one after another in order. */
  function ConcatMap<T>(f: T -> string, xs: seq<T>): string
    decreases |xs|
  {
    if xs == [] then "" else ConcatMap(f, xs[..|xs| - 1]) + f(xs[|xs| - 1])
  }

  /** Mapping and concatenating distributes over concatenation of the inputs. */
  lemma {:induction false} ConcatMapAppend<T>(f: T -> string, a: seq<T>, b: seq<T>)
    ensures ConcatMap(f, a + b) == ConcatMap(f, a) + ConcatMap(f, b)
    decreases |b|
  {
    if b == [] {
      assert a + b == a;
    } else {
      var b', last := b[..|b| - 1], b[|b| - 1];
      var ab := a + b;
      assert ab[..|ab| - 1] == a + b' && ab[|ab| - 1] == last;
      ConcatMapAppend(f, a, b');
    }
  }

  /**
   * The string made of element `i` sits between those made of the elements before it and
   * after it: every element contributes its string, in input order.
   */
  lemma {:induction false} ConcatMapAt<T>(f: T -> string, xs: seq<T>, i: nat)
    requires i < |xs|
    ensures ConcatMap(f, xs) == ConcatMap(f, xs[..i]) + f(xs[i]) + ConcatMap(f, xs[i + 1..])
  {
    assert xs == xs[..i] + [xs[i]] + xs[i + 1..];
    ConcatMapAppend(f, xs[..i] + [xs[i]], xs[i + 1..]);
    ConcatMapAppend(f, xs[..i], [xs[i]]);
    assert ConcatMap(f, [xs[i]]) == f(xs[i]) by {
      assert [xs[i]][..0] == [];
    }
  }
}
