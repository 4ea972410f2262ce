/** String primitives the router and the reply extractor are built from:
    substring search (Python's `in` on `str`), ASCII case folding
    (`str.lower()`), and whitespace trimming (`str.strip()`). */
module Text {

  datatype Option<T> = None | Some(value: T)

  // ---------------------------------------------------------------- search

  /** `sub` occurs in `s` starting at index `p`. */
  predicate OccursAt(s: string, sub: string, p: nat) {
    p + |sub| <= |s| && s[p..p + |sub|] == sub
  }

  /** Python's `sub in s`. */
  predicate Contains(s: string, sub: string) {
    exists p: nat | p <= |s| :: OccursAt(s, sub, p)
  }

  /** Some entry of `keys` is a substring of `s` (a short-circuiting
      `for key in keys: if key in s: return True`). */
  predicate ContainsAny(s: string, keys: seq<string>) {
    exists k | k in keys :: Contains(s, k)
  }

  lemma ContainsAt(s: string, sub: string, p: nat)
    requires OccursAt(s, sub, p)
    ensures Contains(s, sub)
  {
  }

  /** An occurrence in the tail of `s` is one in `s`, one index later. */
  lemma OccursInTail(s: string, sub: string, q: nat)
    requires s != []
    ensures OccursAt(s[1..], sub, q) <==> OccursAt(s, sub, q + 1)
  {
    if q + |sub| <= |s| - 1 {
      assert s[1..][q..q + |sub|] == s[q + 1..q + 1 + |sub|];
    }
  }

  /** Containment is transitive: a substring of a substring is a substring. */
  lemma {:induction false} ContainsTrans(s: string, t: string, u: string)
    requires Contains(s, t) && Contains(t, u)
    ensures Contains(s, u)
  {
    var p: nat :| p <= |s| && OccursAt(s, t, p);
    var q: nat :| q <= |t| && OccursAt(t, u, q);
    forall k | 0 <= k < |u| ensures s[p + q + k] == u[k] {
      assert s[p + (q + k)] == s[p..p + |t|][q + k];
    }
    assert OccursAt(s, u, p + q);
  }

  /** An occurrence inside a window is an occurrence in the window. */
  lemma OccursInSlice(s: string, sub: string, p: nat, i: nat, j: nat)
    requires OccursAt(s, sub, p) && i <= p && p + |sub| <= j <= |s|
    ensures OccursAt(s[i..j], sub, p - i)
  {
    forall k | 0 <= k < |sub| ensures s[i..j][p - i + k] == sub[k] {
      assert s[p..p + |sub|][k] == sub[k];
    }
  }

  lemma ContainsSelf(s: string)
    ensures Contains(s, s)
  {
    assert OccursAt(s, s, 0);
  }

  /** Every suffix of `s` is a substring of `s`. */
  lemma SuffixContained(s: string, i: nat)
    requires i <= |s|
    ensures Contains(s, s[i..])
  {
    assert OccursAt(s, s[i..], i);
  }

  /** A non-empty string does not occur in the empty one. */
  lemma NothingInEmpty(sub: string)
    requires sub != []
    ensures !Contains([], sub)
  {
  }

  /** The characters of `s` all belong to `alphabet`. */
  predicate Within(s: string, alphabet: set<char>) {
    forall i | 0 <= i < |s| :: s[i] in alphabet
  }

  /** A cheap certificate that `sub` cannot occur in any string over
      `alphabet`: its first or its last character lies outside it. */
  predicate EndsOutside(sub: string, alphabet: set<char>) {
    sub != [] && (sub[0] !in alphabet || sub[|sub| - 1] !in alphabet)
  }

  lemma NotContainedOutside(s: string, sub: string, alphabet: set<char>)
    requires Within(s, alphabet) && EndsOutside(sub, alphabet)
    ensures !Contains(s, sub)
  {
  }

  /** None of `keys` occurs in a string over `alphabet` when each key has
      an end character outside it. */
  lemma NoneContainedOutside(s: string, keys: seq<string>, alphabet: set<char>)
    requires Within(s, alphabet)
    requires forall k | k in keys :: EndsOutside(k, alphabet)
    ensures !ContainsAny(s, keys)
  {
    forall k | k in keys ensures !Contains(s, k) {
      NotContainedOutside(s, k, alphabet);
    }
  }

  lemma ContainsAnyConcat(s: string, a: seq<string>, b: seq<string>)
    ensures ContainsAny(s, a + b) <==> ContainsAny(s, a) || ContainsAny(s, b)
  {
  }

  // ---------------------------------------------------------- case folding

  /** ASCII `A`-`Z` folded to `a`-`z`; every other character unchanged. */
  function LowerChar(c: char): (d: char)
    ensures 'A' <= c <= 'Z' ==> d as int == c as int + 32
    ensures !('A' <= c <= 'Z') ==> d == c
    ensures !('A' <= d <= 'Z')
  {
    if 'A' <= c <= 'Z' then (c as int + 32) as char else c
  }

  /** `str.lower()` restricted to ASCII letters. */
  function Lower(s: string): (r: string)
    ensures |r| == |s|
    ensures forall i | 0 <= i < |s| :: r[i] == LowerChar(s[i])
  {
    seq(|s|, i requires 0 <= i < |s| => LowerChar(s[i]))
  }

  /** No ASCII upper-case letter in `s`. */
  predicate Folded(s: string) {
    forall i | 0 <= i < |s| :: !('A' <= s[i] <= 'Z')
  }

  lemma LowerFolded(s: string)
    ensures Folded(Lower(s))
  {
  }

  /** Folding leaves a string without upper-case letters unchanged; this
      covers every Japanese keyword and every lower-case ASCII keyword. */
  lemma LowerOfFolded(s: string)
    requires Folded(s)
    ensures Lower(s) == s
  {
  }

  lemma LowerIdempotent(s: string)
    ensures Lower(Lower(s)) == Lower(s)
  {
    LowerFolded(s);
    LowerOfFolded(Lower(s));
  }

  lemma LowerAppend(a: string, b: string)
    ensures Lower(a + b) == Lower(a) + Lower(b)
  {
  }

  /** Folding preserves containment. */
  lemma {:induction false} LowerContains(s: string, sub: string)
    requires Contains(s, sub)
    ensures Contains(Lower(s), Lower(sub))
  {
    var p: nat :| p <= |s| && OccursAt(s, sub, p);
    assert Lower(s)[p..p + |sub|] == Lower(sub);
    assert OccursAt(Lower(s), Lower(sub), p);
  }

  // ------------------------------------------------------------ whitespace

  /** The characters Python's `str.isspace()` accepts, which are exactly
      the ones `str.strip()` with no argument removes. */
  predicate IsSpace(c: char) {
    ('\t' <= c <= '\r')
    || ('\U{1C}' <= c <= ' ')
    || c == '\U{85}' || c == '\U{A0}' || c == '\U{1680}'
    || ('\U{2000}' <= c <= '\U{200A}')
    || c == '\U{2028}' || c == '\U{2029}' || c == '\U{202F}' || c == '\U{205F}'
    || c == '\U{3000}'
  }

  predicate AllSpace(s: string) {
    forall i | 0 <= i < |s| :: IsSpace(s[i])
  }

  /** Neither end of `s` is whitespace (vacuous for the empty string). */
  predicate Trimmed(s: string) {
    s == [] || (!IsSpace(s[0]) && !IsSpace(s[|s| - 1]))
  }

  /** Length of the leading whitespace run. */
  function LeadingSpace(s: string): (n: nat)
    ensures n <= |s| && AllSpace(s[..n])
    ensures forall k | 0 <= k < n :: IsSpace(s[k])
    ensures n < |s| ==> !IsSpace(s[n])
  {
    if s != [] && IsSpace(s[0]) then
      var n := LeadingSpace(s[1..]);
      assert forall k | 1 <= k < n + 1 :: s[k] == s[1..][..n][k - 1];
      n + 1
    else
      0
  }

  /** Length of the trailing whitespace run. */
  function TrailingSpace(s: string): (n: nat)
    ensures n <= |s| && AllSpace(s[|s| - n..])
    ensures forall k | |s| - n <= k < |s| :: IsSpace(s[k])
    ensures n < |s| ==> !IsSpace(s[|s| - n - 1])
  {
    if s != [] && IsSpace(s[|s| - 1]) then
      var t := s[..|s| - 1];
      var n := TrailingSpace(t);
      assert forall k | |s| - n - 1 <= k < |s| - 1 :: s[k] == t[|t| - n..][k - (|t| - n)];
      n + 1
    else
      0
  }

  /** Python's `str.strip()`: the middle of `s` once the whitespace runs at
      both ends are cut off. */
  function Strip(s: string): (r: string)
    ensures Trimmed(r)
    ensures r == [] <==> AllSpace(s)
    ensures exists i | 0 <= i <= |s| - |r| :: s[i..i + |r|] == r && AllSpace(s[..i]) && AllSpace(s[i + |r|..])
  {
    var i := LeadingSpace(s);
    if i == |s| then
      assert s[..i] == s && s[i..i] == [];
      []
    else
      var n := TrailingSpace(s);
      assert i < |s| - n;
      var r := s[i..|s| - n];
      assert !AllSpace(s) by { assert !IsSpace(s[i]); }
      assert s[i..i + |r|] == r;
      r
  }

  /** Stripping is idempotent. */
  lemma {:induction false} StripTrimmed(s: string)
    requires Trimmed(s)
    ensures Strip(s) == s
  {
    if s != [] {
      assert LeadingSpace(s) == 0;
      assert TrailingSpace(s) == 0;
    }
  }

  lemma StripIdempotent(s: string)
    ensures Strip(Strip(s)) == Strip(s)
  {
    StripTrimmed(Strip(s));
  }
}
