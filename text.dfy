/** String helpers with Python's semantics: `str.strip`, `str.isspace`, `in` and `find`. */
module Text {
  import opened Wrappers

  /** The characters for which Python's `str.isspace()` holds. */
  const Whitespace: set<char> := {
    ' ', '\t', '\n', '\r', '\U{B}', '\U{C}', '\U{1C}', '\U{1D}', '\U{1E}', '\U{1F}',
    '\U{85}', '\U{A0}', '\U{1680}', '\U{2000}', '\U{2001}', '\U{2002}', '\U{2003}',
    '\U{2004}', '\U{2005}', '\U{2006}', '\U{2007}', '\U{2008}', '\U{2009}', '\U{200A}',
    '\U{2028}', '\U{2029}', '\U{202F}', '\U{205F}', '\U{3000}'
  }

  /** How many leading characters of `s` are in `cs`. */
  function LeadingIn(s: string, cs: set<char>): (n: nat)
    ensures n <= |s|
    ensures forall i :: 0 <= i < n ==> s[i] in cs
    ensures n == |s| || s[n] !in cs
  {
    if s != [] && s[0] in cs then 1 + LeadingIn(s[1..], cs) else 0
  }

  /** How many trailing characters of `s` are in `cs`. */
  function TrailingIn(s: string, cs: set<char>): (n: nat)
    ensures n <= |s|
    ensures forall i :: |s| - n <= i < |s| ==> s[i] in cs
    ensures n == |s| || s[|s| - n - 1] !in cs
  {
    if s != [] && s[|s| - 1] in cs then 1 + TrailingIn(s[..|s| - 1], cs) else 0
  }

  /** `s.lstrip(cs)`: drops the longest prefix made of characters of `cs`. */
  function StripStart(s: string, cs: set<char>): string {
    s[LeadingIn(s, cs)..]
  }

  /** `s.rstrip(cs)`: drops the longest suffix made of characters of `cs`. */
  function StripEnd(s: string, cs: set<char>): string {
    s[..|s| - TrailingIn(s, cs)]
  }

  /** `s.strip(cs)`. */
  function StripChars(s: string, cs: set<char>): string {
    StripEnd(StripStart(s, cs), cs)
  }

  /** `s.strip()`. */
  function Strip(s: string): string {
    StripChars(s, Whitespace)
  }

  /** The string is empty or made of whitespace only: `not s.strip()`, as
      `BlankIffStripsToEmpty` shows. */
  predicate IsBlank(s: string) {
    forall i :: 0 <= i < |s| ==> s[i] in Whitespace
  }

  /** `s.strip(cs)` is the slice `s[i..j]` left once every leading and trailing character of
      `cs` is gone: nothing outside the slice is kept, and the slice neither starts nor ends
      with a character of `cs`. */
  lemma StripCharsSlice(s: string, cs: set<char>)
    ensures exists i, j ::
              && 0 <= i <= j <= |s| && StripChars(s, cs) == s[i..j]
              && (forall k :: 0 <= k < i ==> s[k] in cs)
              && (forall k :: j <= k < |s| ==> s[k] in cs)
    ensures StripChars(s, cs) == [] || (StripChars(s, cs)[0] !in cs && StripChars(s, cs)[|StripChars(s, cs)| - 1] !in cs)
  {
    var t := StripStart(s, cs);
    var i := |s| - |t|;
    var j := i + |StripEnd(t, cs)|;
    assert StripChars(s, cs) == s[i..j];
    forall k | j <= k < |s| ensures s[k] in cs {
      assert s[k] == t[k - i];
    }
  }

  /** Where `s.strip(cs)` lies in `s`. */
  lemma StripCharsSpan(s: string, cs: set<char>) returns (i: nat, j: nat)
    ensures i <= j <= |s| && StripChars(s, cs) == s[i..j]
  {
    var t := StripStart(s, cs);
    i := LeadingIn(s, cs);
    j := i + |StripEnd(t, cs)|;
    assert StripChars(s, cs) == s[i..j];
  }

  /** A string strips to nothing exactly when every character of it is stripped. */
  lemma StripCharsEmptyIff(s: string, cs: set<char>)
    ensures StripChars(s, cs) == [] <==> forall k :: 0 <= k < |s| ==> s[k] in cs
  {
    StripCharsSlice(s, cs);
    if StripChars(s, cs) != [] {
      var i, j :| 0 <= i <= j <= |s| && StripChars(s, cs) == s[i..j];
      assert s[i] == StripChars(s, cs)[0] && s[i] !in cs;
    }
  }

  /** `IsBlank` is Python's `not s.strip()`. */
  lemma BlankIffStripsToEmpty(s: string)
    ensures IsBlank(s) <==> Strip(s) == ""
  {
    StripCharsEmptyIff(s, Whitespace);
  }

  /** Stripping twice strips no more than stripping once. */
  lemma StripCharsIdempotent(s: string, cs: set<char>)
    ensures StripChars(StripChars(s, cs), cs) == StripChars(s, cs)
  {
    var r := StripChars(s, cs);
    StripCharsSlice(s, cs);
    assert StripStart(r, cs) == r;
    assert StripEnd(r, cs) == r;
  }

  /** `pat` occurs in `s` at index `i`. */
  predicate OccursAt(s: string, pat: string, i: nat) {
    i + |pat| <= |s| && forall k :: 0 <= k < |pat| ==> s[i + k] == pat[k]
  }

  /** `s.find(pat, from)`: the first index at or after `from` where `pat` occurs. */
  function FindFrom(s: string, pat: string, from: nat): (r: Option<nat>)
    requires from <= |s|
    ensures r.Some? ==> from <= r.value && OccursAt(s, pat, r.value)
    ensures forall k :: from <= k && (r.None? || k < r.value) ==> !OccursAt(s, pat, k)
    decreases |s| - from
  {
    if OccursAt(s, pat, from) then Some(from)
    else if from == |s| then None
    else FindFrom(s, pat, from + 1)
  }

  /** `pat in s`. */
  predicate Contains(s: string, pat: string) {
    FindFrom(s, pat, 0).Some?
  }
}
