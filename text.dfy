/** JavaScript's String.prototype.trim, as the chat screen uses it on the input
    box: strip the WhiteSpace and LineTerminator code points of ECMAScript from
    both ends of a string. */
module Text {

  /** ECMAScript WhiteSpace (TAB, VT, FF, ZWNBSP and every Zs space) and
      LineTerminator (LF, CR, LS, PS) code points. */
  predicate IsWhitespace(c: char) {
    c == '\t' || c == '\n' || c == '\U{B}' || c == '\U{C}' || c == '\r' ||
    c == ' ' || c == '\U{A0}' || c == '\U{1680}' ||
    ('\U{2000}' <= c <= '\U{200A}') ||
    c == '\U{2028}' || c == '\U{2029}' || c == '\U{202F}' || c == '\U{205F}' ||
    c == '\U{3000}' || c == '\U{FEFF}'
  }

  predicate AllWhitespace(s: string) {
    forall i :: 0 <= i < |s| ==> IsWhitespace(s[i])
  }

  /** `s` without its leading whitespace run. */
  function TrimStart(s: string): (r: string) {
    if |s| > 0 && IsWhitespace(s[0]) then TrimStart(s[1..]) else s
  }

  /** `s` without its trailing whitespace run. */
  function TrimEnd(s: string): (r: string) {
    if |s| > 0 && IsWhitespace(s[|s| - 1]) then TrimEnd(s[..|s| - 1]) else s
  }

  /** `s.trim()`. */
  function Trim(s: string): (r: string) {
    TrimEnd(TrimStart(s))
  }

  /** TrimStart leaves the suffix of `s` after a whitespace-only prefix, and
      that suffix does not start with whitespace. */
  lemma {:induction false} TrimStartSpec(s: string)
    ensures |TrimStart(s)| <= |s| && TrimStart(s) == s[|s| - |TrimStart(s)|..]
    ensures AllWhitespace(s[..|s| - |TrimStart(s)|])
    ensures TrimStart(s) == [] || !IsWhitespace(TrimStart(s)[0])
  {
    if |s| > 0 && IsWhitespace(s[0]) {
      var r := TrimStart(s[1..]);
      TrimStartSpec(s[1..]);
      assert s[..|s| - |r|] == [s[0]] + s[1..][..|s| - 1 - |r|];
    }
  }

  /** TrimEnd leaves the prefix of `s` before a whitespace-only suffix, and
      that prefix does not end with whitespace. */
  lemma {:induction false} TrimEndSpec(s: string)
    ensures |TrimEnd(s)| <= |s| && TrimEnd(s) == s[..|TrimEnd(s)|]
    ensures AllWhitespace(s[|TrimEnd(s)|..])
    ensures TrimEnd(s) == [] || !IsWhitespace(TrimEnd(s)[|TrimEnd(s)| - 1])
  {
    if |s| > 0 && IsWhitespace(s[|s| - 1]) {
      var r := TrimEnd(s[..|s| - 1]);
      TrimEndSpec(s[..|s| - 1]);
      assert s[|r|..] == s[..|s| - 1][|r|..] + [s[|s| - 1]];
    }
  }

  /** `s.trim()` is empty exactly when `s` is all whitespace; otherwise it
      starts and ends with a non-whitespace character. */
  lemma TrimSpec(s: string)
    ensures |Trim(s)| <= |s|
    ensures Trim(s) == [] <==> AllWhitespace(s)
    ensures Trim(s) != [] ==> !IsWhitespace(Trim(s)[0]) && !IsWhitespace(Trim(s)[|Trim(s)| - 1])
  {
    var u := TrimStart(s);
    var r := TrimEnd(u);
    TrimStartSpec(s);
    TrimEndSpec(u);
    assert r == [] ==> u[|r|..] == u;
    assert u == [] ==> s[..|s| - |u|] == s;
    assert u != [] ==> !IsWhitespace(s[|s| - |u|]);
  }

  /** Reference definition of trimming, independent of how it is computed:
      `r` is the slice of `s` between a whitespace-only prefix and a
      whitespace-only suffix, and `r` itself neither starts nor ends with
      whitespace. */
  ghost predicate IsTrimOf(r: string, s: string) {
    exists i, j :: TrimAt(s, r, i, j)
  }

  /** `r` is `s[i..j]`, with only whitespace outside it and none at its ends. */
  ghost predicate TrimAt(s: string, r: string, i: int, j: int) {
    0 <= i <= j <= |s| && r == s[i..j] &&
    AllWhitespace(s[..i]) && AllWhitespace(s[j..]) &&
    (r == [] || (!IsWhitespace(r[0]) && !IsWhitespace(r[|r| - 1])))
  }

  lemma TrimIsTrimOf(s: string)
    ensures IsTrimOf(Trim(s), s)
  {
    var u := TrimStart(s);
    var r := Trim(s);
    TrimStartSpec(s);
    TrimEndSpec(u);
    TrimSpec(s);
    var i := |s| - |u|;
    var j := i + |r|;
    assert u[..|r|] == s[i..j];
    assert u[|r|..] == s[j..];
    assert TrimAt(s, r, i, j);
  }

  lemma LeadingRun(s: string, i: nat, k: nat)
    requires k < i <= |s| && AllWhitespace(s[..i])
    ensures IsWhitespace(s[k])
  {
    assert s[..i][k] == s[k];
  }

  lemma TrailingRun(s: string, j: nat, k: nat)
    requires j <= k < |s| && AllWhitespace(s[j..])
    ensures IsWhitespace(s[k])
  {
    assert s[j..][k - j] == s[k];
  }

  /** A trimming of `s` is empty exactly when `s` is all whitespace. */
  lemma TrimAtEmptyIffBlank(s: string, r: string, i: int, j: int)
    requires TrimAt(s, r, i, j)
    ensures r == [] <==> AllWhitespace(s)
  {
    if r == [] {
      forall k | 0 <= k < |s| ensures IsWhitespace(s[k]) {
        if k < i { LeadingRun(s, i, k); } else { TrailingRun(s, j, k); }
      }
    } else {
      assert !IsWhitespace(s[i]);
    }
  }

  /** A non-whitespace character lies at or after any whitespace-only prefix. */
  lemma NotInLeadingRun(s: string, i: nat, k: nat)
    requires i <= |s| && AllWhitespace(s[..i]) && k < |s| && !IsWhitespace(s[k])
    ensures i <= k
  {
    if k < i { LeadingRun(s, i, k); }
  }

  /** A non-whitespace character lies before any whitespace-only suffix. */
  lemma NotInTrailingRun(s: string, j: nat, k: nat)
    requires j <= |s| && AllWhitespace(s[j..]) && k < |s| && !IsWhitespace(s[k])
    ensures k < j
  {
    if j <= k { TrailingRun(s, j, k); }
  }

  /** Two non-empty trimmings of `s` have the same bounds. */
  lemma TrimAtBoundsUnique(s: string, r1: string, i1: int, j1: int, r2: string, i2: int, j2: int)
    requires TrimAt(s, r1, i1, j1) && TrimAt(s, r2, i2, j2) && r1 != [] && r2 != []
    ensures i1 == i2 && j1 == j2
  {
    assert s[i1] == r1[0] && s[i2] == r2[0];
    NotInLeadingRun(s, i1, i2);
    NotInLeadingRun(s, i2, i1);
    assert s[j1 - 1] == r1[|r1| - 1] && s[j2 - 1] == r2[|r2| - 1];
    NotInTrailingRun(s, j1, j2 - 1);
    NotInTrailingRun(s, j2, j1 - 1);
  }

  /** The reference trimming of a string is unique. */
  lemma TrimOfUnique(s: string, r1: string, r2: string)
    requires IsTrimOf(r1, s) && IsTrimOf(r2, s)
    ensures r1 == r2
  {
    var i1, j1 :| TrimAt(s, r1, i1, j1);
    var i2, j2 :| TrimAt(s, r2, i2, j2);
    TrimAtEmptyIffBlank(s, r1, i1, j1);
    TrimAtEmptyIffBlank(s, r2, i2, j2);
    if r1 != [] {
      TrimAtBoundsUnique(s, r1, i1, j1, r2, i2, j2);
    }
  }

  /** Trim computes exactly the reference trimming, in both directions. */
  lemma TrimCharacterized(s: string, r: string)
    ensures IsTrimOf(r, s) <==> r == Trim(s)
  {
    TrimIsTrimOf(s);
    if IsTrimOf(r, s) { TrimOfUnique(s, r, Trim(s)); }
  }

  /** Trimming twice is trimming once. */
  lemma TrimIdempotent(s: string)
    ensures Trim(Trim(s)) == Trim(s)
  {
    var r := Trim(s);
    TrimSpec(s);
    assert r[..0] == [] && r[|r|..] == [] && r[0..|r|] == r;
    assert TrimAt(r, r, 0, |r|);
    TrimCharacterized(r, r);
  }
}
