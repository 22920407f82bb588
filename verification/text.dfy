/**
 * The two string operations the storefront normalises codes with:
 * `String.prototype.trim` and `String.prototype.toUpperCase`.
 *
 * `trim` is modelled exactly: it removes, at both ends, every code point that
 * ECMAScript classes as WhiteSpace or LineTerminator. `toUpperCase` is modelled
 * on ASCII letters only.
 */
module Text {

  /** ECMAScript WhiteSpace (TAB, VT, FF, SP, NBSP, ZWNBSP and the Zs category)
      and LineTerminator (LF, CR, LS, PS). */
  predicate IsSpace(c: char) {
    || c == '\t' || c == '\n' || c == '\U{B}' || c == '\U{C}' || c == '\r'
    || c == ' ' || c == '\U{A0}' || c == '\U{1680}'
    || ('\U{2000}' <= c <= '\U{200A}')
    || c == '\U{2028}' || c == '\U{2029}' || c == '\U{202F}' || c == '\U{205F}'
    || c == '\U{3000}' || c == '\U{FEFF}'
  }

  /** Every character of `s` is whitespace (the empty string included). */
  predicate AllSpace(s: string) {
    forall k :: 0 <= k < |s| ==> IsSpace(s[k])
  }

  predicate IsLowerAscii(c: char) {
    'a' <= c <= 'z'
  }

  /** Upper case of one character: ASCII `a`-`z` map to `A`-`Z`, all else is kept. */
  function UpperChar(c: char): (u: char)
    ensures !IsLowerAscii(u)
    ensures !IsLowerAscii(c) ==> u == c
    ensures IsLowerAscii(c) ==> u as int == c as int - 32
  {
    if IsLowerAscii(c) then (c as int - 32) as char else c
  }

  /** `s.toUpperCase()`: the same length, each character upper-cased on its own. */
  function Upper(s: string): (r: string)
    ensures |r| == |s|
    ensures forall i :: 0 <= i < |s| ==> r[i] == UpperChar(s[i])
  {
    if s == [] then [] else [UpperChar(s[0])] + Upper(s[1..])
  }

  /** The number of whitespace characters at the start of `s`. */
  function LeadingSpaces(s: string): (n: nat)
    ensures n <= |s|
    ensures AllSpace(s[..n])
    ensures n < |s| ==> !IsSpace(s[n])
  {
    if s == [] || !IsSpace(s[0]) then 0 else 1 + LeadingSpaces(s[1..])
  }

  /** The number of whitespace characters at the end of `s`. */
  function TrailingSpaces(s: string): (n: nat)
    ensures n <= |s|
    ensures AllSpace(s[|s| - n..])
    ensures n < |s| ==> !IsSpace(s[|s| - 1 - n])
  {
    if s == [] || !IsSpace(s[|s| - 1]) then 0 else 1 + TrailingSpaces(s[..|s| - 1])
  }

  /** `s.trim()`: the slice of `s` that starts at its first non-whitespace
      character and leaves only whitespace behind it. */
  function Trim(s: string): (r: string)
    ensures LeadingSpaces(s) + |r| <= |s|
    ensures r == s[LeadingSpaces(s)..LeadingSpaces(s) + |r|]
    ensures AllSpace(s[LeadingSpaces(s) + |r|..])
    ensures r != [] ==> !IsSpace(r[0]) && !IsSpace(r[|r| - 1])
  {
    TrimEnd(TrimStart(s))
  }

  /** `s.trimStart()`. */
  function TrimStart(s: string): string {
    s[LeadingSpaces(s)..]
  }

  /** `s.trimEnd()`. */
  function TrimEnd(s: string): string {
    s[..|s| - TrailingSpaces(s)]
  }

  /** A string is trimmed when neither end is whitespace. */
  predicate IsTrimmed(s: string) {
    s == [] || (!IsSpace(s[0]) && !IsSpace(s[|s| - 1]))
  }

  /** The code normalisation of manual coupon entry: `s.trim().toUpperCase()`. */
  function Normalize(s: string): (r: string)
    ensures |r| <= |s|
    ensures IsTrimmed(r) && Upper(r) == r
  {
    TrimUpperCommute(Trim(s));
    TrimIdempotent(s);
    TrimTrimmed(Upper(Trim(s)));
    UpperIdempotent(Trim(s));
    Upper(Trim(s))
  }

  /** The result of trimming is trimmed. */
  lemma TrimTrimmed(s: string)
    requires Trim(s) == s
    ensures IsTrimmed(s)
  {
  }

  lemma TrimOfTrimmed(s: string)
    requires IsTrimmed(s)
    ensures Trim(s) == s
  {
    assert LeadingSpaces(s) == 0;
    assert TrailingSpaces(s) == 0;
  }

  /** Trimming twice is trimming once. */
  lemma TrimIdempotent(s: string)
    ensures Trim(Trim(s)) == Trim(s)
  {
    TrimOfTrimmed(Trim(s));
  }

  /** Trim yields the empty string exactly when every character is whitespace. */
  lemma TrimEmptyIff(s: string)
    ensures Trim(s) == [] <==> AllSpace(s)
  {
    if Trim(s) != [] {
      var n := LeadingSpaces(s);
      assert s[n] == Trim(s)[0];
    }
  }

  /** Upper-casing twice is upper-casing once. */
  lemma UpperIdempotent(s: string)
    ensures Upper(Upper(s)) == Upper(s)
  {
    var u := Upper(s);
    assert forall i :: 0 <= i < |u| ==> Upper(u)[i] == u[i];
  }

  /** A string with no lower-case ASCII letter is its own upper case. */
  lemma UpperOfNoLower(s: string)
    requires forall i :: 0 <= i < |s| ==> !IsLowerAscii(s[i])
    ensures Upper(s) == s
  {
    assert forall i :: 0 <= i < |s| ==> Upper(s)[i] == s[i];
  }

  /** The empty string is the only string that upper-cases to the empty string. */
  lemma UpperEmptyIff(s: string)
    ensures Upper(s) == [] <==> s == []
  {
    assert |Upper(s)| == |s|;
  }

  /** Upper-casing leaves every whitespace character where it was and leaves no new one. */
  lemma UpperKeepsSpaces(c: char)
    ensures IsSpace(UpperChar(c)) <==> IsSpace(c)
  {
  }

  /** `t` and `u` have whitespace at exactly the same positions. */
  predicate SameSpaces(t: string, u: string) {
    |t| == |u| && forall i :: 0 <= i < |t| ==> (IsSpace(t[i]) <==> IsSpace(u[i]))
  }

  lemma UpperSameSpaces(s: string)
    ensures SameSpaces(Upper(s), s)
  {
    forall i | 0 <= i < |s|
      ensures IsSpace(Upper(s)[i]) <==> IsSpace(s[i])
    {
      UpperKeepsSpaces(s[i]);
    }
  }

  lemma {:induction false} SameSpacesLeading(t: string, u: string)
    requires SameSpaces(t, u)
    ensures LeadingSpaces(t) == LeadingSpaces(u)
  {
    if t != [] && IsSpace(t[0]) {
      assert SameSpaces(t[1..], u[1..]);
      SameSpacesLeading(t[1..], u[1..]);
    }
  }

  lemma {:induction false} SameSpacesTrailing(t: string, u: string)
    requires SameSpaces(t, u)
    ensures TrailingSpaces(t) == TrailingSpaces(u)
  {
    if t != [] && IsSpace(t[|t| - 1]) {
      var last := |t| - 1;
      assert SameSpaces(t[..last], u[..last]);
      SameSpacesTrailing(t[..last], u[..last]);
    }
  }

  lemma LeadingSpacesUpper(s: string)
    ensures LeadingSpaces(Upper(s)) == LeadingSpaces(s)
  {
    UpperSameSpaces(s);
    SameSpacesLeading(Upper(s), s);
  }

  lemma TrailingSpacesUpper(s: string)
    ensures TrailingSpaces(Upper(s)) == TrailingSpaces(s)
  {
    UpperSameSpaces(s);
    SameSpacesTrailing(Upper(s), s);
  }

  lemma {:induction false} UpperSlice(s: string, i: nat, j: nat)
    requires i <= j <= |s|
    ensures Upper(s)[i..j] == Upper(s[i..j])
  {
    var a, b := Upper(s)[i..j], Upper(s[i..j]);
    forall k | 0 <= k < |a|
      ensures a[k] == b[k]
    {
      assert a[k] == Upper(s)[i + k];
      assert s[i..j][k] == s[i + k];
    }
  }

  /** Trimming and upper-casing commute. */
  lemma {:induction false} TrimUpperCommute(s: string)
    ensures Trim(Upper(s)) == Upper(Trim(s))
  {
    TrimStartUpper(s);
    TrimEndUpper(TrimStart(s));
  }

  lemma TrimStartUpper(s: string)
    ensures TrimStart(Upper(s)) == Upper(TrimStart(s))
  {
    LeadingSpacesUpper(s);
    UpperSlice(s, LeadingSpaces(s), |s|);
    assert s[LeadingSpaces(s)..|s|] == s[LeadingSpaces(s)..];
  }

  lemma TrimEndUpper(s: string)
    ensures TrimEnd(Upper(s)) == Upper(TrimEnd(s))
  {
    TrailingSpacesUpper(s);
    UpperSlice(s, 0, |s| - TrailingSpaces(s));
    assert s[0..|s| - TrailingSpaces(s)] == s[..|s| - TrailingSpaces(s)];
  }

  /** Normalising a normalised code changes nothing. */
  lemma NormalizeIdempotent(s: string)
    ensures Normalize(Normalize(s)) == Normalize(s)
  {
    calc {
      Normalize(Normalize(s));
      Upper(Trim(Upper(Trim(s))));
      { TrimUpperCommute(Trim(s)); }
      Upper(Upper(Trim(Trim(s))));
      { TrimIdempotent(s); UpperIdempotent(Trim(s)); }
      Upper(Trim(s));
    }
  }

  /** A normalised code is empty exactly when the input was all whitespace. */
  lemma NormalizeEmptyIff(s: string)
    ensures Normalize(s) == [] <==> AllSpace(s)
  {
    UpperEmptyIff(Trim(s));
    TrimEmptyIff(s);
  }
}
