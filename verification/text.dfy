/**
 The two string operations the terminal applies to its input before a
 command lookup: ECMAScript `String.prototype.trim`, and the ASCII case
 mapping of `String.prototype.toLowerCase`.
 */
module Text {

  /** ECMAScript WhiteSpace and LineTerminator code points: exactly what `trim` strips. */
  predicate IsSpace(c: char) {
    || c == '\t' || c == '\n' || c == '\U{000B}' || c == '\U{000C}' || c == '\r'
    || c == ' ' || c == '\U{00A0}' || c == '\U{1680}'
    || ('\U{2000}' <= c <= '\U{200A}')
    || c == '\U{2028}' || c == '\U{2029}' || c == '\U{202F}' || c == '\U{205F}'
    || c == '\U{3000}' || c == '\U{FEFF}'
  }

  predicate AllSpace(s: string) {
    forall i :: 0 <= i < |s| ==> IsSpace(s[i])
  }

  /** A string that `trim` leaves alone: no white space at either end. */
  predicate Trimmed(s: string) {
    s == [] || (!IsSpace(s[0]) && !IsSpace(s[|s| - 1]))
  }

  /** How many white-space characters `s` starts with. */
  function LeadingSpace(s: string): (n: nat)
    ensures n <= |s|
    ensures forall i :: 0 <= i < n ==> IsSpace(s[i])
    ensures n < |s| ==> !IsSpace(s[n])
    decreases |s|
  {
    if |s| > 0 && IsSpace(s[0]) then
      var n := LeadingSpace(s[1..]);
      assert forall i :: 1 <= i < 1 + n ==> s[i] == s[1..][i - 1];
      1 + n
    else
      0
  }

  /** How many white-space characters `s` ends with. */
  function TrailingSpace(s: string): (n: nat)
    ensures n <= |s|
    ensures forall i :: |s| - n <= i < |s| ==> IsSpace(s[i])
    ensures n < |s| ==> !IsSpace(s[|s| - n - 1])
    decreases |s|
  {
    if |s| > 0 && IsSpace(s[|s| - 1]) then
      var n := TrailingSpace(s[..|s| - 1]);
      assert forall i :: |s| - 1 - n <= i < |s| - 1 ==> s[i] == s[..|s| - 1][i];
      1 + n
    else
      0
  }

  /** ECMAScript `trim`: `s` without its leading and trailing white space. */
  function Trim(s: string): (r: string)
    ensures Trimmed(r) && |r| <= |s|
    ensures r == [] <==> AllSpace(s)
  {
    var a := LeadingSpace(s);
    if a == |s| then
      []
    else
      var b := |s| - TrailingSpace(s);
      assert !IsSpace(s[a]);
      s[a..b]
  }

  /** A known white-space prefix followed by a non-space is exactly the leading white space. */
  lemma {:induction false} LeadingSpaceOf(p: string, x: string)
    requires AllSpace(p) && (x == [] || !IsSpace(x[0]))
    ensures LeadingSpace(p + x) == |p|
  {
    var s := p + x;
    assert forall i :: 0 <= i < |p| ==> s[i] == p[i];
    if x != [] {
      assert s[|p|] == x[0];
    }
  }

  /** A known white-space suffix preceded by a non-space is exactly the trailing white space. */
  lemma {:induction false} TrailingSpaceOf(x: string, q: string)
    requires AllSpace(q) && (x == [] || !IsSpace(x[|x| - 1]))
    ensures TrailingSpace(x + q) == |q|
  {
    var s := x + q;
    assert forall i :: |x| <= i < |s| ==> s[i] == q[i - |x|];
    if x != [] {
      assert s[|x| - 1] == x[|x| - 1];
    }
  }

  /** White space followed by white space is white space. */
  lemma AllSpaceConcat(a: string, b: string)
    requires AllSpace(a) && AllSpace(b)
    ensures AllSpace(a + b)
  {
    forall i | 0 <= i < |a + b|
      ensures IsSpace((a + b)[i])
    {
      if i >= |a| {
        assert (a + b)[i] == b[i - |a|];
      }
    }
  }

  /**
   `trim` finds the one trimmed middle: whenever `s` is white space, then a
   trimmed string `m`, then white space, it returns `m`.
   */
  lemma {:induction false} TrimUnique(p: string, m: string, q: string)
    requires AllSpace(p) && AllSpace(q) && Trimmed(m)
    ensures Trim(p + m + q) == m
  {
    var s := p + m + q;
    if m == [] {
      assert s == p + q;
      AllSpaceConcat(p, q);
    } else {
      assert s == p + (m + q);
      LeadingSpaceOf(p, m + q);
      assert s == (p + m) + q;
      TrailingSpaceOf(p + m, q);
      assert s[|p|..|s| - |q|] == m;
    }
  }

  /** Every string splits as white space, its trim, and white space. */
  lemma {:induction false} TrimSplits(s: string) returns (lead: string, tail: string)
    ensures s == lead + Trim(s) + tail
    ensures AllSpace(lead) && AllSpace(tail)
  {
    var a := LeadingSpace(s);
    if a == |s| {
      lead, tail := s, [];
      assert s == lead + [] + tail;
    } else {
      var b := |s| - TrailingSpace(s);
      assert !IsSpace(s[a]);
      lead, tail := s[..a], s[b..];
      assert Trim(s) == s[a..b];
      assert s == s[..a] + s[a..b] + s[b..];
    }
  }

  /** `trim` is the identity exactly on trimmed strings. */
  lemma {:induction false} TrimFixesTrimmed(s: string)
    ensures Trim(s) == s <==> Trimmed(s)
  {
    if Trimmed(s) {
      assert s == [] + s + [];
      TrimUnique([], s, []);
    }
  }

  /** Padding a string with white space on either side does not change its trim. */
  lemma {:induction false} TrimIgnoresPadding(p: string, s: string, q: string)
    requires AllSpace(p) && AllSpace(q)
    ensures Trim(p + s + q) == Trim(s)
  {
    var lead, tail := TrimSplits(s);
    var r := Trim(s);
    Regroup(p, lead, r, tail, q);
    AllSpaceConcat(p, lead);
    AllSpaceConcat(tail, q);
    TrimUnique(p + lead, r, tail + q);
  }

  lemma Regroup(p: string, a: string, m: string, b: string, q: string)
    ensures p + (a + m + b) + q == (p + a) + m + (b + q)
  {
  }

  /** ASCII case mapping of `toLowerCase`: 'A'..'Z' to 'a'..'z', every other character kept. */
  function LowerChar(c: char): (d: char)
    ensures 'A' <= c <= 'Z' ==> 'a' <= d <= 'z' && d as int - c as int == 32
    ensures !('A' <= c <= 'Z') ==> d == c
  {
    if 'A' <= c <= 'Z' then (c as int + 32) as char else c
  }

  /** ASCII lower-casing of `s`, character by character. */
  function ToLower(s: string): (r: string)
    ensures |r| == |s|
    ensures forall i :: 0 <= i < |s| ==> r[i] == LowerChar(s[i])
  {
    seq(|s|, i requires 0 <= i < |s| => LowerChar(s[i]))
  }

  /** Lower-casing maps white space to itself and non-space to non-space. */
  lemma LowerCharKeepsSpace(c: char)
    ensures IsSpace(LowerChar(c)) <==> IsSpace(c)
  {
  }

  lemma ToLowerConcat(a: string, b: string)
    ensures ToLower(a + b) == ToLower(a) + ToLower(b)
  {
  }

  /** A string is trimmed exactly when its lower-cased form is. */
  lemma ToLowerKeepsTrimmed(s: string)
    ensures Trimmed(ToLower(s)) <==> Trimmed(s)
  {
    if s != [] {
      LowerCharKeepsSpace(s[0]);
      LowerCharKeepsSpace(s[|s| - 1]);
    }
  }

  /** A string is all white space exactly when its lower-cased form is. */
  lemma ToLowerKeepsAllSpace(s: string)
    ensures AllSpace(ToLower(s)) <==> AllSpace(s)
  {
    forall i | 0 <= i < |s| {
      LowerCharKeepsSpace(s[i]);
    }
  }

  /** No ASCII capital `A`..`Z` anywhere in `s`. */
  predicate IsLower(s: string) {
    forall i :: 0 <= i < |s| ==> !('A' <= s[i] <= 'Z')
  }

  /** Lower-casing leaves no ASCII capital and is the identity exactly on strings without one. */
  lemma ToLowerIsLower(s: string)
    ensures IsLower(ToLower(s))
    ensures IsLower(s) <==> ToLower(s) == s
  {
    if ToLower(s) == s {
      assert forall i :: 0 <= i < |s| ==> s[i] == LowerChar(s[i]);
    }
  }

  /** Lower-casing never turns white space into non-space or back, so it commutes with `trim`. */
  lemma {:induction false} TrimToLowerCommute(s: string)
    ensures Trim(ToLower(s)) == ToLower(Trim(s))
  {
    var lead, tail := TrimSplits(s);
    var r := Trim(s);
    ToLowerConcat(lead, r);
    ToLowerConcat(lead + r, tail);
    ToLowerKeepsAllSpace(lead);
    ToLowerKeepsAllSpace(tail);
    ToLowerKeepsTrimmed(r);
    TrimUnique(ToLower(lead), ToLower(r), ToLower(tail));
  }

  /** The terminal's lookup key for an input line: the line trimmed, then lower-cased. */
  function Normalize(s: string): (r: string)
    ensures IsLower(r) && Trimmed(r)
    ensures r == [] <==> AllSpace(s)
  {
    var t := Trim(s);
    ToLowerIsLower(t);
    ToLowerKeepsTrimmed(t);
    ToLower(t)
  }

  /** The normal forms are exactly the trimmed, lower-case strings. */
  lemma NormalizeFixesIff(s: string)
    ensures Normalize(s) == s <==> IsLower(s) && Trimmed(s)
  {
    if IsLower(s) && Trimmed(s) {
      TrimFixesTrimmed(s);
      ToLowerIsLower(s);
    }
  }

  /** Normalizing twice is normalizing once. */
  lemma NormalizeIdempotent(s: string)
    ensures Normalize(Normalize(s)) == Normalize(s)
  {
    NormalizeFixesIff(Normalize(s));
  }

  /** Inputs that differ only in letter case normalize alike. */
  lemma {:induction false} NormalizeIgnoresCase(a: string, b: string)
    requires ToLower(a) == ToLower(b)
    ensures Normalize(a) == Normalize(b)
  {
    TrimToLowerCommute(a);
    TrimToLowerCommute(b);
  }

  /** Inputs that differ only in surrounding white space normalize alike. */
  lemma {:induction false} NormalizeIgnoresPadding(p: string, s: string, q: string)
    requires AllSpace(p) && AllSpace(q)
    ensures Normalize(p + s + q) == Normalize(s)
  {
    TrimIgnoresPadding(p, s, q);
  }

  /** Any spelling of a normal form that differs only in case and padding normalizes to it. */
  lemma {:induction false} NormalizeSpelling(p: string, w: string, q: string, key: string)
    requires AllSpace(p) && AllSpace(q) && ToLower(w) == key && IsLower(key) && Trimmed(key)
    ensures Normalize(p + w + q) == key
  {
    NormalizeFixesIff(key);
    ToLowerIsLower(key);
    NormalizeIgnoresCase(w, key);
    NormalizeIgnoresPadding(p, w, q);
  }
}
