/**
 * The two JavaScript string built-ins the machine calls:
 * `String.prototype.trim` and `String.prototype.toUpperCase`.
 */
module JsString {

  /** ECMAScript's WhiteSpace and LineTerminator code points, which `trim` strips. */
  const WhiteSpaceCodes: set<int> :=
    {0x09, 0x0A, 0x0B, 0x0C, 0x0D, 0x20, 0xA0, 0x1680,
     0x2000, 0x2001, 0x2002, 0x2003, 0x2004, 0x2005, 0x2006, 0x2007, 0x2008, 0x2009, 0x200A,
     0x2028, 0x2029, 0x202F, 0x205F, 0x3000, 0xFEFF}

  predicate IsWhiteSpace(c: char)
  {
    c as int in WhiteSpaceCodes
  }

  predicate AllWhite(s: string)
  {
    forall i :: 0 <= i < |s| ==> IsWhiteSpace(s[i])
  }

  /** A string that `trim` leaves as it is: empty, or not starting or ending in white space. */
  predicate IsTrimmed(w: string)
  {
    w == [] || (!IsWhiteSpace(w[0]) && !IsWhiteSpace(w[|w| - 1]))
  }

  /** The number of white-space characters at the start of `s`. */
  function LeadingWhite(s: string): (n: nat)
    ensures n <= |s|
    ensures AllWhite(s[..n])
    ensures n < |s| ==> !IsWhiteSpace(s[n])
  {
    if s == [] || !IsWhiteSpace(s[0]) then 0
    else
      var k := LeadingWhite(s[1..]);
      assert s[1..][..k] == s[1..k + 1];
      1 + k
  }

  /** The number of white-space characters at the end of `s`. */
  function TrailingWhite(s: string): (n: nat)
    ensures n <= |s|
    ensures AllWhite(s[|s| - n..])
    ensures n < |s| ==> !IsWhiteSpace(s[|s| - 1 - n])
  {
    if s == [] || !IsWhiteSpace(s[|s| - 1]) then 0
    else
      var init := s[..|s| - 1];
      var k := TrailingWhite(init);
      assert s[|s| - (k + 1)..] == init[|init| - k..] + [s[|s| - 1]];
      1 + k
  }

  /** `s.trim()`: `s` with its leading and trailing white space removed. */
  function Trim(s: string): (r: string)
    ensures IsTrimmed(r)
  {
    var t := s[LeadingWhite(s)..];
    t[..|t| - TrailingWhite(t)]
  }

  lemma Split3<T>(s: seq<T>, a: nat, b: nat)
    requires a <= |s| && b <= |s[a..]|
    ensures s == s[..a] + s[a..][..|s[a..]| - b] + s[a..][|s[a..]| - b..]
  {
    var t := s[a..];
    assert t == t[..|t| - b] + t[|t| - b..];
    assert s == s[..a] + t;
  }

  /** What `trim` removed is white space on both sides: `s` is the result so padded. */
  lemma TrimSplit(s: string) returns (p: string, q: string)
    ensures AllWhite(p) && AllWhite(q) && s == p + Trim(s) + q
  {
    var a := LeadingWhite(s);
    var b := TrailingWhite(s[a..]);
    Split3(s, a, b);
    p, q := s[..a], s[a..][|s[a..]| - b..];
  }

  lemma {:induction false} LeadingWhiteOfPadded(p: string, rest: string)
    requires AllWhite(p)
    ensures LeadingWhite(p + rest) == |p| + LeadingWhite(rest)
  {
    if p != [] {
      assert (p + rest)[0] == p[0] && IsWhiteSpace(p[0]);
      assert (p + rest)[1..] == p[1..] + rest;
      assert AllWhite(p[1..]) by {
        forall i | 0 <= i < |p| - 1 ensures IsWhiteSpace(p[1..][i]) { assert p[1..][i] == p[i + 1]; }
      }
      LeadingWhiteOfPadded(p[1..], rest);
    } else {
      assert p + rest == rest;
    }
  }

  lemma {:induction false} TrailingWhiteOfPadded(rest: string, q: string)
    requires AllWhite(q)
    ensures TrailingWhite(rest + q) == TrailingWhite(rest) + |q|
  {
    if q != [] {
      var q' := q[..|q| - 1];
      assert (rest + q)[|rest + q| - 1] == q[|q| - 1] && IsWhiteSpace(q[|q| - 1]);
      assert (rest + q)[..|rest + q| - 1] == rest + q';
      assert AllWhite(q') by {
        forall i | 0 <= i < |q'| ensures IsWhiteSpace(q'[i]) { assert q'[i] == q[i]; }
      }
      TrailingWhiteOfPadded(rest, q');
    } else {
      assert rest + q == rest;
    }
  }

  /** The converse of TrimSplit: trimming a white-padded trimmed string gives it back. */
  lemma TrimOfPadded(p: string, w: string, q: string)
    requires AllWhite(p) && AllWhite(q) && IsTrimmed(w)
    ensures Trim(p + w + q) == w
  {
    var s := p + w + q;
    assert s == p + (w + q);
    LeadingWhiteOfPadded(p, w + q);
    if w == [] {
      assert w + q == q + [];
      LeadingWhiteOfPadded(q, []);
      assert s[|s|..] == [];
    } else {
      assert LeadingWhite(w + q) == 0 by { assert (w + q)[0] == w[0]; }
      assert s[|p|..] == w + q;
      TrailingWhiteOfPadded(w, q);
      assert TrailingWhite(w) == 0;
      assert (w + q)[..|w|] == w;
    }
  }

  /** `toUpperCase` on one character, for the ASCII range. */
  function UpperChar(c: char): char
  {
    if 'a' <= c <= 'z' then (c as int - 32) as char else c
  }

  /** `s.toUpperCase()`, character by character (ASCII letters only). */
  function ToUpperCase(s: string): (r: string)
    ensures |r| == |s|
    ensures forall i :: 0 <= i < |s| ==> r[i] == UpperChar(s[i])
  {
    if s == [] then [] else [UpperChar(s[0])] + ToUpperCase(s[1..])
  }

}
