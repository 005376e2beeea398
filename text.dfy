/**
 * The two string built-ins of App.js: `String.prototype.trim` and
 * `String.prototype.toLowerCase`.
 */
module Text {

  /**
   * The code points ECMAScript's `trim` removes: WhiteSpace (TAB, VT, FF,
   * ZWNBSP and every Unicode "Space_Separator") and LineTerminator (LF, CR,
   * LINE SEPARATOR, PARAGRAPH SEPARATOR).
   */
  predicate IsWhitespace(c: char)
  {
    c == '\t' || c == '\n' || c == '\U{B}' || c == '\U{C}' || c == '\r' ||
    c == ' ' || c == '\U{A0}' || c == '\U{1680}' || ('\U{2000}' <= c <= '\U{200A}') ||
    c == '\U{2028}' || c == '\U{2029}' || c == '\U{202F}' || c == '\U{205F}' ||
    c == '\U{3000}' || c == '\U{FEFF}'
  }

  predicate AllWhitespace(s: string)
  {
    forall i :: 0 <= i < |s| ==> IsWhitespace(s[i])
  }

  /** A string with no whitespace at either end: what `trim` returns. */
  predicate IsTrimmed(s: string)
  {
    s == [] || (!IsWhitespace(s[0]) && !IsWhitespace(s[|s| - 1]))
  }

  /** The number of whitespace characters `s` starts with. */
  function LeadingWs(s: string): (n: nat)
    ensures n <= |s|
    ensures forall i :: 0 <= i < n ==> IsWhitespace(s[i])
    ensures n == |s| || !IsWhitespace(s[n])
  {
    if |s| > 0 && IsWhitespace(s[0]) then 1 + LeadingWs(s[1..]) else 0
  }

  /** The number of whitespace characters `s` ends with. */
  function TrailingWs(s: string): (n: nat)
    ensures n <= |s|
    ensures forall i :: |s| - n <= i < |s| ==> IsWhitespace(s[i])
    ensures n == |s| || !IsWhitespace(s[|s| - n - 1])
  {
    if |s| > 0 && IsWhitespace(s[|s| - 1]) then 1 + TrailingWs(s[..|s| - 1]) else 0
  }

  /** `s.trim()`: the slice between the leading and the trailing whitespace. */
  function Trim(s: string): (r: string)
    ensures IsTrimmed(r)
  {
    var t := s[LeadingWs(s)..];
    t[..|t| - TrailingWs(t)]
  }

  /** Trimming removes only whitespace, and only at the two ends: the result is a slice of the input framed by whitespace. */
  lemma TrimIsSlice(s: string) returns (k: nat)
    ensures k + |Trim(s)| <= |s|
    ensures Trim(s) == s[k..k + |Trim(s)|]
    ensures forall i :: 0 <= i < k ==> IsWhitespace(s[i])
    ensures forall i :: k + |Trim(s)| <= i < |s| ==> IsWhitespace(s[i])
  {
    k := LeadingWs(s);
    var t := s[k..];
    forall i | k + |Trim(s)| <= i < |s|
      ensures IsWhitespace(s[i])
    {
      assert s[i] == t[i - k];
    }
  }

  lemma {:induction false} LeadingWsPadded(p: string, core: string)
    requires AllWhitespace(p)
    requires core == [] || !IsWhitespace(core[0])
    ensures LeadingWs(p + core) == |p|
  {
    if p == [] {
      assert p + core == core;
    } else {
      assert (p + core)[1..] == p[1..] + core;
      LeadingWsPadded(p[1..], core);
    }
  }

  lemma {:induction false} TrailingWsPadded(core: string, q: string)
    requires AllWhitespace(q)
    requires core == [] || !IsWhitespace(core[|core| - 1])
    ensures TrailingWs(core + q) == |q|
  {
    if q == [] {
      assert core + q == core;
    } else {
      var s := core + q;
      assert s[..|s| - 1] == core + q[..|q| - 1];
      TrailingWsPadded(core, q[..|q| - 1]);
    }
  }

  /** Whitespace around a trimmed string is exactly what `trim` takes away. */
  lemma TrimPadded(p: string, core: string, q: string)
    requires AllWhitespace(p) && AllWhitespace(q)
    requires IsTrimmed(core)
    ensures Trim(p + core + q) == core
  {
    var s := p + core + q;
    if core == [] {
      assert s == (p + q) + [];
      LeadingWsPadded(p + q, []);
    } else {
      assert s == p + (core + q);
      LeadingWsPadded(p, core + q);
      assert s[|p|..] == core + q;
      TrailingWsPadded(core, q);
      assert (core + q)[..|core|] == core;
    }
  }

  /** A string with no whitespace at its ends is its own trim. */
  lemma TrimOfTrimmed(s: string)
    requires IsTrimmed(s)
    ensures Trim(s) == s
  {
    assert [] + s + [] == s;
    TrimPadded([], s, []);
  }

  /** Trimming twice changes nothing more. */
  lemma TrimIdempotent(s: string)
    ensures Trim(Trim(s)) == Trim(s)
  {
    TrimOfTrimmed(Trim(s));
  }

  /**
   * The upper-case letters this model lowers: ASCII A-Z and the Latin-1
   * capitals U+00C0..U+00DE except the multiplication sign U+00D7 (this
   * covers the accented capitals of Spanish).
   */
  predicate IsUpper(c: char)
  {
    ('A' <= c <= 'Z') || ('\U{C0}' <= c <= '\U{DE}' && c != '\U{D7}')
  }

  function LowerChar(c: char): (d: char)
    ensures !IsUpper(d)
    ensures !IsUpper(c) ==> d == c
    ensures IsWhitespace(d) <==> IsWhitespace(c)
  {
    if IsUpper(c) then (c as int + 32) as char else c
  }

  predicate IsLowerCase(s: string)
  {
    forall i :: 0 <= i < |s| ==> !IsUpper(s[i])
  }

  /** `s.toLowerCase()`: character by character, keeping the length. */
  function ToLower(s: string): (r: string)
    ensures |r| == |s|
    ensures forall i :: 0 <= i < |s| ==> r[i] == LowerChar(s[i])
    ensures IsLowerCase(r)
  {
    if s == [] then [] else [LowerChar(s[0])] + ToLower(s[1..])
  }

  /** Lowering changes no whitespace, so a trimmed string stays trimmed. */
  lemma ToLowerKeepsTrimmed(s: string)
    requires IsTrimmed(s)
    ensures IsTrimmed(ToLower(s))
  {
    if s != [] {
      assert ToLower(s)[0] == LowerChar(s[0]);
      assert ToLower(s)[|s| - 1] == LowerChar(s[|s| - 1]);
    }
  }

  /** Lowering leaves a string unchanged exactly when it has no upper-case letter. */
  lemma ToLowerFixedPoint(s: string)
    ensures ToLower(s) == s <==> IsLowerCase(s)
  {
    if IsLowerCase(s) {
      assert forall i :: 0 <= i < |s| ==> ToLower(s)[i] == s[i];
    }
  }

  /** Lowering twice is lowering once. */
  lemma ToLowerIdempotent(s: string)
    ensures ToLower(ToLower(s)) == ToLower(s)
  {
    ToLowerFixedPoint(ToLower(s));
  }
}
