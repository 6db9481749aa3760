/**
 * String helpers with Python's semantics, restricted to what the model needs:
 * the code-point lexicographic order of `str < str`, `strip` over Python's
 * whitespace, `upper` and `lower` for every character whose Python case
 * mapping is ASCII, `startswith`, and decimal formatting of naturals.
 */
module Text {

  /** Python's `a < b` on strings: lexicographic by code point. */
  predicate StrLt(a: string, b: string)
    decreases |a|
  {
    if |a| == 0 then |b| > 0
    else if |b| == 0 then false
    else if a[0] != b[0] then a[0] < b[0]
    else StrLt(a[1..], b[1..])
  }

  lemma {:induction false} StrLtIrreflexive(a: string)
    ensures !StrLt(a, a)
    decreases |a|
  {
    if |a| > 0 { StrLtIrreflexive(a[1..]); }
  }

  lemma {:induction false} StrLtTransitive(a: string, b: string, c: string)
    requires StrLt(a, b) && StrLt(b, c)
    ensures StrLt(a, c)
    decreases |a|
  {
    if |a| > 0 && |b| > 0 && |c| > 0 && a[0] == b[0] && b[0] == c[0] {
      StrLtTransitive(a[1..], b[1..], c[1..]);
    }
  }

  lemma {:induction false} StrLtTotal(a: string, b: string)
    requires a != b
    ensures StrLt(a, b) || StrLt(b, a)
    decreases |a|
  {
    if |a| > 0 && |b| > 0 && a[0] == b[0] {
      assert a == [a[0]] + a[1..] && b == [b[0]] + b[1..];
      StrLtTotal(a[1..], b[1..]);
    }
  }

  /** Python's `str.startswith`. */
  predicate StartsWith(s: string, prefix: string) {
    |prefix| <= |s| && s[..|prefix|] == prefix
  }

  /**
   * The characters `str.isspace()` accepts, which are the ones `str.strip()`
   * removes: the ASCII controls 0x09-0x0D and 0x1C-0x1F, the space, and the
   * Unicode separators (NEL, NO-BREAK SPACE, OGHAM SPACE MARK, the spaces
   * U+2000-U+200A, LINE and PARAGRAPH SEPARATOR, NARROW NO-BREAK SPACE,
   * MEDIUM MATHEMATICAL SPACE, IDEOGRAPHIC SPACE).
   */
  predicate IsSpace(c: char) {
    || ('\t' <= c <= '\r')
    || ('\U{1C}' <= c <= ' ')
    || c == '\U{85}' || c == '\U{A0}' || c == '\U{1680}'
    || ('\U{2000}' <= c <= '\U{200A}')
    || c == '\U{2028}' || c == '\U{2029}' || c == '\U{202F}' || c == '\U{205F}' || c == '\U{3000}'
  }

  function StripLeft(s: string): (r: string)
    ensures |r| <= |s| && (r == [] || !IsSpace(r[0]))
    ensures r == s[|s| - |r|..]
  {
    if s != [] && IsSpace(s[0]) then StripLeft(s[1..]) else s
  }

  function StripRight(s: string): (r: string)
    ensures |r| <= |s| && (r == [] || !IsSpace(r[|r| - 1]))
    ensures r == s[..|r|]
  {
    if s != [] && IsSpace(s[|s| - 1]) then StripRight(s[..|s| - 1]) else s
  }

  /** Python's `str.strip()`. */
  function Strip(s: string): (r: string)
    ensures r == [] || (!IsSpace(r[0]) && !IsSpace(r[|r| - 1]))
  {
    StripRight(StripLeft(s))
  }

  /**
   * `c.upper()` for the ASCII letters and for the ten other characters whose
   * upper case is ASCII: sharp s, dotless i, long s and the Latin ligatures
   * U+FB00-U+FB06. Every other character is kept as it is.
   */
  function UpperOf(c: char): (r: string)
    ensures |r| >= 1
  {
    if 'a' <= c <= 'z' then [(c as int - 32) as char]
    else if c == '\U{DF}' then "SS"
    else if c == '\U{131}' then "I"
    else if c == '\U{17F}' then "S"
    else if c == '\U{FB00}' then "FF"
    else if c == '\U{FB01}' then "FI"
    else if c == '\U{FB02}' then "FL"
    else if c == '\U{FB03}' then "FFI"
    else if c == '\U{FB04}' then "FFL"
    else if c == '\U{FB05}' || c == '\U{FB06}' then "ST"
    else [c]
  }

  /** `c.lower()` for the ASCII letters and the Kelvin sign, the one other character whose lower case is ASCII. */
  function LowerChar(c: char): char {
    if 'A' <= c <= 'Z' then (c as int + 32) as char
    else if c == '\U{212A}' then 'k'
    else c
  }

  /** Python's `str.upper()`: each character's upper case, in order. */
  function Upper(s: string): (r: string)
    ensures |r| >= |s|
  {
    if s == [] then [] else UpperOf(s[0]) + Upper(s[1..])
  }

  /** Python's `str.lower()`: each character's lower case, in order. */
  function Lower(s: string): (r: string)
    ensures |r| == |s|
    ensures forall i :: 0 <= i < |s| ==> r[i] == LowerChar(s[i])
  {
    if s == [] then [] else [LowerChar(s[0])] + Lower(s[1..])
  }

  /** Upper-casing works character by character, so it distributes over concatenation. */
  lemma {:induction false} UpperAppend(a: string, b: string)
    ensures Upper(a + b) == Upper(a) + Upper(b)
    decreases |a|
  {
    if a != [] {
      assert (a + b)[1..] == a[1..] + b;
      UpperAppend(a[1..], b);
    } else {
      assert a + b == b;
    }
  }

  /** Whitespace has no case, and no other character upper-cases to whitespace at either end. */
  lemma UpperOfSpace(c: char)
    ensures IsSpace(c) ==> UpperOf(c) == [c]
    ensures !IsSpace(c) ==> !IsSpace(UpperOf(c)[0]) && !IsSpace(UpperOf(c)[|UpperOf(c)| - 1])
  {
  }

  /** Upper-casing an upper case gives it back. */
  lemma UpperOfIdempotent(c: char)
    ensures Upper(UpperOf(c)) == UpperOf(c)
  {
    var u := UpperOf(c);
    assert forall i :: 0 <= i < |u| ==> UpperOf(u[i]) == [u[i]];
    UpperFixed(u);
  }

  /** A string of characters that upper-case to themselves is its own upper case. */
  lemma {:induction false} UpperFixed(u: string)
    requires forall i :: 0 <= i < |u| ==> UpperOf(u[i]) == [u[i]]
    ensures Upper(u) == u
    decreases |u|
  {
    if u != [] {
      assert forall i :: 0 <= i < |u[1..]| ==> u[1..][i] == u[i + 1];
      UpperFixed(u[1..]);
      assert u == [u[0]] + u[1..];
    }
  }

  lemma {:induction false} StripLeftUpper(t: string)
    ensures StripLeft(Upper(t)) == Upper(StripLeft(t))
    decreases |t|
  {
    if t != [] {
      var u := Upper(t);
      assert u == UpperOf(t[0]) + Upper(t[1..]);
      UpperOfSpace(t[0]);
      if IsSpace(t[0]) {
        assert u[1..] == Upper(t[1..]);
        StripLeftUpper(t[1..]);
      } else {
        assert u[0] == UpperOf(t[0])[0];
      }
    }
  }

  lemma {:induction false} StripRightUpper(t: string)
    ensures StripRight(Upper(t)) == Upper(StripRight(t))
    decreases |t|
  {
    if t != [] {
      var init, last := t[..|t| - 1], t[|t| - 1];
      assert t == init + [last];
      UpperAppend(init, [last]);
      assert Upper([last]) == UpperOf(last) + Upper([]);
      UpperOfSpace(last);
      var u := Upper(t);
      if IsSpace(last) {
        assert u[..|u| - 1] == Upper(init);
        StripRightUpper(init);
      } else {
        assert u[|u| - 1] == UpperOf(last)[|UpperOf(last)| - 1];
      }
    }
  }

  lemma {:induction false} UpperIdempotent(t: string)
    ensures Upper(Upper(t)) == Upper(t)
    decreases |t|
  {
    if t != [] {
      UpperAppend(UpperOf(t[0]), Upper(t[1..]));
      UpperOfIdempotent(t[0]);
      UpperIdempotent(t[1..]);
    }
  }

  /** Text with no blank at either end is its own strip. */
  lemma StripUnpadded(s: string)
    requires s == [] || (!IsSpace(s[0]) && !IsSpace(s[|s| - 1]))
    ensures Strip(s) == s
  {
  }

  /** One blank on each side of unpadded text is stripped away. */
  lemma StripPadded(c: char, s: string, d: char)
    requires IsSpace(c) && IsSpace(d) && s != [] && !IsSpace(s[0]) && !IsSpace(s[|s| - 1])
    ensures Strip([c] + s + [d]) == s
  {
    var t := [c] + s + [d];
    assert t[1..] == s + [d];
    assert StripLeft(s + [d]) == s + [d];
    assert (s + [d])[..|s|] == s;
    StripUnpadded(s);
  }

  lemma StripIdempotent(t: string)
    ensures Strip(Strip(t)) == Strip(t)
  {
    var u := StripLeft(t);
    var v := StripRight(u);
    assert v == [] || v[0] == u[0];
    assert StripLeft(v) == v;
  }

  /** Stripping and upper-casing twice is the same as once. */
  lemma NormalizeIdempotent(x: string)
    ensures Upper(Strip(Upper(Strip(x)))) == Upper(Strip(x))
  {
    var t := Strip(x);
    StripLeftUpper(t);
    StripRightUpper(StripLeft(t));
    StripIdempotent(x);
    UpperIdempotent(Strip(t));
  }

  function DigitChar(d: nat): char
    requires d < 10
  {
    ('0' as int + d) as char
  }

  /** The decimal representation of a natural number, as `str(n)` or Rust's `{}` prints it. */
  function NatToString(n: nat): (r: string)
    ensures |r| >= 1
    ensures forall i :: 0 <= i < |r| ==> '0' <= r[i] <= '9'
  {
    if n < 10 then [DigitChar(n)] else NatToString(n / 10) + [DigitChar(n % 10)]
  }

  /** Python's `s.split(sep)` for a one-character separator: the pieces between separators. */
  function Split(s: string, sep: char): (r: seq<string>)
    ensures |r| >= 1
    ensures forall i :: 0 <= i < |r| ==> sep !in r[i]
  {
    if s == [] then [[]]
    else
      var rest := Split(s[1..], sep);
      if s[0] == sep then [[]] + rest
      else [[s[0]] + rest[0]] + rest[1..]
  }

  /** `sep.join(parts)`. */
  function Join(parts: seq<string>, sep: char): string
    requires |parts| >= 1
  {
    if |parts| == 1 then parts[0] else parts[0] + [sep] + Join(parts[1..], sep)
  }

  /** Splitting a joined list of separator-free pieces gives the pieces back. */
  lemma {:induction false} SplitJoin(parts: seq<string>, sep: char)
    requires |parts| >= 1
    requires forall i :: 0 <= i < |parts| ==> sep !in parts[i]
    ensures Split(Join(parts, sep), sep) == parts
    decreases |parts|
  {
    if |parts| == 1 {
      SplitPiece(parts[0], [], sep, false);
    } else {
      SplitJoin(parts[1..], sep);
      SplitPiece(parts[0], Join(parts[1..], sep), sep, true);
      assert [parts[0]] + parts[1..] == parts;
    }
  }

  /** A separator-free piece in front of a separator (or at the end) is the first piece. */
  lemma {:induction false} SplitPiece(p: string, rest: string, sep: char, more: bool)
    requires sep !in p
    requires !more ==> rest == []
    ensures more ==> Split(p + [sep] + rest, sep) == [p] + Split(rest, sep)
    ensures !more ==> Split(p, sep) == [p]
    decreases |p|
  {
    if p != [] {
      SplitPiece(p[1..], rest, sep, more);
      if more {
        var q := p + [sep] + rest;
        assert q[0] == p[0] && q[1..] == p[1..] + [sep] + rest;
      }
      assert [p[0]] + p[1..] == p;
    } else if more {
      assert (p + [sep] + rest)[1..] == rest;
    }
  }
}
