/**
 * JSON values as the Python code sees them after `json.loads`: the report index
 * and criterion details are dictionaries of such values. Helpers give Python's
 * `dict.get` with a default, truthiness, `int(...)` and `isinstance` tests.
 */
module Json {
  import opened Wrappers
  import opened Text

  datatype Json =
    | JNull
    | JBool(b: bool)
    | JInt(i: int)
    | JReal(r: real)
    | JStr(s: string)
    | JArr(items: seq<Json>)
    | JObj(fields: map<string, Json>)

  type Dict = map<string, Json>

  /** `d.get(k, default)`. */
  function GetOr(d: Dict, k: string, default: Json): Json {
    if k in d then d[k] else default
  }

  /** `d.get(k)`: a missing key reads as `None`. */
  function Get(d: Dict, k: string): Json {
    GetOr(d, k, JNull)
  }

  /** Python's `bool(v)`. */
  predicate Truthy(v: Json) {
    match v
    case JNull => false
    case JBool(b) => b
    case JInt(i) => i != 0
    case JReal(r) => r != 0.0
    case JStr(s) => s != []
    case JArr(xs) => xs != []
    case JObj(m) => m != map[]
  }

  /**
   * Python's `int(s)` for a string: surrounding blanks, an optional sign,
   * then decimal digits of any script, with single underscores allowed
   * between digits.
   */
  function ParseInt(s: string): Option<int> {
    var t := TrimInt(s);
    if t == [] then None
    else if t[0] == '-' then (match ParseDigits(t[1..]) case Some(n) => Some(0 - n) case None => None)
    else if t[0] == '+' then (match ParseDigits(t[1..]) case Some(n) => Some(n) case None => None)
    else (match ParseDigits(t) case Some(n) => Some(n) case None => None)
  }

  /** The blanks `int()` skips: Python's whitespace except the ASCII separators 0x1C-0x1F. */
  predicate IsIntSpace(c: char) {
    IsSpace(c) && !('\U{1C}' <= c <= '\U{1F}')
  }

  function TrimInt(s: string): (r: string)
    ensures r == [] || (!IsIntSpace(r[0]) && !IsIntSpace(r[|r| - 1]))
    decreases |s|
  {
    if s == [] then []
    else if IsIntSpace(s[0]) then TrimInt(s[1..])
    else if IsIntSpace(s[|s| - 1]) then TrimInt(s[..|s| - 1])
    else s
  }

  /** The code points of the digit zero of each Unicode decimal-digit run (general category Nd), in order. */
  const DecimalZeros: seq<int> := [
    0x30, 0x660, 0x6F0, 0x7C0, 0x966, 0x9E6, 0xA66, 0xAE6, 0xB66, 0xBE6, 0xC66, 0xCE6, 0xD66, 0xDE6,
    0xE50, 0xED0, 0xF20, 0x1040, 0x1090, 0x17E0, 0x1810, 0x1946, 0x19D0, 0x1A80, 0x1A90, 0x1B50,
    0x1BB0, 0x1C40, 0x1C50, 0xA620, 0xA8D0, 0xA900, 0xA9D0, 0xA9F0, 0xAA50, 0xABF0, 0xFF10, 0x104A0,
    0x10D30, 0x11066, 0x110F0, 0x11136, 0x111D0, 0x112F0, 0x11450, 0x114D0, 0x11650, 0x116C0,
    0x11730, 0x118E0, 0x11950, 0x11C50, 0x11D50, 0x11DA0, 0x11F50, 0x16A60, 0x16AC0, 0x16B50,
    0x1D7CE, 0x1D7D8, 0x1D7E2, 0x1D7EC, 0x1D7F6, 0x1E140, 0x1E2F0, 0x1E4F0, 0x1E950, 0x1FBF0]

  /** The value of a decimal digit of any script, found in the runs from position `k` on. */
  function DigitFrom(c: char, k: nat): (r: Option<nat>)
    ensures r.Some? ==> r.value < 10
    decreases |DecimalZeros| - k
  {
    if k >= |DecimalZeros| then None
    else if DecimalZeros[k] <= c as int < DecimalZeros[k] + 10 then Some(c as int - DecimalZeros[k])
    else DigitFrom(c, k + 1)
  }

  /** The value `int()` gives a digit character, or `None` for a character that is no digit (the first run is ASCII's). */
  function DigitValue(c: char): (r: Option<nat>)
    ensures r.Some? ==> r.value < 10
    ensures '0' <= c <= '9' ==> r == Some(c as int - '0' as int)
  {
    if c as int < 0x80 then (if '0' <= c <= '9' then Some(c as int - '0' as int) else None)
    else DigitFrom(c, 1)
  }

  /** Digits with single underscores between them. */
  function ParseDigits(s: string): (r: Option<nat>)
    ensures r.Some? ==> s != [] && DigitValue(s[0]).Some? && DigitValue(s[|s| - 1]).Some?
  {
    DigitsUpTo(s, |s|)
  }

  /** `Some(10 * m + d)` when the digits before the last one read as `m`. */
  function Shifted(m: Option<nat>, d: nat): Option<nat> {
    if m.Some? then Some(10 * m.value + d) else None
  }

  /** The value of the first `k` characters of `s`, read from the right; an underscore must sit between two digits. */
  function DigitsUpTo(s: string, k: nat): (r: Option<nat>)
    requires k <= |s|
    ensures r.Some? ==> k > 0 && DigitValue(s[0]).Some? && DigitValue(s[k - 1]).Some?
  {
    if k == 0 then None
    else
      var d := DigitValue(s[k - 1]);
      if d.None? then None
      else if k == 1 then d
      else if s[k - 2] == '_' then Shifted(DigitsUpTo(s, k - 2), d.value)
      else Shifted(DigitsUpTo(s, k - 1), d.value)
  }

  /** `int(str(n)) == n`: reading a rendered natural gives it back. */
  lemma {:induction false} ParseIntRoundTrip(n: nat)
    ensures ParseInt(NatToString(n)) == Some(n)
  {
    var s := NatToString(n);
    assert TrimInt(s) == s;
    DigitsRoundTrip(n);
  }

  lemma {:induction false} DigitsRoundTrip(n: nat)
    ensures ParseDigits(NatToString(n)) == Some(n)
    decreases n
  {
    var d := n % 10;
    DigitCharValue(d);
    if n >= 10 {
      var init := NatToString(n / 10);
      assert NatToString(n) == init + [DigitChar(d)];
      assert '0' <= init[|init| - 1] <= '9';
      DigitsRoundTrip(n / 10);
      ParseDigitsSnoc(init, DigitChar(d), d);
      assert n == 10 * (n / 10) + d;
    } else {
      assert NatToString(n) == [DigitChar(d)];
    }
  }

  /** A digit after text ending in a digit: ten times the text's value plus the digit. */
  lemma ParseDigitsSnoc(init: string, c: char, d: nat)
    requires init != [] && init[|init| - 1] != '_' && DigitValue(c) == Some(d)
    ensures ParseDigits(init + [c]) == Shifted(ParseDigits(init), d)
  {
    var s := init + [c];
    assert s[..|init|] == init[..|init|];
    UpToSame(s, init, |init|);
  }

  /** The first `k` characters alone decide the value read from them. */
  lemma {:induction false} UpToSame(s: string, t: string, k: nat)
    requires k <= |s| && k <= |t| && s[..k] == t[..k]
    ensures DigitsUpTo(s, k) == DigitsUpTo(t, k)
  {
    if k > 0 {
      assert s[k - 1] == s[..k][k - 1] && t[k - 1] == t[..k][k - 1];
      if k >= 2 {
        assert s[k - 2] == s[..k][k - 2] && t[k - 2] == t[..k][k - 2];
        assert s[..k - 1] == s[..k][..k - 1] && t[..k - 1] == t[..k][..k - 1];
        UpToSame(s, t, k - 1);
        assert s[..k - 2] == s[..k][..k - 2] && t[..k - 2] == t[..k][..k - 2];
        UpToSame(s, t, k - 2);
      }
    }
  }

  lemma DigitCharValue(d: nat)
    requires d < 10
    ensures DigitValue(DigitChar(d)) == Some(d)
  {
    assert DigitChar(d) as int == '0' as int + d;
  }

  /** Examples: underscores group digits; a doubled, leading or trailing one makes the text no number. */
  lemma UnderscoreRules()
    ensures ParseInt("1_000") == Some(1000)
    ensures ParseInt("1__0") == None && ParseInt("_1") == None && ParseInt("1_") == None
  {
    var s := "1_000";
    assert TrimInt(s) == s;
    assert DigitsUpTo(s, 1) == Some(1);
    assert DigitsUpTo(s, 3) == Some(10);
    assert DigitsUpTo(s, 4) == Some(100);
    assert DigitsUpTo(s, 5) == Some(1000);
    assert DigitsUpTo("1__0", 2) == None;
    assert DigitsUpTo("_1", 0) == None;
  }

  /** Truncation toward zero, as Python's `int(x)` of a float. */
  function TruncReal(r: real): int {
    if r >= 0.0 then r.Floor else -((-r).Floor)
  }

  /** Python's `int(v)`; `None` where Python raises `TypeError`/`ValueError`. */
  function PyInt(v: Json): Option<int> {
    match v
    case JBool(b) => Some(if b then 1 else 0)
    case JInt(i) => Some(i)
    case JReal(r) => Some(TruncReal(r))
    case JStr(s) => ParseInt(s)
    case _ => None
  }

  /** The numeric value of a number or a bool (Python treats `True` as 1). */
  function PyNumber(v: Json): Option<real> {
    match v
    case JBool(b) => Some(if b then 1.0 else 0.0)
    case JInt(i) => Some(i as real)
    case JReal(r) => Some(r)
    case _ => None
  }

  /** Python's `==` between JSON values: numbers and bools by numeric value, the rest structurally. */
  predicate PyEq(a: Json, b: Json) {
    if PyNumber(a).Some? && PyNumber(b).Some? then PyNumber(a).value == PyNumber(b).value
    else a == b
  }
}
