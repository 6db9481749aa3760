/**
 * The environment the activation code reads. Every `os.environ.get` of the
 * activation modules becomes a field of `Env`; integer and switch settings
 * keep their raw text, float settings are given as the outcome of Python's
 * `float(...)` on that text. The helpers below are the parsing idioms the
 * modules share.
 */
module ActivationEnv {
  import opened Wrappers
  import opened Text
  import opened Json
  import opened Sorting

  /** What `float(os.environ.get(name, default))` gives. */
  datatype FloatEnv =
    | Unset          // variable not set: the default text is parsed
    | Unparsable     // `float` raises `ValueError`
    | Float(x: real) // the parsed value

  datatype Env = Env(
    killSwitch: Option<string>,     // ACTIVATION_KILL_SWITCH
    enabled: Option<string>,        // ACTIVATION_ENABLED
    mode: Option<string>,           // ACTIVATION_MODE
    tier: Option<string>,           // ACTIVATION_TIER
    liveWrites: Option<string>,     // LIVE_WRITES_ALLOWED
    liveIoAllowed: bool,            // what `live_io_allowed()` answers
    connectors: Option<string>,     // ACTIVATION_CONNECTORS
    markets: Option<string>,        // ACTIVATION_MARKETS
    maxMatches: Option<string>,     // ACTIVATION_MAX_MATCHES
    minConfidence: FloatEnv,        // ACTIVATION_MIN_CONFIDENCE
    minConfidenceBurnIn: FloatEnv,  // ACTIVATION_MIN_CONFIDENCE_BURN_IN
    rolloutPct: FloatEnv,           // ACTIVATION_ROLLOUT_PCT
    dailyMax: Option<string>)       // ACTIVATION_DAILY_MAX_ACTIVATIONS

  /** A float setting whose default text and `ValueError` fallback are both `default`. */
  function FloatOr(e: FloatEnv, default: real): (r: real)
    ensures e.Float? ==> r == e.x
    ensures !e.Float? ==> r == default
  {
    if e.Float? then e.x else default
  }

  /**
   * `int(os.environ.get(name, str(default)))`; `None` where `int` raises
   * `ValueError`: an unset variable gives the default, the decimal digits
   * of a number give that number, and only a set variable can fail.
   */
  function IntEnv(raw: Option<string>, default: int): (r: Option<int>)
    ensures raw.None? ==> r == Some(default)
    ensures forall n: nat :: raw == Some(NatToString(n)) ==> r == Some(n)
    ensures r.None? ==> raw.Some?
  {
    NatsParse();
    match raw
    case None => Some(default)
    case Some(s) => ParseInt(s)
  }

  /** Every decimal text of a natural number parses back to it. */
  lemma NatsParse()
    ensures forall n: nat :: ParseInt(NatToString(n)) == Some(n)
  {
    forall n: nat ensures ParseInt(NatToString(n)) == Some(n) {
      ParseIntRoundTrip(n);
    }
  }

  /**
   * `os.environ.get(name, "").strip().lower()`: empty when unset, no blanks
   * at either end, no ASCII capital left, and never longer than the raw text.
   */
  function Setting(raw: Option<string>): (r: string)
    ensures raw.None? ==> r == ""
    ensures r == [] || (!IsSpace(r[0]) && !IsSpace(r[|r| - 1]))
    ensures forall i :: 0 <= i < |r| ==> !('A' <= r[i] <= 'Z')
    ensures |r| <= |raw.GetOr("")|
  {
    var t := Strip(raw.GetOr(""));
    LowerKeepsEnds(t);
    Lower(t)
  }

  /** Lower-casing leaves no ASCII capital and keeps blanks and non-blanks at the ends. */
  lemma LowerKeepsEnds(t: string)
    ensures forall i :: 0 <= i < |t| ==> !('A' <= Lower(t)[i] <= 'Z')
    ensures t != [] ==> (IsSpace(Lower(t)[0]) <==> IsSpace(t[0])) && (IsSpace(Lower(t)[|t| - 1]) <==> IsSpace(t[|t| - 1]))
  {
    forall i | 0 <= i < |t| ensures !('A' <= Lower(t)[i] <= 'Z') && (IsSpace(Lower(t)[i]) <==> IsSpace(t[i])) {
      LowerCharFacts(t[i]);
    }
  }

  lemma LowerCharFacts(c: char)
    ensures !('A' <= LowerChar(c) <= 'Z')
    ensures IsSpace(LowerChar(c)) <==> IsSpace(c)
  {
  }

  /** A setting already stripped and in lower case reads as it is. */
  lemma SettingOfWord(w: string)
    requires w == [] || (!IsSpace(w[0]) && !IsSpace(w[|w| - 1]))
    requires forall i :: 0 <= i < |w| ==> LowerChar(w[i]) == w[i]
    ensures Setting(Some(w)) == w
  {
    StripUnpadded(w);
    assert Lower(w) == w;
  }

  /** A switch: on for `1`, `true` or `yes`, ignoring case and surrounding blanks; off when unset. */
  predicate Flag(raw: Option<string>): (b: bool)
    ensures raw.None? ==> !b
    ensures b ==> raw.Some? && (|Setting(raw)| == 1 || |Setting(raw)| == 3 || |Setting(raw)| == 4)
  {
    Setting(raw) in {"1", "true", "yes"}
  }

  lemma FlagWordLength(t: string)
    ensures t in {"1", "true", "yes"} ==> |t| == 1 || |t| == 3 || |t| == 4
  {
  }

  /** Blanks around a word do not matter: a padded word sets a switch exactly as the bare word does. */
  lemma FlagIgnoresPadding(c: char, w: string, d: char)
    requires IsSpace(c) && IsSpace(d) && w != [] && !IsSpace(w[0]) && !IsSpace(w[|w| - 1])
    ensures Flag(Some([c] + w + [d])) == Flag(Some(w))
  {
    StripPadded(c, w, d);
    StripUnpadded(w);
  }

  /** Case does not matter: unpadded text sets a switch exactly when its lower case is one of the three words. */
  lemma FlagUnpadded(w: string)
    requires w == [] || (!IsSpace(w[0]) && !IsSpace(w[|w| - 1]))
    ensures Flag(Some(w)) <==> Lower(w) in {"1", "true", "yes"}
  {
    StripUnpadded(w);
  }

  /** Example: case and surrounding blanks do not matter, so " TRUE " turns a switch on. */
  lemma FlagIgnoresCase()
    ensures Flag(Some(" TRUE "))
  {
    assert " TRUE " == [' '] + "TRUE" + [' '];
    StripPadded(' ', "TRUE", ' ');
    assert Lower("TRUE") == "true";
  }

  /** Examples of `SwitchOffBySize`: "false" and "on" leave a switch off, and so does an unset variable. */
  lemma FlagRejectsOthers()
    ensures !Flag(Some("false")) && !Flag(Some("on")) && !Flag(None)
  {
    SwitchOffBySize("false");
    SwitchOffBySize("on");
  }

  /** Unpadded text of another length than the three words leaves a switch off. */
  lemma SwitchOffBySize(s: string)
    requires s != [] && !IsSpace(s[0]) && !IsSpace(s[|s| - 1])
    requires |s| != 1 && |s| != 3 && |s| != 4
    ensures !Flag(Some(s))
  {
    StripUnpadded(s);
    FlagWordLength(Lower(s));
  }

  /** `{c.strip() for c in s.split(",") if c.strip()}`. */
  function CommaSet(s: string): set<string> {
    NamesIn(Split(s, ','))
  }

  /** The non-blank pieces, stripped. */
  function NamesIn(pieces: seq<string>): (r: set<string>)
    ensures forall x :: x in r ==> Trimmed(x)
  {
    if pieces == [] then {}
    else (if Strip(pieces[0]) != [] then {Strip(pieces[0])} else {}) + NamesIn(pieces[1..])
  }

  /** A comma-separated whitelist: the listed names, or `default` when the setting is blank. */
  function Whitelist(raw: Option<string>, default: set<string>): (r: set<string>)
    ensures Strip(raw.GetOr("")) == [] ==> r == default
    ensures Strip(raw.GetOr("")) != [] ==> forall x :: x in r ==> Trimmed(x)
  {
    var s := Strip(raw.GetOr(""));
    if s != [] then CommaSet(s) else default
  }

  /** A setting holding one trimmed name without commas whitelists exactly that name. */
  lemma WhitelistOfOne(name: string, default: set<string>)
    requires Trimmed(name) && ',' !in name
    ensures Whitelist(Some(name), default) == {name}
  {
    WhitelistOfNames([name], default);
    assert Join([name], ',') == name;
    assert Elems([name]) == {name};
  }

  /** A name `strip` leaves alone. */
  predicate Trimmed(name: string) {
    name != [] && !IsSpace(name[0]) && !IsSpace(name[|name| - 1])
  }

  /** Writing names joined by commas into the setting gives exactly those names. */
  lemma WhitelistOfNames(names: seq<string>, default: set<string>)
    requires |names| >= 1
    requires forall i :: 0 <= i < |names| ==> Trimmed(names[i]) && ',' !in names[i]
    ensures Whitelist(Some(Join(names, ',')), default) == Elems(names)
  {
    var s := Join(names, ',');
    JoinEnds(names, ',');
    StripTrimmed(s);
    SplitJoin(names, ',');
    CommaSetOfPieces(names);
  }

  lemma StripTrimmed(name: string)
    requires Trimmed(name)
    ensures Strip(name) == name
  {
    assert StripLeft(name) == name;
  }

  lemma {:induction false} CommaSetOfPieces(names: seq<string>)
    requires forall i :: 0 <= i < |names| ==> Trimmed(names[i])
    ensures NamesIn(names) == Elems(names)
    decreases |names|
  {
    if names != [] {
      var head, tail := names[0], names[1..];
      StripTrimmed(head);
      assert NamesIn(names) == {head} + NamesIn(tail);
      assert forall i :: 0 <= i < |tail| ==> Trimmed(tail[i]) by {
        forall i | 0 <= i < |tail| ensures Trimmed(tail[i]) { assert tail[i] == names[i + 1]; }
      }
      CommaSetOfPieces(tail);
      forall x ensures x in Elems(names) <==> x == head || x in Elems(tail) {
        assert x in names <==> x == head || x in tail;
      }
    }
  }

  lemma {:induction false} JoinEnds(parts: seq<string>, sep: char)
    requires |parts| >= 1
    requires forall i :: 0 <= i < |parts| ==> Trimmed(parts[i])
    ensures Trimmed(Join(parts, sep))
    decreases |parts|
  {
    if |parts| > 1 {
      JoinEnds(parts[1..], sep);
    }
  }
}
