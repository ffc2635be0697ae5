/**
 * Python's `int(x)` for the values the legacy `to_dict` hooks pass it: an int
 * (bool and IntEnum members included) is returned as it is, a str is parsed
 * as base-10 text, and anything else raises TypeError.
 */
module PyInts {
  import opened Values

  /** The ASCII whitespace `int()` strips from both ends of its text. */
  predicate IsSpace(c: char)
  {
    c == ' ' || c == '\t' || c == '\n' || c == '\r' || c as int == 11 || c as int == 12
  }

  predicate IsDigitChar(c: char)
  {
    '0' <= c <= '9'
  }

  /** The text without its leading whitespace. */
  function TrimLeft(s: string): (r: string)
    ensures |r| <= |s| && r == s[|s| - |r|..]
    ensures r == [] || !IsSpace(r[0])
    ensures forall i :: 0 <= i < |s| - |r| ==> IsSpace(s[i])
  {
    if s != [] && IsSpace(s[0]) then TrimLeft(s[1..]) else s
  }

  /** The text without its trailing whitespace. */
  function TrimRight(s: string): (r: string)
    ensures |r| <= |s| && r == s[..|r|]
    ensures r == [] || !IsSpace(r[|r| - 1])
    ensures forall i :: |r| <= i < |s| ==> IsSpace(s[i])
  {
    if s != [] && IsSpace(s[|s| - 1]) then TrimRight(s[..|s| - 1]) else s
  }

  /** `s.strip()`, for ASCII whitespace. */
  function Strip(s: string): string
  {
    TrimRight(TrimLeft(s))
  }

  /**
   * The digits of a base-10 literal: at least one digit, starting with one, and
   * each underscore standing alone between two digits.
   */
  predicate DigitGroups(d: string)
  {
    d != [] && IsDigitChar(d[0]) && forall i :: 0 <= i < |d| ==> GroupChar(d, i)
  }

  /** Place `i` of a literal's digits holds a digit, or an underscore followed by a digit. */
  predicate GroupChar(d: string, i: int)
    requires 0 <= i < |d|
  {
    IsDigitChar(d[i]) || (d[i] == '_' && i + 1 < |d| && IsDigitChar(d[i + 1]))
  }

  /** The number the digits of `d` spell, the underscores skipped. */
  function GroupsValue(d: string): nat
  {
    if d == [] then 0
    else if IsDigitChar(d[|d| - 1]) then GroupsValue(d[..|d| - 1]) * 10 + (d[|d| - 1] as int - '0' as int)
    else GroupsValue(d[..|d| - 1])
  }

  /** `int(s)` for a str: the stripped text is an optional sign then digit groups; anything else is None. */
  function IntText(s: string): Option<int>
  {
    LiteralValue(Strip(s))
  }

  /** The value of an int literal without surrounding whitespace, or None. */
  function LiteralValue(t: string): Option<int>
  {
    if t != [] && (t[0] == '+' || t[0] == '-') then
      if DigitGroups(t[1..]) then
        var m: int := GroupsValue(t[1..]);
        Some(if t[0] == '-' then -m else m)
      else None
    else if DigitGroups(t) then Some(GroupsValue(t))
    else None
  }

  /** `int(v)`. */
  function PyInt(v: Value): (r: Result<int>)
    ensures IsPyInt(v) ==> r == Ok(PyIntValue(v))
    ensures v.VStr? ==> (r.Ok? <==> IntText(v.s).Some?) && (r.Err? ==> r.error == ValueError)
    ensures !IsPyInt(v) && !v.VStr? ==> r == Err(TypeError)
  {
    if IsPyInt(v) then Ok(PyIntValue(v))
    else if v.VStr? then
      match IntText(v.s)
      case Some(i) => Ok(i)
      case None => Err(ValueError)
    else Err(TypeError)
  }

  // ---------------------------------------------------------------------------
  // `str(n)` and the round trip.

  /** `str(n)` for a natural number: its decimal digits, most significant first. */
  function DecimalChars(n: nat): (r: string)
    ensures r != [] && forall i :: 0 <= i < |r| ==> IsDigitChar(r[i])
  {
    if n < 10 then ['0' + n as char] else DecimalChars(n / 10) + ['0' + (n % 10) as char]
  }

  /** `str(n)`. */
  function PyStr(n: int): string
  {
    if n < 0 then "-" + DecimalChars(-n) else DecimalChars(n)
  }

  lemma {:induction false} DecimalCharsValue(n: nat)
    ensures DigitGroups(DecimalChars(n)) && GroupsValue(DecimalChars(n)) == n
  {
    var d := DecimalChars(n);
    if n >= 10 {
      DecimalCharsValue(n / 10);
      assert d[..|d| - 1] == DecimalChars(n / 10);
    }
  }

  /** Text that neither starts nor ends with whitespace is its own `strip()`. */
  lemma StripUnspaced(s: string)
    requires s != [] && !IsSpace(s[0]) && !IsSpace(s[|s| - 1])
    ensures Strip(s) == s
  {
  }

  /** `int(str(n)) == n` for every int. */
  lemma IntOfStr(n: int)
    ensures IntText(PyStr(n)) == Some(n)
    ensures PyInt(VStr(PyStr(n))) == Ok(n)
  {
    var s := PyStr(n);
    var d := DecimalChars(if n < 0 then -n else n);
    DecimalCharsValue(if n < 0 then -n else n);
    StripUnspaced(s);
    if n < 0 {
      assert s[1..] == d;
    } else {
      assert s == d && !(s[0] == '+' || s[0] == '-');
    }
  }

  /** `int()` ignores whitespace before the text. */
  lemma IntTextLeadingSpace(c: char, s: string)
    requires IsSpace(c)
    ensures IntText([c] + s) == IntText(s)
  {
    StripPrepend(c, s);
  }

  lemma StripPrepend(c: char, s: string)
    requires IsSpace(c)
    ensures Strip([c] + s) == Strip(s)
  {
    assert ([c] + s)[1..] == s;
  }

  lemma {:induction false} TrimLeftAppend(s: string, c: char)
    requires IsSpace(c)
    ensures TrimLeft(s + [c]) == if TrimLeft(s) == [] then [] else TrimLeft(s) + [c]
  {
    if s != [] && IsSpace(s[0]) {
      assert (s + [c])[1..] == s[1..] + [c];
      TrimLeftAppend(s[1..], c);
    }
  }

  lemma StripAppend(s: string, c: char)
    requires IsSpace(c)
    ensures Strip(s + [c]) == Strip(s)
  {
    TrimLeftAppend(s, c);
    var l := TrimLeft(s);
    if l != [] {
      assert (l + [c])[..|l|] == l;
    }
  }

  /** `int()` ignores whitespace after the text. */
  lemma IntTextTrailingSpace(s: string, c: char)
    requires IsSpace(c)
    ensures IntText(s + [c]) == IntText(s)
  {
    StripAppend(s, c);
  }

  /** A leading `+` is accepted: `int("+" + str(n)) == n`. */
  lemma IntTextPlus(n: nat)
    ensures IntText("+" + DecimalChars(n)) == Some(n)
  {
    var d := DecimalChars(n);
    DecimalCharsValue(n);
    StripUnspaced("+" + d);
    assert ("+" + d)[1..] == d;
  }

  lemma {:induction false} GroupsValueZero(d: string)
    ensures GroupsValue(['0'] + d) == GroupsValue(d)
    decreases |d|
  {
    if d != [] {
      assert (['0'] + d)[..|d|] == ['0'] + d[..|d| - 1];
      GroupsValueZero(d[..|d| - 1]);
    }
  }

  /** Leading zeros are accepted and change nothing: `int("0" + str(n)) == n`. */
  lemma IntTextLeadingZero(n: nat)
    ensures IntText("0" + DecimalChars(n)) == Some(n)
  {
    var d := DecimalChars(n);
    DecimalCharsValue(n);
    GroupsValueZero(d);
    StripUnspaced("0" + d);
    var z := "0" + d;
    forall i | 0 <= i < |z| ensures IsDigitChar(z[i]) {
      if i > 0 {
        assert z[i] == d[i - 1];
      }
    }
  }

  /** Where `s` and the stripped text line up: a character that is not whitespace lies inside it. */
  lemma StripIndex(s: string, i: int) returns (j: int)
    requires 0 <= i < |s| && !IsSpace(s[i])
    ensures 0 <= j < |Strip(s)| && Strip(s)[j] == s[i]
    ensures i + 1 < |s| && !IsSpace(s[i + 1]) ==> j + 1 < |Strip(s)| && Strip(s)[j + 1] == s[i + 1]
    ensures j + 1 < |Strip(s)| ==> i + 1 < |s| && Strip(s)[j + 1] == s[i + 1]
  {
    var l := TrimLeft(s);
    j := i - (|s| - |l|);
  }

  /** Digit groups hold, at every place, a digit or an underscore before a digit. */
  lemma NotGroups(d: string, j: int)
    requires 0 <= j < |d| && !GroupChar(d, j)
    ensures !DigitGroups(d)
  {
  }

  /** A literal whose place `j` is not a digit group's character, and not a leading sign, is no int. */
  lemma LiteralRejects(t: string, j: int)
    requires 0 <= j < |t| && !GroupChar(t, j) && (j == 0 ==> t[0] != '+' && t[0] != '-')
    ensures LiteralValue(t) == None
  {
    if t[0] == '+' || t[0] == '-' {
      var u := t[1..];
      assert u[j - 1] == t[j];
      assert j < |u| ==> u[j] == t[j + 1];
      NotGroups(u, j - 1);
    } else {
      NotGroups(t, j);
    }
  }

  /** A character that is no digit, underscore, sign or whitespace makes `int()` raise ValueError. */
  lemma IntTextRejectsForeign(s: string, i: int)
    requires 0 <= i < |s| && !IsDigitChar(s[i]) && s[i] != '_' && s[i] != '+' && s[i] != '-' && !IsSpace(s[i])
    ensures IntText(s) == None
    ensures PyInt(VStr(s)) == Err(ValueError)
  {
    var j := StripIndex(s, i);
    LiteralRejects(Strip(s), j);
  }

  /** An underscore not followed by a digit (doubled, trailing, or before anything else) raises ValueError. */
  lemma IntTextRejectsUnderscore(s: string, i: int)
    requires 0 <= i < |s| && s[i] == '_' && (i + 1 == |s| || !IsDigitChar(s[i + 1]))
    ensures IntText(s) == None
    ensures PyInt(VStr(s)) == Err(ValueError)
  {
    var j := StripIndex(s, i);
    LiteralRejects(Strip(s), j);
  }

  /** Text that is blank, or only a sign, raises ValueError. */
  lemma IntTextRejectsEmpty(s: string)
    requires Strip(s) in {"", "+", "-"}
    ensures IntText(s) == None
  {
    var t := Strip(s);
    if t != [] {
      assert t[1..] == [];
    }
  }

  /** `int("x")` raises ValueError. */
  lemma IntOfLetter()
    ensures PyInt(VStr("x")) == Err(ValueError)
  {
    IntTextRejectsForeign("x", 0);
  }
}
