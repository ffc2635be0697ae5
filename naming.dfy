/**
 * The snake_case to camelCase conversion the generic codec uses to derive a
 * JSON key from a dataclass field name (`_to_camel_case`): split on '_', keep
 * the first part and title-case each later part.
 *
 * Only ASCII letters are cased characters here; Python's `str.title` also
 * cases the rest of Unicode.
 */
module Naming {

  predicate IsLower(c: char) { 'a' <= c <= 'z' }
  predicate IsUpper(c: char) { 'A' <= c <= 'Z' }
  predicate IsLetter(c: char) { IsLower(c) || IsUpper(c) }

  function ToUpper(c: char): (r: char)
    ensures IsLower(c) ==> IsUpper(r)
    ensures !IsLower(c) ==> r == c
  {
    if IsLower(c) then (c as int - 32) as char else c
  }

  function ToLower(c: char): (r: char)
    ensures IsUpper(c) ==> IsLower(r)
    ensures !IsUpper(c) ==> r == c
  {
    if IsUpper(c) then (c as int + 32) as char else c
  }

  predicate NoUnderscore(s: string)
  {
    forall i :: 0 <= i < |s| ==> s[i] != '_'
  }

  /** Character `i` of `str.title()`: a letter is upper-cased when it starts a run of letters, lower-cased otherwise. */
  function TitleAt(s: string, i: nat): char
    requires i < |s|
  {
    if !IsLetter(s[i]) then s[i]
    else if i > 0 && IsLetter(s[i - 1]) then ToLower(s[i])
    else ToUpper(s[i])
  }

  /** Python's `str.title()`. */
  function Title(s: string): (r: string)
    ensures |r| == |s|
    ensures forall i :: 0 <= i < |s| ==> r[i] == TitleAt(s, i)
  {
    seq(|s|, i requires 0 <= i < |s| => TitleAt(s, i))
  }

  /** Python's `s.split('_')`: always at least one part, and the parts hold no '_'. */
  function Split(s: string): (parts: seq<string>)
    ensures |parts| >= 1
    ensures forall j :: 0 <= j < |parts| ==> NoUnderscore(parts[j])
  {
    if |s| == 0 then [""]
    else if s[0] == '_' then [""] + Split(s[1..])
    else
      var rest := Split(s[1..]);
      [[s[0]] + rest[0]] + rest[1..]
  }

  /** `'_'.join(parts)`, split into the first part and the '_'-prefixed rest. */
  function JoinTail(parts: seq<string>): string
  {
    if |parts| == 0 then "" else "_" + parts[0] + JoinTail(parts[1..])
  }

  function Join(parts: seq<string>): string
    requires |parts| >= 1
  {
    parts[0] + JoinTail(parts[1..])
  }

  /** `''.join(x.title() for x in parts)`. */
  function TitleAll(parts: seq<string>): string
  {
    if |parts| == 0 then "" else Title(parts[0]) + TitleAll(parts[1..])
  }

  /** `_to_camel_case`. */
  function ToCamelCase(s: string): string
  {
    var parts := Split(s);
    parts[0] + TitleAll(parts[1..])
  }

  // ---------------------------------------------------------------------------
  // Splitting and joining are inverse.

  lemma {:induction false} JoinSplit(s: string)
    ensures Join(Split(s)) == s
    decreases |s|
  {
    if |s| == 0 {
    } else if s[0] == '_' {
      var rest := Split(s[1..]);
      JoinSplit(s[1..]);
      assert Split(s) == [""] + rest;
      assert JoinTail(Split(s)[1..]) == "_" + rest[0] + JoinTail(rest[1..]) by {
        assert Split(s)[1..] == rest;
      }
      assert [s[0]] + s[1..] == s;
    } else {
      var rest := Split(s[1..]);
      JoinSplit(s[1..]);
      var parts := [[s[0]] + rest[0]] + rest[1..];
      assert Split(s) == parts;
      assert parts[1..] == rest[1..];
      assert Join(parts) == [s[0]] + (rest[0] + JoinTail(rest[1..]));
      assert [s[0]] + s[1..] == s;
    }
  }

  lemma {:induction false} SplitSingle(a: string)
    requires NoUnderscore(a)
    ensures Split(a) == [a]
    decreases |a|
  {
    if |a| > 0 {
      SplitSingle(a[1..]);
      assert [a[0]] + a[1..] == a;
    }
  }

  lemma {:induction false} SplitCons(a: string, b: string)
    requires NoUnderscore(a)
    ensures Split(a + "_" + b) == [a] + Split(b)
    decreases |a|
  {
    if |a| == 0 {
      assert a + "_" + b == ['_'] + b;
      assert (['_'] + b)[1..] == b;
    } else {
      assert (a + "_" + b)[0] == a[0];
      assert (a + "_" + b)[1..] == a[1..] + "_" + b;
      SplitCons(a[1..], b);
      assert [a[0]] + a[1..] == a;
    }
  }

  lemma {:induction false} SplitJoinWords(parts: seq<string>)
    requires |parts| >= 1
    requires forall j :: 0 <= j < |parts| ==> NoUnderscore(parts[j])
    ensures Split(Join(parts)) == parts
    decreases |parts|
  {
    if |parts| == 1 {
      assert Join(parts) == parts[0] + "";
      assert parts[0] + "" == parts[0];
      SplitSingle(parts[0]);
    } else {
      var rest := parts[1..];
      assert JoinTail(rest) == "_" + Join(rest);
      assert Join(parts) == parts[0] + "_" + Join(rest);
      SplitCons(parts[0], Join(rest));
      SplitJoinWords(rest);
      assert [parts[0]] + rest == parts;
    }
  }

  // ---------------------------------------------------------------------------
  // Properties of the key derivation.

  /** A name with no '_' is its own camelCase key. */
  lemma CamelCaseIdentity(s: string)
    requires NoUnderscore(s)
    ensures ToCamelCase(s) == s
  {
    SplitSingle(s);
  }

  /** The key of `w0_w1_..._wn` is `w0` unchanged followed by each later word title-cased. */
  lemma CamelCaseOfWords(words: seq<string>)
    requires |words| >= 1
    requires forall j :: 0 <= j < |words| ==> NoUnderscore(words[j])
    ensures ToCamelCase(Join(words)) == words[0] + TitleAll(words[1..])
  {
    SplitJoinWords(words);
  }

  /** The key keeps the text before the first '_' unchanged, as its prefix. */
  lemma CamelCaseKeepsFirstPart(s: string)
    ensures Split(s)[0] <= ToCamelCase(s)
    ensures Split(s)[0] <= s
  {
    JoinSplit(s);
  }

  lemma {:induction false} TitleAllNoUnderscore(parts: seq<string>)
    requires forall j :: 0 <= j < |parts| ==> NoUnderscore(parts[j])
    ensures NoUnderscore(TitleAll(parts))
    decreases |parts|
  {
    if |parts| > 0 {
      TitleAllNoUnderscore(parts[1..]);
      var t := Title(parts[0]);
      assert NoUnderscore(t) by {
        forall i | 0 <= i < |t| ensures t[i] != '_' {
          assert parts[0][i] != '_';
        }
      }
    }
  }

  /** Keys contain no '_'. */
  lemma CamelCaseHasNoUnderscore(s: string)
    ensures NoUnderscore(ToCamelCase(s))
  {
    var parts := Split(s);
    TitleAllNoUnderscore(parts[1..]);
  }

  // ---------------------------------------------------------------------------
  // On snake_case names (lower-case words joined by single '_') the conversion
  // is invertible, so distinct field names get distinct keys.

  predicate IsLowerWord(w: string)
  {
    |w| > 0 && forall i :: 0 <= i < |w| ==> IsLower(w[i])
  }

  /** A snake_case identifier: lower-case letters, single '_' between words, none at the ends. */
  predicate IsSnake(s: string)
  {
    && |s| > 0
    && IsLower(s[0])
    && forall i :: 0 <= i < |s| ==> SnakeCharAt(s, i)
  }

  /** Character `i` is a lower-case letter, or a '_' followed by one. */
  predicate SnakeCharAt(s: string, i: int)
    requires 0 <= i < |s|
  {
    IsLower(s[i]) || (s[i] == '_' && i + 1 < |s| && IsLower(s[i + 1]))
  }

  /** Inverse of the conversion: an upper-case letter becomes '_' and its lower-case form. */
  function SnakeOf(t: string): string
  {
    if |t| == 0 then ""
    else (if IsUpper(t[0]) then "_" + [ToLower(t[0])] else [t[0]]) + SnakeOf(t[1..])
  }

  lemma {:induction false} SnakeOfConcat(a: string, b: string)
    ensures SnakeOf(a + b) == SnakeOf(a) + SnakeOf(b)
    decreases |a|
  {
    if |a| == 0 {
      assert a + b == b;
    } else {
      assert (a + b)[0] == a[0];
      assert (a + b)[1..] == a[1..] + b;
      SnakeOfConcat(a[1..], b);
    }
  }

  lemma {:induction false} SnakeOfLowerWord(w: string)
    requires forall i :: 0 <= i < |w| ==> IsLower(w[i])
    ensures SnakeOf(w) == w
    decreases |w|
  {
    if |w| > 0 {
      SnakeOfLowerWord(w[1..]);
      assert [w[0]] + w[1..] == w;
    }
  }

  lemma SnakeOfTitle(w: string)
    requires IsLowerWord(w)
    ensures SnakeOf(Title(w)) == "_" + w
  {
    var t := Title(w);
    assert t[0] == ToUpper(w[0]);
    assert t[1..] == w[1..] by {
      forall i | 1 <= i < |t| ensures t[i] == w[i] {
        assert IsLetter(w[i - 1]) && IsLower(w[i]);
      }
    }
    assert t == [t[0]] + t[1..];
    SnakeOfLowerWord(w[1..]);
    assert ToLower(ToUpper(w[0])) == w[0];
    assert [w[0]] + w[1..] == w;
  }

  lemma {:induction false} SnakeOfTitleAll(parts: seq<string>)
    requires forall j :: 0 <= j < |parts| ==> IsLowerWord(parts[j])
    ensures SnakeOf(TitleAll(parts)) == JoinTail(parts)
    decreases |parts|
  {
    if |parts| > 0 {
      SnakeOfConcat(Title(parts[0]), TitleAll(parts[1..]));
      SnakeOfTitle(parts[0]);
      SnakeOfTitleAll(parts[1..]);
    }
  }

  lemma SnakeAt(s: string, k: int)
    requires IsSnake(s) && 0 <= k < |s|
    ensures IsLower(s[k]) || (s[k] == '_' && k + 1 < |s| && IsLower(s[k + 1]))
  {
    assert SnakeCharAt(s, k);
  }

  lemma {:induction false} SnakeWords(s: string)
    requires IsSnake(s)
    ensures forall j :: 0 <= j < |Split(s)| ==> IsLowerWord(Split(s)[j])
    decreases |s|
  {
    if |s| == 1 {
      assert Split(s[1..]) == [""];
      assert [s[0]] + "" == [s[0]];
      assert Split(s) == [[s[0]]];
    } else if s[1] != '_' {
      var rest := Split(s[1..]);
      assert IsSnake(s[1..]) by {
        forall i | 0 <= i < |s[1..]|
          ensures SnakeCharAt(s[1..], i)
        {
          assert s[1..][i] == s[i + 1];
          SnakeAt(s, i + 1);
          if i + 1 < |s[1..]| { assert s[1..][i + 1] == s[i + 2]; }
        }
        SnakeAt(s, 1);
      }
      SnakeWords(s[1..]);
      assert IsLowerWord([s[0]] + rest[0]);
      assert Split(s) == [[s[0]] + rest[0]] + rest[1..];
    } else {
      var tail := Split(s[2..]);
      assert IsSnake(s[2..]) by {
        forall i | 0 <= i < |s[2..]|
          ensures SnakeCharAt(s[2..], i)
        {
          assert s[2..][i] == s[i + 2];
          SnakeAt(s, i + 2);
          if i + 1 < |s[2..]| { assert s[2..][i + 1] == s[i + 3]; }
        }
        SnakeAt(s, 1);
      }
      SnakeWords(s[2..]);
      assert s[1..][1..] == s[2..];
      var rest := Split(s[1..]);
      assert rest == [""] + tail;
      assert rest[0] == "" && rest[1..] == tail;
      assert [s[0]] + "" == [s[0]];
      assert Split(s) == [[s[0]]] + tail;
    }
  }

  /** `SnakeOf` undoes `ToCamelCase` on snake_case names. */
  lemma CamelCaseRoundTrip(s: string)
    requires IsSnake(s)
    ensures SnakeOf(ToCamelCase(s)) == s
  {
    var parts := Split(s);
    SnakeWords(s);
    SnakeOfConcat(parts[0], TitleAll(parts[1..]));
    SnakeOfLowerWord(parts[0]);
    SnakeOfTitleAll(parts[1..]);
    JoinSplit(s);
  }

  /** Distinct snake_case field names have distinct keys. */
  lemma CamelCaseInjective(a: string, b: string)
    requires IsSnake(a) && IsSnake(b) && a != b
    ensures ToCamelCase(a) != ToCamelCase(b)
  {
    CamelCaseRoundTrip(a);
    CamelCaseRoundTrip(b);
  }

  /** Outside snake_case names keys can collide: `a__b` and `a_b` both become `aB`. */
  lemma CamelCaseCollision()
    ensures ToCamelCase("a__b") == ToCamelCase("a_b") == "aB"
  {
    SplitCons("a", "_b");
    SplitCons("", "b");
    SplitSingle("b");
    SplitCons("a", "b");
    assert "a__b" == "a" + "_" + "_b";
    assert "_b" == "" + "_" + "b";
    assert "a_b" == "a" + "_" + "b";
    assert Title("b") == "B";
    assert Title("") == "";
  }

  // ---------------------------------------------------------------------------
  // Keys of two- and three-word names.

  /** `str.title()` of a lower-case word upper-cases its first letter only. */
  lemma TitleOfLowerWord(w: string)
    requires IsLowerWord(w)
    ensures Title(w) == [ToUpper(w[0])] + w[1..]
  {
    var t := Title(w);
    assert forall i :: 1 <= i < |w| ==> t[i] == w[i];
  }

  /** The key of `a_b`: `a`, then `b` with its first letter upper-cased. */
  lemma CamelCaseTwo(a: string, b: string)
    requires NoUnderscore(a) && IsLowerWord(b)
    ensures ToCamelCase(a + "_" + b) == a + [ToUpper(b[0])] + b[1..]
  {
    SplitCons(a, b);
    SplitSingle(b);
    var parts := Split(a + "_" + b);
    assert parts == [a, b];
    assert parts[1..] == [b];
    assert TitleAll([b]) == Title(b) + TitleAll([]);
    TitleOfLowerWord(b);
  }

  /** `a_b_c` splits into its three words. */
  lemma SplitThree(a: string, b: string, c: string)
    requires NoUnderscore(a) && NoUnderscore(b) && NoUnderscore(c)
    ensures Split(a + "_" + b + "_" + c) == [a, b, c]
  {
    assert a + "_" + b + "_" + c == a + "_" + (b + "_" + c);
    SplitCons(a, b + "_" + c);
    SplitCons(b, c);
    SplitSingle(c);
  }

  /** Two lower-case words, each with its first letter upper-cased. */
  lemma TitleAllTwo(b: string, c: string)
    requires IsLowerWord(b) && IsLowerWord(c)
    ensures TitleAll([b, c]) == [ToUpper(b[0])] + b[1..] + [ToUpper(c[0])] + c[1..]
  {
    assert [b, c][1..] == [c];
    assert TitleAll([b, c]) == Title(b) + TitleAll([c]);
    assert TitleAll([c]) == Title(c) + TitleAll([]);
    TitleOfLowerWord(b);
    TitleOfLowerWord(c);
  }

  /** The key of `a_b_c`: `a`, then `b` and `c` each with its first letter upper-cased. */
  lemma CamelCaseThree(a: string, b: string, c: string)
    requires NoUnderscore(a) && IsLowerWord(b) && IsLowerWord(c)
    ensures ToCamelCase(a + "_" + b + "_" + c) == a + [ToUpper(b[0])] + b[1..] + [ToUpper(c[0])] + c[1..]
  {
    assert NoUnderscore(b) && NoUnderscore(c);
    SplitThree(a, b, c);
    assert [a, b, c][1..] == [b, c];
    TitleAllTwo(b, c);
  }

}
