/** The JavaScript string operations the pages rely on (trim, toLowerCase,
    includes, split, join, length, number-to-text), stated over Dafny strings,
    and the "<n> <noun>s" label two pages render. */
module Text {

  /** The characters String.prototype.trim removes: ECMAScript's WhiteSpace
      (tab, vertical tab, form feed, the no-break space, the byte order mark
      and every space separator) and its LineTerminator characters. */
  predicate IsWhitespace(c: char)
  {
    c == '\t' || c == '\n' || c == '\U{000B}' || c == '\U{000C}' || c == '\r' ||
    c == ' ' || c == '\U{00A0}' || c == '\U{1680}' || ('\U{2000}' <= c <= '\U{200A}') ||
    c == '\U{2028}' || c == '\U{2029}' || c == '\U{202F}' || c == '\U{205F}' ||
    c == '\U{3000}' || c == '\U{FEFF}'
  }

  /** Every character of `s` is whitespace (the empty string included). */
  predicate IsBlank(s: string)
  {
    forall i :: 0 <= i < |s| ==> IsWhitespace(s[i])
  }

  /** Leading whitespace removed. */
  function TrimStart(s: string): (r: string)
    ensures |r| <= |s| && r == s[|s| - |r|..]
    ensures IsBlank(s[..|s| - |r|])
    ensures r == [] || !IsWhitespace(r[0])
  {
    if s != [] && IsWhitespace(s[0]) then
      var r := TrimStart(s[1..]);
      TrimStartStep(s, r);
      r
    else
      s
  }

  /** Trailing whitespace removed. */
  function TrimEnd(s: string): (r: string)
    ensures |r| <= |s| && r == s[..|r|]
    ensures IsBlank(s[|r|..])
    ensures r == [] || !IsWhitespace(r[|r| - 1])
  {
    if s != [] && IsWhitespace(s[|s| - 1]) then
      var r := TrimEnd(s[..|s| - 1]);
      TrimEndStep(s, r);
      r
    else
      s
  }

  /** Two blank strings put together are blank. */
  lemma BlankConcat(a: string, b: string)
    requires IsBlank(a) && IsBlank(b)
    ensures IsBlank(a + b)
  {
    forall i | 0 <= i < |a + b|
      ensures IsWhitespace((a + b)[i])
    {
      if i >= |a| {
        assert (a + b)[i] == b[i - |a|];
      }
    }
  }

  /** A suffix of `s[1..]` with only whitespace before it is also such a
      suffix of `s` when `s` starts with whitespace. */
  lemma TrimStartStep(s: string, r: string)
    requires s != [] && IsWhitespace(s[0])
    requires |r| <= |s| - 1 && r == s[1..][|s| - 1 - |r|..] && IsBlank(s[1..][..|s| - 1 - |r|])
    ensures r == s[|s| - |r|..] && IsBlank(s[..|s| - |r|])
  {
    assert s[1..][..|s| - 1 - |r|] == s[1..|s| - |r|];
    BlankConcat([s[0]], s[1..|s| - |r|]);
    assert s[..|s| - |r|] == [s[0]] + s[1..|s| - |r|];
  }

  /** A prefix of `s[..|s| - 1]` with only whitespace after it is also such
      a prefix of `s` when `s` ends with whitespace. */
  lemma TrimEndStep(s: string, r: string)
    requires s != [] && IsWhitespace(s[|s| - 1])
    requires |r| <= |s| - 1 && r == s[..|s| - 1][..|r|] && IsBlank(s[..|s| - 1][|r|..])
    ensures r == s[..|r|] && IsBlank(s[|r|..])
  {
    assert s[..|s| - 1][|r|..] == s[|r|..|s| - 1];
    BlankConcat(s[|r|..|s| - 1], [s[|s| - 1]]);
    assert s[|r|..] == s[|r|..|s| - 1] + [s[|s| - 1]];
  }

  /** `r` is the slice of `s` at `k`, with only whitespace before and after. */
  predicate TrimsTo(s: string, r: string, k: int)
  {
    0 <= k && k + |r| <= |s| && r == s[k..k + |r|] && IsBlank(s[..k]) && IsBlank(s[k + |r|..])
  }

  /** String.prototype.trim: the input with its leading and trailing
      whitespace cut off. The result is empty exactly when the input is
      blank, which is what `!s.trim()` tests. */
  function Trim(s: string): (r: string)
    ensures exists k :: TrimsTo(s, r, k)
    ensures r == [] <==> IsBlank(s)
    ensures r != [] ==> !IsWhitespace(r[0]) && !IsWhitespace(r[|r| - 1])
  {
    var r := TrimEnd(TrimStart(s));
    TrimWitness(s);
    BlankIffTrimsToEmpty(s, r, |s| - |TrimStart(s)|);
    r
  }

  /** When `s` trims to `r` and `r` does not start with whitespace, `r` is
      empty exactly when all of `s` is whitespace. */
  lemma BlankIffTrimsToEmpty(s: string, r: string, k: int)
    requires TrimsTo(s, r, k)
    requires r != [] ==> !IsWhitespace(r[0])
    ensures r == [] <==> IsBlank(s)
  {
    if r == [] {
      forall i | 0 <= i < |s|
        ensures IsWhitespace(s[i])
      {
        if i < k {
          assert s[i] == s[..k][i];
        } else {
          assert s[i] == s[k..][i - k];
        }
      }
    } else {
      assert s[k] == r[0];
    }
  }

  /** Trimming the start and then the end cuts `s` at a slice with only
      whitespace around it. */
  lemma TrimWitness(s: string)
    ensures TrimsTo(s, TrimEnd(TrimStart(s)), |s| - |TrimStart(s)|)
  {
    var t := TrimStart(s);
    SliceOfSuffix(s, |s| - |t|, TrimEnd(t));
  }

  /** A prefix of the suffix at `k`, with only whitespace before `k` and after
      the prefix, is a slice `s` trims to. */
  lemma SliceOfSuffix(s: string, k: nat, r: string)
    requires k <= |s| && |r| <= |s| - k && r == s[k..][..|r|]
    requires IsBlank(s[..k]) && IsBlank(s[k..][|r|..])
    ensures TrimsTo(s, r, k)
  {
    assert s[k..][..|r|] == s[k..k + |r|];
    assert s[k..][|r|..] == s[k + |r|..];
  }

  /** String.prototype.length: the number of UTF-16 code units, two for a
      character outside the Basic Multilingual Plane. */
  function Utf16Length(s: string): (n: nat)
    ensures |s| <= n <= 2 * |s|
    ensures |s| == 1 ==> (n == 2 <==> s[0] as int >= 0x1_0000)
  {
    if s == [] then 0
    else (if s[0] as int >= 0x1_0000 then 2 else 1) + Utf16Length(s[1..])
  }

  /** The code units of two strings put together are those of each. */
  lemma {:induction false} Utf16LengthAppend(s: string, t: string)
    ensures Utf16Length(s + t) == Utf16Length(s) + Utf16Length(t)
  {
    if s == [] {
      assert s + t == t;
    } else {
      Utf16LengthAppend(s[1..], t);
      assert (s + t)[1..] == s[1..] + t;
    }
  }

  /** The code-unit count equals the character count exactly when no
      character lies outside the Basic Multilingual Plane. */
  lemma {:induction false} Utf16LengthIsLength(s: string)
    ensures Utf16Length(s) == |s| <==> forall i :: 0 <= i < |s| ==> s[i] as int < 0x1_0000
  {
    if s != [] {
      Utf16LengthIsLength(s[1..]);
      assert forall i :: 1 <= i < |s| ==> s[i] == s[1..][i - 1];
    }
  }

  /** The lower-casing applied to one character: A-Z map to a-z. */
  function LowerChar(c: char): char
  {
    if 'A' <= c <= 'Z' then (c as int + 32) as char else c
  }

  /** String.prototype.toLowerCase, restricted to the ASCII letters. */
  function ToLower(s: string): (r: string)
    ensures |r| == |s|
    ensures forall i :: 0 <= i < |s| ==> r[i] == LowerChar(s[i])
  {
    if s == [] then [] else [LowerChar(s[0])] + ToLower(s[1..])
  }

  /** String.prototype.includes: `q` occurs in `s` at some position. */
  predicate Includes(s: string, q: string)
    ensures Includes(s, q) ==> |q| <= |s|
  {
    exists i :: 0 <= i <= |s| && OccursAt(s, q, i)
  }

  /** `q` occurs in `s` starting at index `i`. */
  predicate OccursAt(s: string, q: string, i: int)
  {
    0 <= i && i + |q| <= |s| && s[i..i + |q|] == q
  }

  /** Every string includes the empty string, so an empty search matches. */
  lemma IncludesEmpty(s: string)
    ensures Includes(s, [])
  {
    assert OccursAt(s, [], 0);
  }

  /** String.prototype.split with a one-character separator: the pieces
      between separators, empty pieces kept, and [""] for the empty string. */
  function Split(s: string, sep: char): (words: seq<string>)
    ensures |words| >= 1
    ensures forall w :: w in words ==> sep !in w
  {
    if s == [] then [[]]
    else
      var rest := Split(s[1..], sep);
      if s[0] == sep then [[]] + rest
      else [[s[0]] + rest[0]] + rest[1..]
  }

  /** The number of characters in all the words together. */
  function TotalLength(words: seq<string>): nat
  {
    if words == [] then 0 else |words[0]| + TotalLength(words[1..])
  }

  /** Array.prototype.join: the words with `sep` between neighbours, so the
      first word comes first and the length is that of the words plus one
      separator per gap. */
  function Join(words: seq<string>, sep: string): (r: string)
    ensures words == [] ==> r == []
    ensures words != [] ==> |r| == TotalLength(words) + (|words| - 1) * |sep|
    ensures words != [] ==> |words[0]| <= |r| && r[..|words[0]|] == words[0]
  {
    if words == [] then []
    else if |words| == 1 then words[0]
    else
      var r := words[0] + sep + Join(words[1..], sep);
      assert r[..|words[0]|] == words[0];
      r
  }

  /** Joining the pieces of a split with the same separator gives back the
      original string. */
  lemma {:induction false} JoinSplit(s: string, sep: char)
    ensures Join(Split(s, sep), [sep]) == s
  {
    if s != [] {
      var rest := Split(s[1..], sep);
      JoinSplit(s[1..], sep);
      if s[0] == sep {
        JoinCons([], rest, [sep]);
        assert s == [sep] + s[1..];
      } else {
        assert rest == [rest[0]] + rest[1..];
        JoinCons(rest[0], rest[1..], [sep]);
        JoinCons([s[0]] + rest[0], rest[1..], [sep]);
        assert s == [s[0]] + s[1..];
      }
    }
  }

  /** Joining a word in front of more words puts the separator between it
      and their join. */
  lemma JoinCons(w: string, rest: seq<string>, sep: string)
    ensures Join([w] + rest, sep) == if rest == [] then w else w + sep + Join(rest, sep)
  {
    assert ([w] + rest)[1..] == rest;
  }

  /** The digit character for 0..9. */
  function DigitChar(d: nat): (c: char)
    requires d < 10
    ensures '0' <= c <= '9' && c as int - '0' as int == d
  {
    (d + '0' as int) as char
  }

  predicate IsDigits(s: string)
  {
    forall i :: 0 <= i < |s| ==> '0' <= s[i] <= '9'
  }

  /** The decimal text JavaScript renders for a non-negative integer. */
  function NatToDecimal(n: nat): (r: string)
    ensures r != [] && IsDigits(r)
    ensures r[0] == '0' <==> n == 0
    ensures n == 0 ==> r == "0"
  {
    if n < 10 then [DigitChar(n)] else NatToDecimal(n / 10) + [DigitChar(n % 10)]
  }

  /** The decimal text JavaScript renders for an integer: a minus sign for a
      negative number, then the digits of its magnitude. */
  function IntToDecimal(n: int): (r: string)
    ensures r != []
    ensures r[0] == '-' <==> n < 0
    ensures n < 0 ==> r[1..] == NatToDecimal(-n)
    ensures n >= 0 ==> r == NatToDecimal(n)
  {
    if n < 0 then "-" + NatToDecimal(-n) else NatToDecimal(n)
  }

  /** Reading decimal digits back as a number. */
  function ParseDigits(s: string): nat
    requires IsDigits(s)
  {
    if s == [] then 0 else 10 * ParseDigits(s[..|s| - 1]) + (s[|s| - 1] as int - '0' as int)
  }

  /** The decimal text of a number reads back as that number. */
  lemma {:induction false} ParseNatToDecimal(n: nat)
    ensures ParseDigits(NatToDecimal(n)) == n
  {
    if n >= 10 {
      ParseNatToDecimal(n / 10);
      var r := NatToDecimal(n);
      assert r[..|r| - 1] == NatToDecimal(n / 10);
    }
  }

  /** Text of the shape JavaScript renders for an integer: digits, with a
      leading minus sign or without. */
  predicate IsIntText(s: string)
  {
    if s != [] && s[0] == '-' then IsDigits(s[1..]) else IsDigits(s)
  }

  /** Reading integer text back as a number. */
  function ParseInt(s: string): int
    requires IsIntText(s)
  {
    if s != [] && s[0] == '-' then 0 - ParseDigits(s[1..]) as int else ParseDigits(s)
  }

  /** The text of an integer reads back as that integer. */
  lemma {:induction false} ParseIntToDecimal(n: int)
    ensures IsIntText(IntToDecimal(n))
    ensures ParseInt(IntToDecimal(n)) == n
  {
    if n < 0 {
      ParseNatToDecimal(-n);
    } else {
      ParseNatToDecimal(n);
    }
  }

  /** `{n} {noun}{n !== 1 ? 's' : ''}` as the pages render it. */
  function CountLabel(n: int, noun: string): (r: string)
    requires noun != [] && noun[|noun| - 1] != 's'
    ensures |r| == |IntToDecimal(n)| + 1 + |noun| + (if n != 1 then 1 else 0)
    ensures r[..|IntToDecimal(n)| + 1] == IntToDecimal(n) + " "
    ensures r[|IntToDecimal(n)| + 1..|IntToDecimal(n)| + 1 + |noun|] == noun
    ensures r[|r| - 1] == 's' <==> n != 1
  {
    var r := IntToDecimal(n) + " " + noun + (if n != 1 then "s" else "");
    assert r[..|IntToDecimal(n)| + 1] == IntToDecimal(n) + " ";
    assert r[|IntToDecimal(n)| + 1..|IntToDecimal(n)| + 1 + |noun|] == noun;
    r
  }
}
