/**
 * String operations of the Java standard library that the agent relies on:
 * `String.isBlank`, `String.split`, `Collectors.joining`, `Long.toString` and
 * `String.equalsIgnoreCase` against a lower-case ASCII literal.
 */
module Text {
  import opened Wrappers

  /** `Character.isWhitespace`: the Unicode space, line and paragraph separators
      other than the three no-break spaces, plus the ASCII controls TAB..CR and FS..US. */
  predicate IsWhitespace(c: char) {
    || c == ' ' || ('\t' <= c <= '\r') || ('\U{1C}' <= c <= '\U{1F}')
    || c == '\U{1680}' || ('\U{2000}' <= c <= '\U{2006}') || ('\U{2008}' <= c <= '\U{200A}')
    || c == '\U{2028}' || c == '\U{2029}' || c == '\U{205F}' || c == '\U{3000}'
  }

  /** `String.isBlank`: empty, or whitespace only. */
  predicate IsBlank(s: string) {
    forall i | 0 <= i < |s| :: IsWhitespace(s[i])
  }

  // ---------------------------------------------------------------------------
  // Joining and splitting on a single separator character
  // ---------------------------------------------------------------------------

  /** `Collectors.joining(sep)`: the parts in order with `sep` between neighbours. */
  function Join(parts: seq<string>, sep: char): string
  {
    if |parts| == 0 then ""
    else if |parts| == 1 then parts[0]
    else parts[0] + [sep] + Join(parts[1..], sep)
  }

  /** Every piece between two separators, empty pieces included. */
  function Split(s: string, sep: char): (r: seq<string>)
    ensures |r| > 0
    ensures forall i | 0 <= i < |r| :: sep !in r[i]
  {
    if |s| == 0 then [""]
    else if s[0] == sep then [""] + Split(s[1..], sep)
    else
      var rest := Split(s[1..], sep);
      [[s[0]] + rest[0]] + rest[1..]
  }

  /** A piece free of the separator splits to itself. */
  lemma {:induction false} SplitAtom(a: string, sep: char)
    requires sep !in a
    ensures Split(a, sep) == [a]
  {
    if |a| > 0 {
      SplitAtom(a[1..], sep);
      assert a[0] != sep;
      assert [a[0]] + a[1..] == a;
    }
  }

  /** Splitting `a ++ sep ++ b` yields `a` followed by the pieces of `b`. */
  lemma {:induction false} SplitCons(a: string, b: string, sep: char)
    requires sep !in a
    ensures Split(a + [sep] + b, sep) == [a] + Split(b, sep)
  {
    if |a| == 0 {
      assert a + [sep] + b == [sep] + b;
      assert ([sep] + b)[1..] == b;
    } else {
      SplitCons(a[1..], b, sep);
      assert (a + [sep] + b)[1..] == a[1..] + [sep] + b;
      assert [a[0]] + a[1..] == a;
    }
  }

  /** Splitting undoes joining whenever no part contains the separator. */
  lemma {:induction false} SplitJoin(parts: seq<string>, sep: char)
    requires |parts| > 0
    requires forall i | 0 <= i < |parts| :: sep !in parts[i]
    ensures Split(Join(parts, sep), sep) == parts
  {
    if |parts| == 1 {
      SplitAtom(parts[0], sep);
    } else {
      SplitJoin(parts[1..], sep);
      SplitCons(parts[0], Join(parts[1..], sep), sep);
      assert [parts[0]] + parts[1..] == parts;
    }
  }

  /** Joining undoes splitting: no character of the input is lost or added. */
  lemma {:induction false} JoinSplit(s: string, sep: char)
    ensures Join(Split(s, sep), sep) == s
  {
    if |s| > 0 {
      JoinSplit(s[1..], sep);
      var rest := Split(s[1..], sep);
      if s[0] == sep {
        assert ([""] + rest)[1..] == rest;
      } else {
        var r := [[s[0]] + rest[0]] + rest[1..];
        if |rest| > 1 {
          assert r[1..] == rest[1..];
          assert Join(rest, sep) == rest[0] + [sep] + Join(rest[1..], sep);
        }
      }
    }
  }

  /** Appending one more part adds a separator and that part (or just the
      part, when there was nothing before it). */
  lemma {:induction false} JoinSnoc(parts: seq<string>, x: string, sep: char)
    ensures Join(parts + [x], sep) == if |parts| == 0 then x else Join(parts, sep) + [sep] + x
    decreases |parts|
  {
    if |parts| == 1 {
      assert (parts + [x])[1..] == [x];
    } else if |parts| > 1 {
      assert (parts + [x])[1..] == parts[1..] + [x];
      JoinSnoc(parts[1..], x, sep);
    }
  }

  /** Joining without the trailing empty pieces gives a prefix of the full
      join, and what it leaves out is separators only. */
  lemma {:induction false} JoinDropTrailingEmpty(parts: seq<string>, sep: char)
    ensures var full := Join(parts, sep);
            var j := Join(DropTrailingEmpty(parts), sep);
      |j| <= |full| && full[..|j|] == j && forall i | |j| <= i < |full| :: full[i] == sep
    decreases |parts|
  {
    if |parts| > 0 && parts[|parts| - 1] == "" {
      var init := parts[..|parts| - 1];
      JoinDropTrailingEmpty(init, sep);
      assert parts == init + [""];
      JoinSnoc(init, "", sep);
    }
  }

  /** Drops the empty pieces at the end, as `String.split` does. */
  function DropTrailingEmpty(parts: seq<string>): (r: seq<string>)
    ensures |r| <= |parts| && r == parts[..|r|]
    ensures |r| > 0 ==> r[|r| - 1] != ""
    ensures forall i | |r| <= i < |parts| :: parts[i] == ""
  {
    if |parts| > 0 && parts[|parts| - 1] == "" then DropTrailingEmpty(parts[..|parts| - 1])
    else parts
  }

  /** `String.split` with a one-character pattern: the input itself when the
      separator does not occur, otherwise the pieces without trailing empty ones. */
  function JavaSplit(s: string, sep: char): seq<string>
  {
    if sep !in s then [s] else DropTrailingEmpty(Split(s, sep))
  }

  /** Joining what `String.split` returns gives back the input without the
      separators it ended with: a prefix of the input, followed in the input by
      separators only. A trailing separator is all that splitting loses. */
  lemma JavaSplitLosesOnlyTrailing(s: string, sep: char)
    ensures var j := Join(JavaSplit(s, sep), sep);
      |j| <= |s| && s[..|j|] == j && forall i | |j| <= i < |s| :: s[i] == sep
  {
    if sep in s {
      JoinSplit(s, sep);
      JoinDropTrailingEmpty(Split(s, sep), sep);
    }
  }

  /** Splitting `a.` drops the final empty piece, so joining does not restore it. */
  lemma JavaSplitDropsTrailingPiece()
    ensures JavaSplit("a.", '.') == ["a"]
    ensures Join(JavaSplit("a.", '.'), '.') != "a."
  {
    assert "a."[1] == '.';
    assert "a."[1..] == ".";
    assert "."[1..] == "";
    assert Split(".", '.') == ["", ""];
    assert "a."[0] == 'a' && ['a'] + "" == "a";
    assert Split("a.", '.') == ["a", ""];
  }

  /** A key written as non-empty separator-free segments splits back into those segments. */
  lemma JavaSplitJoin(parts: seq<string>, sep: char)
    requires |parts| > 0
    requires forall i | 0 <= i < |parts| :: sep !in parts[i] && parts[i] != ""
    ensures JavaSplit(Join(parts, sep), sep) == parts
  {
    SplitJoin(parts, sep);
    if |parts| == 1 {
      assert Join(parts, sep) == parts[0];
    } else {
      assert sep in Join(parts, sep) by {
        assert Join(parts, sep)[|parts[0]|] == sep;
      }
    }
  }

  // ---------------------------------------------------------------------------
  // Decimal rendering of integers (Long.toString) and its inverse
  // ---------------------------------------------------------------------------

  function DigitChar(d: nat): char
    requires d < 10
  {
    (d + '0' as int) as char
  }

  predicate IsDigit(c: char) {
    '0' <= c <= '9'
  }

  /** The decimal digits of `n`, most significant first, without leading zeros. */
  function Digits(n: nat): (r: string)
    ensures |r| > 0
    ensures forall i | 0 <= i < |r| :: IsDigit(r[i])
  {
    if n < 10 then [DigitChar(n)] else Digits(n / 10) + [DigitChar(n % 10)]
  }

  /** `Long.toString` / `String.valueOf(long)`. */
  function Decimal(n: int): (r: string)
    ensures |r| > 0
    ensures forall i | 0 <= i < |r| :: IsDigit(r[i]) || r[i] == '-'
  {
    if n < 0 then "-" + Digits(-n) else Digits(n)
  }

  /** Reads a non-empty run of decimal digits. */
  function ParseDigits(s: string): Option<nat>
  {
    if |s| == 0 || !IsDigit(s[|s| - 1]) then None
    else
      var d := s[|s| - 1] as int - '0' as int;
      if |s| == 1 then Some(d)
      else match ParseDigits(s[..|s| - 1])
        case None => None
        case Some(high) => Some(high * 10 + d)
  }

  /** Reads an optionally negative decimal integer. */
  function ParseDecimal(s: string): Option<int>
  {
    if |s| > 0 && s[0] == '-' then
      match ParseDigits(s[1..])
      case None => None
      case Some(n) => var v: int := n; Some(-v)
    else match ParseDigits(s)
      case None => None
      case Some(n) => Some(n)
  }

  lemma {:induction false} ParseDigitsRoundTrip(n: nat)
    ensures ParseDigits(Digits(n)) == Some(n)
  {
    if n >= 10 {
      ParseDigitsRoundTrip(n / 10);
      var s := Digits(n);
      assert s[..|s| - 1] == Digits(n / 10);
    }
  }

  /** The decimal rendering of an integer reads back as that integer. */
  lemma DecimalRoundTrip(n: int)
    ensures ParseDecimal(Decimal(n)) == Some(n)
  {
    if n < 0 {
      ParseDigitsRoundTrip(-n);
      assert ("-" + Digits(-n))[1..] == Digits(-n);
    } else {
      ParseDigitsRoundTrip(n);
    }
  }

  // ---------------------------------------------------------------------------
  // Case-insensitive comparison against a lower-case ASCII literal
  // ---------------------------------------------------------------------------

  predicate IsLowerAscii(c: char) {
    'a' <= c <= 'z'
  }

  function ToUpperAscii(c: char): char
    requires IsLowerAscii(c)
  {
    (c as int - 32) as char
  }

  /** The characters `String.equalsIgnoreCase` treats as equal to the lower-case
      ASCII letter `l`: `l`, its upper case, and the non-ASCII letters whose
      case mapping lands on it (dotless and dotted I, long s, Kelvin sign). */
  predicate SameLetterIgnoringCase(c: char, l: char)
    requires IsLowerAscii(l)
  {
    || c == l || c == ToUpperAscii(l)
    || (l == 'i' && (c == '\U{130}' || c == '\U{131}'))
    || (l == 's' && c == '\U{17F}')
    || (l == 'k' && c == '\U{212A}')
  }

  /** `literal.equalsIgnoreCase(s)` for a literal made of lower-case ASCII letters. */
  predicate EqualsIgnoreCase(s: string, literal: string)
    requires forall i | 0 <= i < |literal| :: IsLowerAscii(literal[i])
  {
    |s| == |literal| && forall i | 0 <= i < |s| :: SameLetterIgnoringCase(s[i], literal[i])
  }
}
