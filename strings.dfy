/**
 * Splitting a string on a one-character separator, as `preg_split('/c/', s)`
 * does when the pattern is a single literal character: every occurrence
 * separates two pieces, so there is always one piece more than there are
 * separators, and pieces may be empty.
 */
module Strings {

  function Split(s: string, sep: char): (pieces: seq<string>)
    ensures |pieces| >= 1
    ensures forall i :: 0 <= i < |pieces| ==> sep !in pieces[i]
  {
    if s == [] then [""]
    else
      var rest := Split(s[1..], sep);
      if s[0] == sep then [""] + rest
      else [[s[0]] + rest[0]] + rest[1..]
  }

  /** The inverse of Split: the pieces written out with the separator between them. */
  function Join(pieces: seq<string>, sep: char): string
    requires |pieces| >= 1
  {
    if |pieces| == 1 then pieces[0] else pieces[0] + [sep] + Join(pieces[1..], sep)
  }

  /** Splitting loses nothing: joining the pieces gives back the string. */
  lemma {:induction false} JoinSplit(s: string, sep: char)
    ensures Join(Split(s, sep), sep) == s
  {
    if s != [] {
      var rest := Split(s[1..], sep);
      JoinSplit(s[1..], sep);
      if s[0] == sep {
        assert ([""] + rest)[1..] == rest;
      } else if |rest| > 1 {
        assert ([[s[0]] + rest[0]] + rest[1..])[1..] == rest[1..];
      }
    }
  }

  /** A string without the separator is one piece. */
  lemma {:induction false} SplitWithoutSeparator(p: string, sep: char)
    requires sep !in p
    ensures Split(p, sep) == [p]
  {
    if p != [] {
      SplitWithoutSeparator(p[1..], sep);
      assert p[0] != sep;
      assert [p[0]] + p[1..] == p;
    }
  }

  /** A separator-free prefix followed by the separator becomes the first piece. */
  lemma {:induction false} SplitAfterPrefix(p: string, sep: char, rest: string)
    requires sep !in p
    ensures Split(p + [sep] + rest, sep) == [p] + Split(rest, sep)
  {
    var s := p + [sep] + rest;
    if p == [] {
      assert s[1..] == rest;
    } else {
      assert s[1..] == p[1..] + [sep] + rest;
      SplitAfterPrefix(p[1..], sep, rest);
      assert [p[0]] + p[1..] == p;
    }
  }

  /** Split recovers the pieces Join was given, so the two are inverse on separator-free pieces. */
  lemma {:induction false} SplitJoin(pieces: seq<string>, sep: char)
    requires |pieces| >= 1
    requires forall i :: 0 <= i < |pieces| ==> sep !in pieces[i]
    ensures Split(Join(pieces, sep), sep) == pieces
  {
    if |pieces| == 1 {
      SplitWithoutSeparator(pieces[0], sep);
    } else {
      SplitJoin(pieces[1..], sep);
      SplitAfterPrefix(pieces[0], sep, Join(pieces[1..], sep));
    }
  }

  /**
   * The first piece is the text before the first separator: a prefix of the
   * string, followed by a separator exactly when there are more pieces, and
   * the remaining pieces are the split of what follows that separator.
   */
  lemma {:induction false} SplitFirst(s: string, sep: char)
    ensures var pieces := Split(s, sep);
      && |pieces[0]| <= |s| && pieces[0] == s[..|pieces[0]|]
      && (|pieces| == 1 <==> sep !in s)
      && (|pieces| == 1 ==> pieces[0] == s)
      && (|pieces| > 1 ==> |pieces[0]| < |s| && s[|pieces[0]|] == sep && pieces[1..] == Split(s[|pieces[0]| + 1..], sep))
  {
    if s != [] {
      var rest := Split(s[1..], sep);
      SplitFirst(s[1..], sep);
      if s[0] != sep {
        var pieces := Split(s, sep);
        assert pieces[0] == [s[0]] + rest[0];
        assert s[..|pieces[0]|] == [s[0]] + s[1..][..|rest[0]|];
        assert sep in s <==> sep in s[1..] by {
          assert s == [s[0]] + s[1..];
        }
        if |rest| > 1 {
          assert s[1..][|rest[0]| + 1..] == s[|pieces[0]| + 1..];
        } else {
          assert [s[0]] + s[1..] == s;
        }
      } else {
        assert s[1..] == s[0 + 1..];
      }
    }
  }

  function DigitChar(d: nat): (c: char)
    requires d < 10
    ensures '0' <= c <= '9'
  {
    ('0' as int + d) as char
  }

  /** The number a digit stands for. */
  function DigitValue(c: char): nat
    requires '0' <= c <= '9'
  {
    c as int - '0' as int
  }

  predicate AllDigits(s: string)
  {
    forall i :: 0 <= i < |s| ==> '0' <= s[i] <= '9'
  }

  /** The number a string of decimal digits stands for. */
  function DigitsValue(s: string): nat
    requires AllDigits(s)
  {
    if s == [] then 0 else DigitsValue(s[..|s| - 1]) * 10 + DigitValue(s[|s| - 1])
  }

  function NaturalDigits(n: nat): (r: string)
    ensures |r| >= 1 && AllDigits(r)
    ensures r[0] == '0' <==> n == 0
  {
    if n < 10 then [DigitChar(n)] else NaturalDigits(n / 10) + [DigitChar(n % 10)]
  }

  /** How PHP writes an integer when it is concatenated to a string: a `-` for negative numbers, then the digits. */
  function DecimalString(n: int): (r: string)
    ensures |r| >= 1
    ensures r[0] == '-' <==> n < 0
    ensures n >= 0 ==> AllDigits(r)
    ensures n < 0 ==> |r| >= 2 && AllDigits(r[1..])
    ensures n >= 0 ==> r[0] != '0' || |r| == 1
    ensures n < 0 ==> r[1] != '0'
  {
    if n < 0 then "-" + NaturalDigits(-n) else NaturalDigits(n)
  }

  /** The digits NaturalDigits writes stand for the number written. */
  lemma {:induction false} NaturalDigitsValue(n: nat)
    ensures DigitsValue(NaturalDigits(n)) == n
  {
    var r := NaturalDigits(n);
    if n >= 10 {
      NaturalDigitsValue(n / 10);
      assert r[..|r| - 1] == NaturalDigits(n / 10);
    }
  }

  /** Reading back what DecimalString writes gives the number: the sign, then the digits' value. */
  lemma DecimalStringValue(n: int)
    ensures n >= 0 ==> DigitsValue(DecimalString(n)) == n
    ensures n < 0 ==> DigitsValue(DecimalString(n)[1..]) == -n
  {
    if n >= 0 {
      NaturalDigitsValue(n);
    } else {
      NaturalDigitsValue(-n);
      assert DecimalString(n)[1..] == NaturalDigits(-n);
    }
  }
}
