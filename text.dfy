/**
 * String operations the exporters rely on: Python's `sep.join(parts)`,
 * `s.split(sep)` and `str(n)` for a non-negative integer, each with the
 * properties that make the exported text readable back.
 */
module Text {

  /** Number of occurrences of `c` in `s`. */
  function Count(s: string, c: char): nat
  {
    if s == [] then 0 else (if s[0] == c then 1 else 0) + Count(s[1..], c)
  }

  /** No part contains the separator. */
  predicate Separable(parts: seq<string>, sep: char)
  {
    forall i :: 0 <= i < |parts| ==> sep !in parts[i]
  }

  /** Python's `sep.join(parts)` for a one-character separator. */
  function Join(parts: seq<string>, sep: char): (joined: string)
    ensures |parts| == 0 ==> joined == ""
    ensures |parts| > 0 ==> |joined| >= |parts[0]| && joined[..|parts[0]|] == parts[0]
  {
    if |parts| == 0 then ""
    else if |parts| == 1 then parts[0]
    else parts[0] + [sep] + Join(parts[1..], sep)
  }

  /**
   * Python's `s.split(sep)`: the pieces of `s` between occurrences of `sep`.
   * There is always one piece more than there are separators, so the empty
   * string splits into one empty piece.
   */
  function Split(s: string, sep: char): (pieces: seq<string>)
    ensures |pieces| == Count(s, sep) + 1
    ensures Separable(pieces, sep)
  {
    if s == [] then [""]
    else
      var rest := Split(s[1..], sep);
      if s[0] == sep then [""] + rest
      else [[s[0]] + rest[0]] + rest[1..]
  }

  lemma {:induction false} CountConcat(a: string, b: string, c: char)
    ensures Count(a + b, c) == Count(a, c) + Count(b, c)
  {
    if a == [] {
      assert a + b == b;
    } else {
      assert (a + b)[1..] == a[1..] + b;
      CountConcat(a[1..], b, c);
    }
  }

  lemma {:induction false} CountAbsent(s: string, c: char)
    requires c !in s
    ensures Count(s, c) == 0
  {
    if s != [] {
      CountAbsent(s[1..], c);
    }
  }

  lemma {:induction false} CountPresent(s: string, c: char)
    requires c in s
    ensures Count(s, c) > 0
  {
    if s[0] != c {
      CountPresent(s[1..], c);
    }
  }

  /** A joined text holds exactly one separator between consecutive parts: none before the first, none after the last. */
  lemma {:induction false} JoinCount(parts: seq<string>, sep: char)
    requires |parts| > 0 && Separable(parts, sep)
    ensures Count(Join(parts, sep), sep) == |parts| - 1
  {
    CountAbsent(parts[0], sep);
    if |parts| > 1 {
      JoinCount(parts[1..], sep);
      CountConcat(parts[0], [sep], sep);
      CountConcat(parts[0] + [sep], Join(parts[1..], sep), sep);
    }
  }

  lemma {:induction false} SplitUnseparated(s: string, sep: char)
    requires sep !in s
    ensures Split(s, sep) == [s]
  {
    if s != [] {
      SplitUnseparated(s[1..], sep);
      assert [s[0]] + s[1..] == s;
    }
  }

  lemma {:induction false} SplitAfterPiece(a: string, b: string, sep: char)
    requires sep !in a
    ensures Split(a + [sep] + b, sep) == [a] + Split(b, sep)
  {
    if a == [] {
      assert a + [sep] + b == [sep] + b;
      assert ([sep] + b)[1..] == b;
    } else {
      assert (a + [sep] + b)[1..] == a[1..] + [sep] + b;
      SplitAfterPiece(a[1..], b, sep);
      assert [a[0]] + a[1..] == a;
    }
  }

  /** Splitting a joined text gives the parts back when no part contains the separator. */
  lemma {:induction false} SplitJoin(parts: seq<string>, sep: char)
    requires |parts| > 0 && Separable(parts, sep)
    ensures Split(Join(parts, sep), sep) == parts
  {
    if |parts| == 1 {
      SplitUnseparated(parts[0], sep);
    } else {
      SplitAfterPiece(parts[0], Join(parts[1..], sep), sep);
      SplitJoin(parts[1..], sep);
      assert [parts[0]] + parts[1..] == parts;
    }
  }

  /** Joining the pieces of a split text gives the text back. */
  lemma {:induction false} JoinSplit(s: string, sep: char)
    ensures Join(Split(s, sep), sep) == s
  {
    if s != [] {
      JoinSplit(s[1..], sep);
      var rest := Split(s[1..], sep);
      assert [s[0]] + s[1..] == s;
      if s[0] == sep {
        assert ([""] + rest)[1..] == rest;
      } else if |rest| > 1 {
        var first := [s[0]] + rest[0];
        assert ([first] + rest[1..])[1..] == rest[1..];
        assert Join(rest, sep) == rest[0] + [sep] + Join(rest[1..], sep);
      }
    }
  }

  /** The decimal digit character for `d`. */
  function Digit(d: nat): (c: char)
    requires d < 10
    ensures '0' <= c <= '9'
  {
    (48 + d) as char
  }

  predicate IsDigits(s: string)
  {
    forall i :: 0 <= i < |s| ==> '0' <= s[i] <= '9'
  }

  /** The number a string of decimal digits denotes. */
  function DigitsValue(s: string): nat
    requires IsDigits(s)
  {
    if s == [] then 0
    else DigitsValue(s[..|s| - 1]) * 10 + (s[|s| - 1] as int - 48)
  }

  /** Python's `str(n)` for a non-negative integer: its decimal digits, without leading zeros. */
  function NatToString(n: nat): (s: string)
    ensures |s| > 0 && IsDigits(s)
    ensures |s| > 1 ==> s[0] != '0'
  {
    if n < 10 then [Digit(n)] else NatToString(n / 10) + [Digit(n % 10)]
  }

  /** Reading the digits back gives the number. */
  lemma {:induction false} NatToStringValue(n: nat)
    ensures DigitsValue(NatToString(n)) == n
  {
    if n >= 10 {
      NatToStringValue(n / 10);
      var s := NatToString(n);
      assert s[..|s| - 1] == NatToString(n / 10);
    }
  }

  /** Different numbers print differently. */
  lemma NatToStringInjective(m: nat, n: nat)
    requires NatToString(m) == NatToString(n)
    ensures m == n
  {
    NatToStringValue(m);
    NatToStringValue(n);
  }

  /** Decimal digits contain neither a comma nor a newline. */
  lemma DigitsHaveNoDelimiters(n: nat)
    ensures ',' !in NatToString(n) && '\n' !in NatToString(n)
  {
    var s := NatToString(n);
    assert forall i :: 0 <= i < |s| ==> s[i] != ',' && s[i] != '\n';
  }
}
