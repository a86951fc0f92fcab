/** The text layer of the scanner's serial protocol: every command and every
    response is a line of comma-separated fields, and every number travels as
    decimal text. This module models the handful of Python string operations
    the client applies to that text: `str.split`, `str.join`, `str.count`,
    `int()`, `str()` of a number, `rjust` and `ljust`. */
module Wire {
  import opened Wrappers

  /** Regrouping a concatenation of three. */
  lemma ConcatAssoc<T>(a: seq<T>, b: seq<T>, c: seq<T>)
    ensures (a + b) + c == a + (b + c)
  {
  }

  /** Number of occurrences of `c` in `s` (Python `s.count(c)` for one character). */
  function Count(s: string, c: char): nat
  {
    if |s| == 0 then 0 else (if s[0] == c then 1 else 0) + Count(s[1..], c)
  }

  /** `s.count(c)` is zero exactly when `c` does not occur, and never more
      than the length. */
  lemma {:induction false} CountMeans(s: string, c: char)
    ensures Count(s, c) == 0 <==> c !in s
    ensures Count(s, c) <= |s|
  {
    if |s| > 0 {
      CountMeans(s[1..], c);
      assert s == [s[0]] + s[1..];
    }
  }

  /** Python `s.split(sep)`: never empty, and `"".split(sep) == [""]`. */
  function Split(s: string, sep: char): (r: seq<string>)
    ensures |r| == Count(s, sep) + 1
  {
    if |s| == 0 then [""]
    else
      var rest := Split(s[1..], sep);
      if s[0] == sep then [""] + rest
      else [[s[0]] + rest[0]] + rest[1..]
  }

  /** No piece of a split holds the separator. */
  lemma {:induction false} SplitPiecesPlain(s: string, sep: char)
    ensures forall i :: 0 <= i < |Split(s, sep)| ==> sep !in Split(s, sep)[i]
  {
    if |s| > 0 {
      SplitPiecesPlain(s[1..], sep);
      var rest := Split(s[1..], sep);
      if s[0] != sep {
        assert sep !in [s[0]] + rest[0];
        assert forall i :: 1 <= i < |rest| ==> rest[1..][i - 1] == rest[i];
      }
    }
  }

  /** A character the text does not hold is in no piece of its split. */
  lemma {:induction false} SplitPiecesFrom(s: string, sep: char, c: char)
    requires c !in s
    ensures forall i :: 0 <= i < |Split(s, sep)| ==> c !in Split(s, sep)[i]
  {
    if |s| > 0 {
      assert s == [s[0]] + s[1..];
      SplitPiecesFrom(s[1..], sep, c);
      var rest := Split(s[1..], sep);
      if s[0] != sep {
        assert c !in [s[0]] + rest[0];
        assert forall i :: 1 <= i < |rest| ==> rest[1..][i - 1] == rest[i];
      }
    }
  }

  /** Python `sep.join(ps)`. */
  function Join(ps: seq<string>, sep: char): string
  {
    if |ps| == 0 then ""
    else if |ps| == 1 then ps[0]
    else ps[0] + [sep] + Join(ps[1..], sep)
  }

  /** No piece of `ps` contains the separator, so joining loses nothing. */
  predicate Separable(ps: seq<string>, sep: char)
  {
    forall i :: 0 <= i < |ps| ==> sep !in ps[i]
  }

  /** Joining the pieces of a split gives the original text back. */
  lemma {:induction false} JoinSplit(s: string, sep: char)
    ensures Join(Split(s, sep), sep) == s
  {
    if |s| == 0 {
    } else {
      var rest := Split(s[1..], sep);
      JoinSplit(s[1..], sep);
      if s[0] == sep {
        assert Split(s, sep) == [""] + rest;
        assert Join([""] + rest, sep) == "" + [sep] + Join(rest, sep);
        assert s == [s[0]] + s[1..];
      } else {
        var first := [s[0]] + rest[0];
        assert Split(s, sep) == [first] + rest[1..];
        if |rest| == 1 {
          assert Join(rest, sep) == rest[0];
        } else {
          assert Join(rest, sep) == rest[0] + [sep] + Join(rest[1..], sep);
          assert ([first] + rest[1..])[1..] == rest[1..];
        }
        assert s == [s[0]] + s[1..];
      }
    }
  }

  /** Splitting a join of separator-free pieces gives the pieces back. */
  lemma {:induction false} SplitJoin(ps: seq<string>, sep: char)
    requires |ps| >= 1
    requires Separable(ps, sep)
    ensures Split(Join(ps, sep), sep) == ps
    decreases |ps|, |ps[0]|
  {
    if |ps| == 1 {
      SplitPlain(ps[0], sep);
    } else if |ps[0]| == 0 {
      var tail := ps[1..];
      SplitJoin(tail, sep);
      assert Join(ps, sep) == [sep] + Join(tail, sep);
      assert ([sep] + Join(tail, sep))[1..] == Join(tail, sep);
      assert ps == [""] + tail;
    } else {
      var c := ps[0][0];
      var shorter := [ps[0][1..]] + ps[1..];
      assert Separable(shorter, sep) by {
        forall i | 0 <= i < |shorter| ensures sep !in shorter[i] {
          if i == 0 {
            assert ps[0] == [c] + ps[0][1..];
          } else {
            assert shorter[i] == ps[i];
          }
        }
      }
      SplitJoin(shorter, sep);
      assert Join(shorter, sep) == ps[0][1..] + [sep] + Join(ps[1..], sep);
      assert Join(ps, sep) == [c] + Join(shorter, sep) by {
        assert ps[0] == [c] + ps[0][1..];
      }
      assert c != sep by {
        assert c == ps[0][0];
      }
      var j := Join(ps, sep);
      assert j[1..] == Join(shorter, sep);
      var rest := Split(j[1..], sep);
      assert Split(j, sep) == [[c] + rest[0]] + rest[1..];
      assert ps[0] == [c] + ps[0][1..];
    }
  }

  /** A text without a separator splits into itself. */
  lemma {:induction false} SplitPlain(s: string, sep: char)
    requires sep !in s
    ensures Split(s, sep) == [s]
  {
    if |s| > 0 {
      assert sep !in s[1..] by {
        forall k | 0 <= k < |s[1..]| ensures s[1..][k] != sep {
          assert s[1..][k] == s[k + 1];
        }
      }
      SplitPlain(s[1..], sep);
      assert s == [s[0]] + s[1..];
    }
  }

  /** `c` repeated `n` times. */
  function Repeat(c: char, n: nat): (r: string)
    ensures |r| == n
    ensures forall i :: 0 <= i < n ==> r[i] == c
  {
    if n == 0 then "" else [c] + Repeat(c, n - 1)
  }

  /** Python `s.rjust(width, fill)`: pads on the left, never truncates. */
  function PadLeft(s: string, width: nat, fill: char): (r: string)
    ensures |r| == if |s| >= width then |s| else width
    ensures r[|r| - |s|..] == s
    ensures forall i :: 0 <= i < |r| - |s| ==> r[i] == fill
  {
    if |s| >= width then s else Repeat(fill, width - |s|) + s
  }

  /** Python `s.ljust(width, fill)`: pads on the right, never truncates. */
  function PadRight(s: string, width: nat, fill: char): (r: string)
    ensures |r| == if |s| >= width then |s| else width
    ensures r[..|s|] == s
    ensures forall i :: |s| <= i < |r| ==> r[i] == fill
  {
    if |s| >= width then s else s + Repeat(fill, width - |s|)
  }

  predicate IsDigit(c: char) { '0' <= c <= '9' }

  /** Every character is a decimal digit (the empty text included). */
  predicate IsDigits(s: string)
  {
    forall i :: 0 <= i < |s| ==> IsDigit(s[i])
  }

  function DigitValue(c: char): nat
    requires IsDigit(c)
  {
    (c as int - '0' as int) as nat
  }

  function DigitChar(d: nat): (c: char)
    requires d < 10
    ensures IsDigit(c) && DigitValue(c) == d
  {
    ('0' as int + d) as char
  }

  /** The number a digit text denotes; the empty text denotes 0. */
  function Value(s: string): nat
    requires IsDigits(s)
  {
    if |s| == 0 then 0 else Value(s[..|s| - 1]) * 10 + DigitValue(s[|s| - 1])
  }

  function Pow10(n: nat): (r: nat)
    ensures r >= 1
  {
    if n == 0 then 1 else 10 * Pow10(n - 1)
  }

  /** Python `str(n)` for a natural number: shortest decimal text. */
  function NatToString(n: nat): (r: string)
    ensures |r| >= 1 && IsDigits(r)
    ensures |r| == 1 || r[0] != '0'
  {
    if n < 10 then [DigitChar(n)] else NatToString(n / 10) + [DigitChar(n % 10)]
  }

  /** Python `str(i)` for any integer. */
  function IntToString(i: int): string
  {
    if i < 0 then "-" + NatToString(-i) else NatToString(i)
  }

  /** Python `int(s)` on a text without surrounding blanks: an optional sign
      followed by one or more digits, leading zeros allowed. */
  function ParseInt(s: string): (r: Option<int>)
    ensures r.Some? <==> (IsDigits(s) && |s| >= 1)
                         || (|s| >= 2 && s[0] in "+-" && IsDigits(s[1..]))
  {
    if |s| >= 1 && IsDigits(s) then Some(Value(s) as int)
    else if |s| >= 2 && s[0] == '-' && IsDigits(s[1..]) then Some(0 - Value(s[1..]) as int)
    else if |s| >= 2 && s[0] == '+' && IsDigits(s[1..]) then Some(Value(s[1..]))
    else None
  }

  /** The walk and poll loops stop on an index or token that `int()` reads as -1. */
  predicate IsEnd(s: string)
  {
    ParseInt(s) == Some(-1)
  }

  /** A text reads as -1 exactly when it is '-' followed by digits whose
      value is 1 (`"-1"`, `"-01"`, ...). */
  lemma IsEndMeans(s: string)
    ensures IsEnd(s) <==> |s| >= 2 && s[0] == '-' && IsDigits(s[1..]) && Value(s[1..]) == 1
  {
  }

  /** The digit text of a number reads back as that number. */
  lemma {:induction false} ValueOfNatToString(n: nat)
    ensures Value(NatToString(n)) == n
  {
    if n >= 10 {
      ValueOfNatToString(n / 10);
      var s := NatToString(n);
      assert s[..|s| - 1] == NatToString(n / 10);
    }
  }

  /** Digit texts are closed under concatenation. */
  lemma DigitsConcat(a: string, b: string)
    requires IsDigits(a) && IsDigits(b)
    ensures IsDigits(a + b)
  {
    forall i | 0 <= i < |a + b| ensures IsDigit((a + b)[i]) {
      if i < |a| { assert (a + b)[i] == a[i]; } else { assert (a + b)[i] == b[i - |a|]; }
    }
  }

  /** Appending a digit to `y` after `x` shifted by `p` places. */
  lemma ShiftDigit(x: nat, p: nat, y: nat, d: nat)
    ensures (x * p + y) * 10 + d == x * (10 * p) + (y * 10 + d)
  {
  }

  /** The value of a concatenation, digit by digit. */
  lemma {:induction false} ValueConcat(a: string, b: string)
    requires IsDigits(a) && IsDigits(b)
    ensures IsDigits(a + b)
    ensures Value(a + b) == Value(a) * Pow10(|b|) + Value(b)
    decreases |b|
  {
    DigitsConcat(a, b);
    if |b| > 0 {
      var b' := b[..|b| - 1];
      assert (a + b)[..|a + b| - 1] == a + b';
      assert (a + b)[|a + b| - 1] == b[|b| - 1];
      ValueConcat(a, b');
      ShiftDigit(Value(a), Pow10(|b'|), Value(b'), DigitValue(b[|b| - 1]));
    } else {
      assert a + b == a;
    }
  }

  /** A digit text of length n denotes a number below 10^n. */
  lemma {:induction false} ValueBound(s: string)
    requires IsDigits(s)
    ensures Value(s) < Pow10(|s|)
  {
    if |s| > 0 {
      ValueBound(s[..|s| - 1]);
    }
  }

  /** Leading zeros do not change the value. */
  lemma {:induction false} ValueOfZeros(n: nat)
    ensures IsDigits(Repeat('0', n)) && Value(Repeat('0', n)) == 0
  {
    var z := Repeat('0', n);
    if n > 0 {
      ValueOfZeros(n - 1);
      assert z[..n - 1] == Repeat('0', n - 1) by {
        assert z[..n - 1] == z[1..];
      }
    }
  }

  /** A digit text without a leading zero is exactly the text `str()` prints. */
  lemma {:induction false} NatToStringOfValue(s: string)
    requires IsDigits(s) && |s| >= 1
    requires |s| == 1 || s[0] != '0'
    ensures NatToString(Value(s)) == s
    decreases |s|
  {
    if |s| >= 2 {
      var s' := s[..|s| - 1];
      NatToStringOfValue(s');
      assert Value(s') >= 1;
      var v := Value(s);
      assert v == Value(s') * 10 + DigitValue(s[|s| - 1]);
      assert v / 10 == Value(s') && v % 10 == DigitValue(s[|s| - 1]);
      assert s == s' + [s[|s| - 1]];
    }
  }

  /** Every digit text is a run of zeros followed by a text without a leading zero. */
  lemma {:induction false} StripZeros(s: string) returns (k: nat, t: string)
    requires IsDigits(s) && |s| >= 1
    ensures s == Repeat('0', k) + t
    ensures IsDigits(t) && |t| >= 1 && (|t| == 1 || t[0] != '0')
    decreases |s|
  {
    if |s| == 1 || s[0] != '0' {
      k, t := 0, s;
    } else {
      var k', t' := StripZeros(s[1..]);
      k, t := k' + 1, t';
      assert s == [s[0]] + s[1..];
    }
  }

  /** Python `str(n).rjust(width, '0')` read back: a digit text padded with
      zeros to its own length is reproduced exactly. */
  lemma {:induction false} PadValueIdentity(s: string)
    requires IsDigits(s) && |s| >= 1
    ensures PadLeft(NatToString(Value(s)), |s|, '0') == s
  {
    var k, t := StripZeros(s);
    ValueOfZeros(k);
    ValueConcat(Repeat('0', k), t);
    NatToStringOfValue(t);
    assert NatToString(Value(s)) == t;
    if k == 0 {
      assert Repeat('0', 0) + t == t;
    }
  }
}
