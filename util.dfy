/** The codec helpers of `pyuniden/util.py`.

    The scanner stores a ten-slot quick-lockout vector with slot "0" last
    (keys 1..9 then 0); the client keeps it with slot "0" first.
    `ZeroToHead` converts a scanner vector to the client's order and
    `ZeroToTail` converts it back. Frequencies travel as eight digits
    (four before the implied decimal point and four after).

    The source's `zero_to_tail` is not the inverse of `zero_to_head`; it is
    modelled as written by `ZeroToTailAsWritten`, which the set commands
    of the model use as the source does; `ZeroToTail` is the evidently
    intended conversion, and the corrected set commands built on it carry
    the round trips the source means to keep. */
module Util {
  import opened Wrappers
  import opened Wire
  import opened Errors

  /** Python `list.insert(i, x)` for an in-range position: `x` ends up before `l[i]`. */
  function Insert<T>(l: seq<T>, i: nat, x: T): (r: seq<T>)
    requires i <= |l|
    ensures |r| == |l| + 1 && r[i] == x
    ensures r[..i] == l[..i] && r[i + 1..] == l[i..]
  {
    l[..i] + [x] + l[i..]
  }

  /** Python `list.pop(i)` for an in-range position, keeping the list. */
  function Pop<T>(l: seq<T>, i: nat): (r: seq<T>)
    requires i < |l|
    ensures |r| == |l| - 1
    ensures r[..i] == l[..i] && r[i..] == l[i + 1..]
  {
    l[..i] + l[i + 1..]
  }

  /** `zero_to_head`: on ten slots, the last slot moves to the front. */
  function ZeroToHead<T>(t: seq<T>): (r: seq<T>)
    ensures |r| == |t|
  {
    if |t| != 10 then t
    else Pop(Insert(t, 0, t[9]), 10)
  }

  /** `zero_to_tail` exactly as the source writes it: inserting at position 9
      and then popping position 0 moves the first slot to position 8, not to
      the end. */
  function ZeroToTailAsWritten<T>(t: seq<T>): (r: seq<T>)
    ensures |r| == |t|
  {
    if |t| != 10 then t
    else Pop(Insert(t, 9, t[0]), 0)
  }

  /** The intended `zero_to_tail`: on ten slots, the first slot moves to the end. */
  function ZeroToTail<T>(t: seq<T>): (r: seq<T>)
    ensures |r| == |t|
  {
    if |t| != 10 then t
    else Pop(Insert(t, 10, t[0]), 0)
  }

  /** On ten slots, `ZeroToHead` puts the last slot first and shifts the
      other nine one place right; other lengths pass through. */
  lemma HeadRotates<T>(t: seq<T>)
    ensures |t| == 10 ==> ZeroToHead(t) == [t[9]] + t[..9]
    ensures |t| != 10 ==> ZeroToHead(t) == t
  {
    if |t| == 10 {
      var r := ZeroToHead(t);
      assert forall i :: 0 <= i < 10 ==> r[i] == ([t[9]] + t[..9])[i];
    }
  }

  /** On ten slots, `ZeroToTail` moves the first slot to the end and shifts
      the rest one place left; other lengths pass through. */
  lemma TailRotates<T>(t: seq<T>)
    ensures |t| == 10 ==> ZeroToTail(t) == t[1..] + [t[0]]
    ensures |t| != 10 ==> ZeroToTail(t) == t
  {
    if |t| == 10 {
      var r := ZeroToTail(t);
      assert forall i :: 0 <= i < 10 ==> r[i] == (t[1..] + [t[0]])[i];
    }
  }

  /** What the source's `zero_to_tail` does on ten slots: the first slot
      lands in position 8 and the last slot stays put. */
  lemma TailAsWrittenShape<T>(t: seq<T>)
    ensures |t| == 10 ==> ZeroToTailAsWritten(t) == t[1..9] + [t[0], t[9]]
    ensures |t| != 10 ==> ZeroToTailAsWritten(t) == t
  {
    if |t| == 10 {
      var r := ZeroToTailAsWritten(t);
      assert forall i :: 0 <= i < 10 ==> r[i] == (t[1..9] + [t[0], t[9]])[i];
    }
  }

  /** Reading a vector and writing it back with the source's `zero_to_tail`
      swaps its last two slots: "0123456789" becomes "9012345678" on read
      and "0123456798" on write. */
  lemma TailAsWrittenBreaksRoundTrip()
    ensures ZeroToHead("0123456789") == "9012345678"
    ensures ZeroToTailAsWritten(ZeroToHead("0123456789")) == "0123456798"
    ensures ZeroToTailAsWritten(ZeroToHead("0123456789")) != "0123456789"
  {
    HeadRotates("0123456789");
    TailAsWrittenShape("9012345678");
  }

  /** In general the source's write-back exchanges the last two slots. */
  lemma TailAsWrittenSwapsLastTwo<T>(v: seq<T>)
    requires |v| == 10
    ensures ZeroToTailAsWritten(ZeroToHead(v)) == v[..8] + [v[9], v[8]]
  {
    HeadRotates(v);
    TailAsWrittenShape(ZeroToHead(v));
    var r := ZeroToTailAsWritten(ZeroToHead(v));
    assert forall i :: 0 <= i < 10 ==> r[i] == (v[..8] + [v[9], v[8]])[i];
  }

  /** Ten slots with the last two exchanged; other lengths unchanged. */
  function SwapLastTwo<T>(v: seq<T>): seq<T>
  {
    if |v| == 10 then v[..8] + [v[9], v[8]] else v
  }

  /** Ten slots with the first and the last exchanged; other lengths unchanged. */
  function SwapEnds<T>(v: seq<T>): seq<T>
  {
    if |v| == 10 then [v[9]] + v[1..9] + [v[0]] else v
  }

  /** `TailAsWrittenShape` for every vector of a list. */
  lemma TailAsWrittenShapes<T>(ps: seq<seq<T>>)
    ensures forall i :: 0 <= i < |ps| ==>
              ZeroToTailAsWritten(ps[i]) == if |ps[i]| == 10 then ps[i][1..9] + [ps[i][0], ps[i][9]] else ps[i]
  {
    forall i | 0 <= i < |ps| {
      TailAsWrittenShape(ps[i]);
    }
  }

  /** `TailRotates` for every vector of a list. */
  lemma TailRotations<T>(ps: seq<seq<T>>)
    ensures forall i :: 0 <= i < |ps| ==>
              ZeroToTail(ps[i]) == if |ps[i]| == 10 then ps[i][1..] + [ps[i][0]] else ps[i]
  {
    forall i | 0 <= i < |ps| {
      TailRotates(ps[i]);
    }
  }

  /** Read with `zero_to_head` and written back with the source's
      `zero_to_tail`, any vector comes back with its last two slots
      exchanged when it has ten, and unchanged otherwise. */
  lemma HeadThenTailAsWritten<T>(v: seq<T>)
    ensures ZeroToTailAsWritten(ZeroToHead(v)) == SwapLastTwo(v)
  {
    if |v| == 10 {
      TailAsWrittenSwapsLastTwo(v);
    }
  }

  /** Written with the source's `zero_to_tail` and read back with
      `zero_to_head`, a ten-slot vector comes back with its first and last
      slots exchanged; other lengths come back unchanged. */
  lemma TailAsWrittenThenHead<T>(v: seq<T>)
    ensures ZeroToHead(ZeroToTailAsWritten(v)) == SwapEnds(v)
  {
    TailAsWrittenShape(v);
    HeadRotates(ZeroToTailAsWritten(v));
    if |v| == 10 {
      var w := ZeroToTailAsWritten(v);
      assert w[9] == v[9] && w[..9] == v[1..9] + [v[0]];
    }
  }

  /** The source's `zero_to_tail` agrees with the intended one exactly when
      the vector does not have ten slots or its first and last slots hold
      the same value. */
  lemma TailsAgree<T>(v: seq<T>)
    ensures ZeroToTailAsWritten(v) == ZeroToTail(v) <==> (|v| != 10 || v[0] == v[9])
  {
    TailAsWrittenShape(v);
    TailRotates(v);
    if |v| == 10 {
      var a := ZeroToTailAsWritten(v);
      var b := ZeroToTail(v);
      assert a[8] == v[0] && b[8] == v[9];
      if v[0] == v[9] {
        assert forall i :: 0 <= i < 10 ==> a[i] == b[i];
      }
    }
  }

  /** The corrected conversions are mutual inverses on every input. */
  lemma TailUndoesHead<T>(v: seq<T>)
    ensures ZeroToTail(ZeroToHead(v)) == v
  {
    HeadRotates(v);
    TailRotates(ZeroToHead(v));
    if |v| == 10 {
      var w := [v[9]] + v[..9];
      assert w[1..] + [w[0]] == v[..9] + [v[9]];
      assert v == v[..9] + [v[9]];
    }
  }

  lemma HeadUndoesTail<T>(v: seq<T>)
    ensures ZeroToHead(ZeroToTail(v)) == v
  {
    TailRotates(v);
    HeadRotates(ZeroToTail(v));
    if |v| == 10 {
      var w := v[1..] + [v[0]];
      assert [w[9]] + w[..9] == [v[0]] + v[1..];
      assert v == [v[0]] + v[1..];
    }
  }

  /** `frq_to_scanner` on a text: the empty text comes back unchanged;
      otherwise the text must hold exactly one '.', and the integer part is
      left-padded with zeros to 4 and the fraction right-padded to 4. The
      numeric `0` argument the source also accepts is not a text and is not
      modelled. */
  function FrqToScanner(f: string): (r: Result<string, Error>)
    ensures f == "" ==> r == Success("")
    ensures f != "" && Count(f, '.') != 1 ==> r == Failure(UnpackError(2, Count(f, '.') + 1))
  {
    if f == "" then Success("")
    else
      var parts := Split(f, '.');
      if |parts| != 2 then Failure(UnpackError(2, |parts|))
      else Success(PadLeft(parts[0], 4, '0') + PadRight(parts[1], 4, '0'))
  }

  /** `frq_to_scanner("L.R")` is L padded left to 4 followed by R padded right
      to 4; parts longer than 4 are kept whole. */
  lemma FrqToScannerPads(l: string, r: string)
    requires '.' !in l && '.' !in r
    ensures FrqToScanner(l + "." + r)
         == Success(PadLeft(l, 4, '0') + PadRight(r, 4, '0'))
  {
    SplitJoin([l, r], '.');
    assert Join([l, r], '.') == l + "." + r by {
      assert Join([l, r], '.') == l + ['.'] + Join([r], '.');
    }
  }

  /** Outcome of `frq_from_scanner`. Inputs other than one to eight digits
      go through Python's floating-point parsing, which the model does not
      follow; those are `FloatPath`. The empty text makes `float()` raise. */
  datatype FromScanner = Decimal(text: string) | NotANumber | FloatPath

  /** Four digits zero-padded: `str(m)` left-padded with '0' to 4. */
  function Fixed4(m: nat): string
  {
    PadLeft(NatToString(m), 4, '0')
  }

  /** `frq_from_scanner` read as integer arithmetic: the stored number divided
      by 10000, printed with exactly four digits after the point. */
  function FrqFromScanner(f: string): (r: FromScanner)
    ensures r == NotANumber <==> f == ""
    ensures r.Decimal? <==> IsDigits(f) && 1 <= |f| <= 8
  {
    if f == "" then NotANumber
    else if IsDigits(f) && |f| <= 8 then
      var n := Value(f);
      Decimal(NatToString(n / 10000) + "." + Fixed4(n % 10000))
    else FloatPath
  }

  /** A number below 10000 prints, zero-padded, as exactly four digits that
      read back as the number. */
  lemma Fixed4Digits(m: nat)
    requires m < 10000
    ensures |Fixed4(m)| == 4 && IsDigits(Fixed4(m)) && Value(Fixed4(m)) == m
  {
    var s := NatToString(m);
    NatLength(m);
    var z := Repeat('0', 4 - |s|);
    assert Fixed4(m) == z + s;
    ValueOfNatToString(m);
    ValueOfZeros(4 - |s|);
    ValueConcat(z, s);
    assert Value(z + s) == 0 * Pow10(|s|) + m;
  }

  /** For one to eight digits, the result has the integer part of n/10000,
      a point, then exactly four digits reading as n mod 10000. */
  lemma FrqFromScannerShape(f: string)
    requires IsDigits(f) && 1 <= |f| <= 8
    ensures FrqFromScanner(f).Decimal?
    ensures var t := FrqFromScanner(f).text;
            var k := |t| - 4;
            k >= 2 && t[k - 1] == '.' && IsDigits(t[k..]) && IsDigits(t[..k - 1])
            && Value(t[..k - 1]) == Value(f) / 10000
            && Value(t[k..]) == Value(f) % 10000
  {
    var n := Value(f);
    var a := NatToString(n / 10000);
    var b := Fixed4(n % 10000);
    Fixed4Digits(n % 10000);
    ValueOfNatToString(n / 10000);
    var t := a + "." + b;
    assert FrqFromScanner(f).text == t;
    var k := |t| - 4;
    assert t[..k - 1] == a;
    assert t[k..] == b;
  }

  /** A number below 10000 prints in at most four digits. */
  lemma {:induction false} NatLength(n: nat)
    ensures n < 10000 ==> |NatToString(n)| <= 4
  {
    if 10 <= n < 10000 {
      var q := n / 10;
      assert q < 1000;
      if q >= 10 {
        var q2 := q / 10;
        assert q2 < 100;
        if q2 >= 10 {
          assert q2 / 10 < 10;
          assert |NatToString(q2)| == 2;
        }
        assert |NatToString(q2)| <= 2;
        assert |NatToString(q)| <= 3;
      }
    }
  }

  /** Euclidean division by 10000 of a number written as a * 10000 + b. */
  lemma DivMod10000(a: nat, b: nat)
    requires b < 10000
    ensures (a * 10000 + b) / 10000 == a && (a * 10000 + b) % 10000 == b
  {
  }

  /** Decoding eight digits: the first four, read as a number, become the
      integer part and the last four are kept as the fraction. */
  lemma FrqFromEightDigits(hi: string, lo: string)
    requires IsDigits(hi) && IsDigits(lo) && |hi| == 4 && |lo| == 4
    ensures FrqFromScanner(hi + lo) == Decimal(NatToString(Value(hi)) + "." + lo)
  {
    ValueConcat(hi, lo);
    assert Pow10(4) == 10000;
    ValueBound(lo);
    DivMod10000(Value(hi), Value(lo));
    PadValueIdentity(lo);
    FrqFromDigits(hi + lo, Value(hi), Value(lo));
  }

  /** Decoding one to eight digits whose number is `q * 10000 + m`. */
  lemma FrqFromDigits(f: string, q: nat, m: nat)
    requires IsDigits(f) && 1 <= |f| <= 8 && Value(f) / 10000 == q && Value(f) % 10000 == m
    ensures FrqFromScanner(f) == Decimal(NatToString(q) + "." + Fixed4(m))
  {
  }

  /** Round trip: encoding "L.R" with digit parts of at most four characters
      and decoding the result gives `str(int(L))`, a point, and R padded
      right with zeros to four digits. */
  lemma FrqRoundTrip(l: string, r: string)
    requires IsDigits(l) && IsDigits(r) && |l| <= 4 && |r| <= 4
    ensures FrqToScanner(l + "." + r).Success?
    ensures FrqFromScanner(FrqToScanner(l + "." + r).value)
         == Decimal(NatToString(Value(l)) + "." + PadRight(r, 4, '0'))
  {
    assert '.' !in l by { assert forall i :: 0 <= i < |l| ==> IsDigit(l[i]); }
    assert '.' !in r by { assert forall i :: 0 <= i < |r| ==> IsDigit(r[i]); }
    FrqToScannerPads(l, r);
    HighDigits(l);
    LowDigits(r);
    FrqFromEightDigits(PadLeft(l, 4, '0'), PadRight(r, 4, '0'));
  }

  lemma HighDigits(l: string)
    requires IsDigits(l) && |l| <= 4
    ensures |PadLeft(l, 4, '0')| == 4 && IsDigits(PadLeft(l, 4, '0'))
    ensures Value(PadLeft(l, 4, '0')) == Value(l)
  {
    assert PadLeft(l, 4, '0') == Repeat('0', 4 - |l|) + l;
    ValueOfZeros(4 - |l|);
    ValueConcat(Repeat('0', 4 - |l|), l);
  }

  lemma LowDigits(r: string)
    requires IsDigits(r) && |r| <= 4
    ensures |PadRight(r, 4, '0')| == 4 && IsDigits(PadRight(r, 4, '0'))
    ensures Value(PadRight(r, 4, '0')) < 10000
  {
    assert PadRight(r, 4, '0') == r + Repeat('0', 4 - |r|);
    ValueOfZeros(4 - |r|);
    ValueConcat(r, Repeat('0', 4 - |r|));
    ValueBound(PadRight(r, 4, '0'));
    assert Pow10(4) == 10000;
  }
}
