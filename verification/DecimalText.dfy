/**
 * `decimal_text` and the reading of its output: a finite decimal is printed in
 * positional notation with the trailing zeros of its fraction stripped.
 */
module DecimalText {
  import opened Basics

  /** `coef` times ten to the power `exp`. */
  datatype Dec = Dec(coef: int, exp: int)

  function Pow10(n: nat): nat
    ensures Pow10(n) > 0
  {
    if n == 0 then 1 else 10 * Pow10(n - 1)
  }

  /** The decimal point moved `n` places to the right. */
  function Shifted(x: real, n: int): real
    decreases if n < 0 then -n else n
  {
    if n == 0 then x else if n > 0 then Shifted(x * 10.0, n - 1) else Shifted(x / 10.0, n + 1)
  }

  function Value(d: Dec): real {
    Shifted(d.coef as real, d.exp)
  }

  lemma {:induction false} ShiftScales(k: real, x: real, y: real, n: int)
    requires y == k * x
    ensures Shifted(y, n) == k * Shifted(x, n)
    decreases if n < 0 then -n else n
  {
    if n > 0 {
      ShiftScales(k, x * 10.0, y * 10.0, n - 1);
    } else if n < 0 {
      ShiftScales(k, x / 10.0, y / 10.0, n + 1);
    }
  }

  lemma {:induction false} ShiftKeepsSign(x: real, n: int)
    requires x > 0.0
    ensures Shifted(x, n) > 0.0
    decreases if n < 0 then -n else n
  {
    if n > 0 {
      ShiftKeepsSign(x * 10.0, n - 1);
    } else if n < 0 {
      ShiftKeepsSign(x / 10.0, n + 1);
    }
  }

  lemma ShiftTen(x: real, n: int)
    ensures Shifted(x * 10.0, n - 1) == Shifted(x, n)
  {
    if n <= 0 {
      assert x * 10.0 / 10.0 == x;
    }
  }

  /** A factor of a power of ten moves the point. */
  lemma {:induction false} ShiftPow(c: int, j: nat, n: int)
    ensures Shifted((c * Pow10(j)) as real, n) == Shifted(c as real, n + j)
  {
    if j > 0 {
      ShiftPow(c, j - 1, n + 1);
      var x := (c * Pow10(j - 1)) as real;
      assert c * (10 * Pow10(j - 1)) == 10 * (c * Pow10(j - 1));
      assert (c * Pow10(j)) as real == x * 10.0;
      ShiftTen(x, n + 1);
    }
  }

  // ---- digits ----

  predicate IsDigit(c: char) {
    '0' <= c <= '9'
  }

  predicate AllDigits(s: string) {
    forall k :: 0 <= k < |s| ==> IsDigit(s[k])
  }

  function Digits(n: nat): (s: string)
    ensures s != [] && AllDigits(s)
  {
    if n < 10 then ['0' + n as char] else Digits(n / 10) + ['0' + (n % 10) as char]
  }

  function Zeros(n: nat): (s: string)
    ensures |s| == n && AllDigits(s)
  {
    if n == 0 then "" else Zeros(n - 1) + "0"
  }

  function Number(s: string): nat
    requires AllDigits(s)
  {
    if s == "" then 0 else 10 * Number(s[..|s| - 1]) + (s[|s| - 1] - '0') as nat
  }

  lemma {:induction false} NumberOfDigits(n: nat)
    ensures Number(Digits(n)) == n
  {
    if n < 10 {
      assert Digits(n)[..0] == "";
    } else {
      NumberOfDigits(n / 10);
      assert Digits(n)[..|Digits(n)| - 1] == Digits(n / 10);
    }
  }

  lemma Shift(a: nat, p: nat)
    ensures 10 * (a * p) == a * (10 * p)
  {
  }

  lemma {:induction false} NumberConcat(a: string, b: string)
    requires AllDigits(a) && AllDigits(b)
    ensures AllDigits(a + b) && Number(a + b) == Number(a) * Pow10(|b|) + Number(b)
  {
    if b == "" {
      assert a + b == a;
    } else {
      var n := |b| - 1;
      assert (a + b)[..|a + b| - 1] == a + b[..n];
      NumberConcat(a, b[..n]);
      Shift(Number(a), Pow10(n));
    }
  }

  lemma {:induction false} NumberOfZeros(n: nat)
    ensures Number(Zeros(n)) == 0
  {
    if n > 0 {
      NumberOfZeros(n - 1);
      assert Zeros(n)[..n - 1] == Zeros(n - 1);
    }
  }

  // ---- printing ----

  /** `format(d, "f")` of a nonnegative decimal: the integer part and the fraction. */
  function Parts(d: Dec): (string, string)
    requires d.coef >= 0
  {
    var s := Digits(d.coef);
    if d.exp >= 0 then (if d.coef == 0 then s else s + Zeros(d.exp), "")
    else if |s| <= -d.exp then ("0", Zeros(-d.exp - |s|) + s)
    else (s[..|s| + d.exp], s[|s| + d.exp..])
  }

  function StripRight(s: string, c: char): string {
    if s != "" && s[|s| - 1] == c then StripRight(s[..|s| - 1], c) else s
  }

  function PlainText(d: Dec): string
    requires d.coef >= 0
  {
    var (whole, fraction) := Parts(d);
    if fraction == "" then whole else StripRight(StripRight(whole + "." + fraction, '0'), '.')
  }

  function Text(d: Dec): string {
    if d.coef < 0 then "-" + PlainText(Dec(-d.coef, d.exp)) else PlainText(d)
  }

  // ---- reading ----

  /** The first position of a dot, or the length. */
  function DotAt(s: string): (k: nat)
    ensures k <= |s| && (k < |s| ==> s[k] == '.')
    ensures forall j :: 0 <= j < k ==> s[j] != '.'
  {
    if s == "" || s[0] == '.' then 0 else 1 + DotAt(s[1..])
  }

  function Joined(whole: string, fraction: string): Dec
    requires AllDigits(whole) && AllDigits(fraction)
  {
    Dec(Number(whole) * Pow10(|fraction|) + Number(fraction), -|fraction|)
  }

  function ReadPlain(s: string): Option<Dec> {
    var k := DotAt(s);
    var whole, fraction := s[..k], if k < |s| then s[k + 1..] else "";
    if AllDigits(whole) && AllDigits(fraction) && |whole| + |fraction| > 0 then Some(Joined(whole, fraction)) else None
  }

  function Read(s: string): Option<Dec> {
    if s != "" && s[0] == '-' then
      var r := ReadPlain(s[1..]);
      if r.Some? then Some(Dec(-r.value.coef, r.value.exp)) else None
    else ReadPlain(s)
  }

  // ---- the round trip ----

  lemma WholeNumber(n: nat, zeros: nat)
    ensures Number(Digits(n) + Zeros(zeros)) == n * Pow10(zeros)
  {
    NumberOfDigits(n);
    NumberOfZeros(zeros);
    NumberConcat(Digits(n), Zeros(zeros));
  }

  lemma SmallNumber(n: nat, zeros: nat)
    ensures Number(Zeros(zeros) + Digits(n)) == n
  {
    NumberOfDigits(n);
    NumberOfZeros(zeros);
    NumberConcat(Zeros(zeros), Digits(n));
  }

  lemma SplitNumber(s: string, k: nat)
    requires AllDigits(s) && k <= |s|
    ensures Number(s[..k]) * Pow10(|s| - k) + Number(s[k..]) == Number(s)
  {
    NumberConcat(s[..k], s[k..]);
    assert s[..k] + s[k..] == s;
  }

  lemma ZeroPart()
    ensures AllDigits("0") && Number("0") == 0
  {
    assert "0"[..0] == "";
  }

  lemma PartsShape(d: Dec)
    requires d.coef >= 0
    ensures Parts(d).0 != "" && AllDigits(Parts(d).0) && AllDigits(Parts(d).1)
    ensures |Parts(d).1| == if d.exp >= 0 then 0 else -d.exp
  {
  }

  lemma PartsOfWhole(d: Dec)
    requires d.coef >= 0 && d.exp >= 0
    ensures AllDigits(Parts(d).0) && Number(Parts(d).0) == d.coef * Pow10(d.exp)
  {
    WholeNumber(d.coef, d.exp);
    NumberOfDigits(d.coef);
  }

  lemma PartsOfFraction(d: Dec)
    requires d.coef >= 0 && d.exp < 0
    ensures AllDigits(Parts(d).0) && AllDigits(Parts(d).1)
    ensures Number(Parts(d).0) * Pow10(-d.exp) + Number(Parts(d).1) == d.coef
  {
    var s := Digits(d.coef);
    if |s| <= -d.exp {
      SmallNumber(d.coef, -d.exp - |s|);
      ZeroPart();
    } else {
      NumberOfDigits(d.coef);
      SplitNumber(s, |s| + d.exp);
    }
  }

  /** Stripping removes exactly a block of zeros. */
  lemma {:induction false} StripZeros(s: string) returns (j: nat)
    ensures j <= |s| && StripRight(s, '0') == s[..|s| - j] && s[|s| - j..] == Zeros(j)
    ensures StripRight(s, '0') != "" ==> StripRight(s, '0')[|s| - j - 1] != '0'
  {
    if s != "" && s[|s| - 1] == '0' {
      var t := s[..|s| - 1];
      var i := StripZeros(t);
      j := i + 1;
      assert s[..|s| - j] == t[..|t| - i];
      assert s[|s| - j..] == t[|t| - i..] + "0";
    } else {
      j := 0;
      assert s[..|s|] == s;
    }
  }

  lemma {:induction false} StripBehindDot(whole: string, fraction: string)
    ensures StripRight(whole + "." + fraction, '0') == whole + "." + StripRight(fraction, '0')
  {
    var s := whole + "." + fraction;
    if fraction != "" && fraction[|fraction| - 1] == '0' {
      var rest := fraction[..|fraction| - 1];
      assert s[..|s| - 1] == whole + "." + rest;
      StripBehindDot(whole, rest);
    } else {
      assert s[|s| - 1] != '0';
    }
  }

  lemma StripDot(whole: string, kept: string)
    requires AllDigits(whole) && AllDigits(kept)
    ensures StripRight(whole + "." + kept, '.') == if kept == "" then whole else whole + "." + kept
  {
    var s := whole + "." + kept;
    if kept == "" {
      assert s[..|s| - 1] == whole;
      if whole != "" {
        assert IsDigit(whole[|whole| - 1]);
      }
    } else {
      assert s[|s| - 1] == kept[|kept| - 1];
    }
  }

  lemma {:induction false} DotBehind(whole: string, rest: string)
    requires AllDigits(whole) && (rest == "" || rest[0] == '.')
    ensures DotAt(whole + rest) == |whole|
  {
    if whole == "" {
      assert whole + rest == rest;
    } else {
      assert (whole + rest)[1..] == whole[1..] + rest;
      DotBehind(whole[1..], rest);
    }
  }

  lemma ReadWhole(whole: string)
    requires AllDigits(whole) && whole != ""
    ensures ReadPlain(whole) == Some(Dec(Number(whole), 0))
  {
    DotBehind(whole, "");
    assert whole + "" == whole;
    assert whole[..|whole|] == whole;
  }

  lemma PointedSlices(whole: string, kept: string)
    ensures (whole + "." + kept)[..|whole|] == whole && (whole + "." + kept)[|whole| + 1..] == kept
  {
  }

  lemma ReadPointed(whole: string, kept: string)
    requires AllDigits(whole) && AllDigits(kept) && kept != ""
    ensures ReadPlain(whole + "." + kept) == Some(Joined(whole, kept))
  {
    var s := whole + "." + kept;
    assert DotAt(s) == |whole| by {
      DotBehind(whole, "." + kept);
      assert s == whole + ("." + kept);
    }
    PointedSlices(whole, kept);
  }

  lemma {:induction false} Pow10Sum(a: nat, b: nat)
    ensures Pow10(a + b) == Pow10(a) * Pow10(b)
  {
    if a > 0 {
      Pow10Sum(a - 1, b);
      assert a + b - 1 == (a - 1) + b;
      Shift(Pow10(b), Pow10(a - 1));
    }
  }

  lemma Regroup(w: nat, f: nat, p: nat, z: nat)
    ensures (w * p + f) * z == w * (p * z) + f * z
  {
  }

  /** A fraction without its trailing zeros stands for the same coefficient. */
  lemma KeptNumber(whole: string, fraction: string) returns (j: nat)
    requires AllDigits(whole) && AllDigits(fraction)
    ensures j <= |fraction| && StripRight(fraction, '0') == fraction[..|fraction| - j]
    ensures Joined(whole, fraction[..|fraction| - j]).coef * Pow10(j) == Joined(whole, fraction).coef
  {
    j := StripZeros(fraction);
    var kept := fraction[..|fraction| - j];
    SplitNumber(fraction, |kept|);
    NumberOfZeros(j);
    Pow10Sum(|kept|, j);
    Regroup(Number(whole), Number(kept), Pow10(|kept|), Pow10(j));
  }

  lemma SameValue(c: nat, kept: nat, j: nat, d: Dec)
    requires d.exp < 0 && -d.exp == kept + j && c * Pow10(j) == d.coef
    ensures Value(Dec(c, 0 - kept)) == Value(d)
  {
    ShiftPow(c, j, d.exp);
  }

  lemma PlainFraction(d: Dec)
    requires d.coef >= 0 && d.exp < 0
    ensures
      var (whole, kept) := (Parts(d).0, StripRight(Parts(d).1, '0'));
      PlainText(d) == if kept == "" then whole else whole + "." + kept
  {
    PartsShape(d);
    var (whole, fraction) := Parts(d);
    var j := StripZeros(fraction);
    StripBehindDot(whole, fraction);
    StripDot(whole, StripRight(fraction, '0'));
  }

  lemma ReadKept(whole: string, kept: string)
    requires AllDigits(whole) && whole != "" && AllDigits(kept)
    ensures ReadPlain(if kept == "" then whole else whole + "." + kept) == Some(Joined(whole, kept))
  {
    if kept == "" {
      ReadWhole(whole);
    } else {
      ReadPointed(whole, kept);
    }
  }

  lemma KeptValue(whole: string, fraction: string, d: Dec) returns (e: Dec, j: nat)
    requires d.coef >= 0 && d.exp < 0 && whole == Parts(d).0 && fraction == Parts(d).1
    requires AllDigits(whole) && AllDigits(fraction) && |fraction| == -d.exp
    ensures j <= |fraction| && StripRight(fraction, '0') == fraction[..|fraction| - j]
    ensures e == Joined(whole, fraction[..|fraction| - j]) && Value(e) == Value(d)
  {
    PartsOfFraction(d);
    j := KeptNumber(whole, fraction);
    e := Joined(whole, fraction[..|fraction| - j]);
    SameValue(e.coef, |fraction| - j, j, d);
  }

  lemma ReadOfFraction(d: Dec)
    requires d.coef >= 0 && d.exp < 0
    ensures ReadPlain(PlainText(d)).Some? && Value(ReadPlain(PlainText(d)).value) == Value(d)
  {
    PartsShape(d);
    var (whole, fraction) := Parts(d);
    var e, j := KeptValue(whole, fraction, d);
    PlainFraction(d);
    ReadKept(whole, fraction[..|fraction| - j]);
  }

  lemma ReadOfPlain(d: Dec)
    requires d.coef >= 0
    ensures ReadPlain(PlainText(d)).Some? && Value(ReadPlain(PlainText(d)).value) == Value(d)
  {
    PartsShape(d);
    if d.exp >= 0 {
      PartsOfWhole(d);
      ReadWhole(Parts(d).0);
      ShiftPow(d.coef, d.exp, 0);
    } else {
      ReadOfFraction(d);
    }
  }

  lemma PlainTextStarts(d: Dec)
    requires d.coef >= 0
    ensures PlainText(d) != "" && PlainText(d)[0] != '-'
  {
    PartsShape(d);
    var whole := Parts(d).0;
    assert IsDigit(whole[0]);
    if d.exp < 0 {
      PlainFraction(d);
    }
  }

  lemma NegatedValue(d: Dec)
    ensures Value(Dec(-d.coef, d.exp)) == -Value(d)
  {
    ShiftScales(-1.0, d.coef as real, (-d.coef) as real, d.exp);
  }

  lemma ReadSigned(t: string, e: Dec)
    requires ReadPlain(t) == Some(e)
    ensures Read("-" + t) == Some(Dec(-e.coef, e.exp))
  {
    assert ("-" + t)[1..] == t;
  }

  lemma PlainRead(d: Dec) returns (e: Dec)
    requires d.coef >= 0
    ensures ReadPlain(PlainText(d)) == Some(e) && Value(e) == Value(d)
  {
    ReadOfPlain(d);
    e := ReadPlain(PlainText(d)).value;
  }

  lemma ReadOfNegative(d: Dec) returns (n: Dec)
    requires d.coef < 0
    ensures Read(Text(d)) == Some(n) && Value(n) == Value(d)
  {
    var e := PlainRead(Dec(-d.coef, d.exp));
    n := Dec(-e.coef, e.exp);
    ReadSigned(PlainText(Dec(-d.coef, d.exp)), e);
    NegatedValue(d);
    NegatedValue(e);
  }

  /** Every finite decimal survives printing and reading with its value. */
  lemma ReadOfText(d: Dec)
    ensures Read(Text(d)).Some? && Value(Read(Text(d)).value) == Value(d)
  {
    if d.coef < 0 {
      var n := ReadOfNegative(d);
    } else {
      ReadOfPlain(d);
      PlainTextStarts(d);
    }
  }
}
