/** The decimal reading of JavaScript's `parseInt(text)` used to coerce the
    "number of properties" field: an optional sign, then the longest run of
    decimal digits; anything after that run is ignored, and no digits at all
    gives NaN (here `None`). Leading whitespace and the `0x` radix prefix are
    not modelled. */
module ParseInt {
  import opened Wrappers

  predicate IsDigit(c: char) {
    '0' <= c <= '9'
  }

  function DigitValue(c: char): (d: nat)
    requires IsDigit(c)
    ensures d < 10
  {
    (c as int - '0' as int) as nat
  }

  function DigitChar(d: nat): (c: char)
    requires d < 10
    ensures IsDigit(c) && DigitValue(c) == d
  {
    ('0' as int + d) as char
  }

  predicate AllDigits(s: string) {
    forall i :: 0 <= i < |s| ==> IsDigit(s[i])
  }

  /** Length of the run of digits that starts `s`. */
  function DigitRun(s: string): (n: nat)
    ensures n <= |s|
    ensures forall i :: 0 <= i < n ==> IsDigit(s[i])
    ensures n == |s| || !IsDigit(s[n])
  {
    if |s| == 0 || !IsDigit(s[0]) then 0 else 1 + DigitRun(s[1..])
  }

  function Pow10(n: nat): (p: nat)
    ensures p >= 1
  {
    if n == 0 then 1 else 10 * Pow10(n - 1)
  }

  /** The number a string of decimal digits denotes, most significant first;
      `n` digits denote less than 10^n. */
  function DigitsValue(ds: string): (v: nat)
    requires AllDigits(ds)
    ensures v < Pow10(|ds|)
  {
    if |ds| == 0 then 0
    else 10 * DigitsValue(ds[..|ds| - 1]) + DigitValue(ds[|ds| - 1])
  }

  lemma AllDigitsConcat(a: string, b: string)
    requires AllDigits(a) && AllDigits(b)
    ensures AllDigits(a + b)
  {
    forall i | 0 <= i < |a + b|
      ensures IsDigit((a + b)[i])
    {
      if i >= |a| {
        assert (a + b)[i] == b[i - |a|];
      }
    }
  }

  /** Dropping the last character of `a + b` drops the last character of `b`. */
  lemma ConcatInit(a: string, b: string)
    requires |b| > 0
    ensures (a + b)[..|a + b| - 1] == a + b[..|b| - 1]
    ensures (a + b)[|a + b| - 1] == b[|b| - 1]
  {
  }

  /** One digit appended to both sides of a left shift. */
  lemma ShiftStep(va: int, vb: int, p: int, d: int)
    ensures 10 * (va * p + vb) + d == va * (10 * p) + (10 * vb + d)
  {
  }

  /** Reading `a + b` reads `a`, shifted left by the length of `b`, then `b`. */
  lemma {:induction false} DigitsValueConcat(a: string, b: string)
    requires AllDigits(a) && AllDigits(b)
    ensures AllDigits(a + b)
    ensures DigitsValue(a + b) == DigitsValue(a) * Pow10(|b|) + DigitsValue(b)
  {
    AllDigitsConcat(a, b);
    if |b| == 0 {
      assert a + b == a;
    } else {
      var b' := b[..|b| - 1];
      ConcatInit(a, b);
      DigitsValueConcat(a, b');
      ShiftStep(DigitsValue(a), DigitsValue(b'), Pow10(|b'|), DigitValue(b[|b| - 1]));
    }
  }

  /** A string of '0's reads as zero. */
  lemma {:induction false} DigitsValueZeros(zeros: string)
    requires forall i :: 0 <= i < |zeros| ==> zeros[i] == '0'
    ensures AllDigits(zeros) && DigitsValue(zeros) == 0
  {
    if |zeros| > 0 {
      DigitsValueZeros(zeros[..|zeros| - 1]);
    }
  }

  /** The unsigned part of a parse: the value of the leading digit run. */
  function ParseDigits(s: string): (r: Option<nat>)
    ensures r.None? <==> (|s| == 0 || !IsDigit(s[0]))
  {
    var n := DigitRun(s);
    if n == 0 then None else Some(DigitsValue(s[..n]))
  }

  /** `parseInt(s)` for decimal text: `None` stands for NaN. */
  function Parse(s: string): (r: Option<int>)
    ensures r.None? <==>
      (if |s| > 0 && (s[0] == '-' || s[0] == '+') then |s| == 1 || !IsDigit(s[1])
       else |s| == 0 || !IsDigit(s[0]))
    ensures |s| > 0 && s[0] == '-' && r.Some? ==> r.value <= 0
    ensures !(|s| > 0 && s[0] == '-') && r.Some? ==> r.value >= 0
  {
    if |s| > 0 && s[0] == '-' then
      match ParseDigits(s[1..])
      case Some(v) => Some(-(v as int))
      case None => None
    else if |s| > 0 && s[0] == '+' then
      match ParseDigits(s[1..])
      case Some(v) => Some(v)
      case None => None
    else
      match ParseDigits(s)
      case Some(v) => Some(v)
      case None => None
  }

  /** The shortest decimal spelling of `n`. */
  function Decimal(n: nat): (s: string)
    ensures |s| > 0 && AllDigits(s)
  {
    if n < 10 then [DigitChar(n)] else Decimal(n / 10) + [DigitChar(n % 10)]
  }

  /** Reading back the digits of `Decimal(n)` gives `n`. */
  lemma {:induction false} DigitsValueOfDecimal(n: nat)
    ensures DigitsValue(Decimal(n)) == n
  {
    var s := Decimal(n);
    if n >= 10 {
      DigitsValueOfDecimal(n / 10);
      assert s[..|s| - 1] == Decimal(n / 10);
    }
  }

  /** The digit run of a digit string followed by a non-digit stops exactly
      at the end of the digit string. */
  lemma {:induction false} DigitRunOfDigitsThen(ds: string, tail: string)
    requires AllDigits(ds)
    requires |tail| == 0 || !IsDigit(tail[0])
    ensures DigitRun(ds + tail) == |ds|
  {
    if |ds| > 0 {
      assert (ds + tail)[1..] == ds[1..] + tail;
      DigitRunOfDigitsThen(ds[1..], tail);
    } else {
      assert ds + tail == tail;
    }
  }

  /** A non-empty digit string followed by a non-digit reads as its digits. */
  lemma ParseDigitsThen(ds: string, tail: string)
    requires |ds| > 0 && AllDigits(ds)
    requires |tail| == 0 || !IsDigit(tail[0])
    ensures ParseDigits(ds + tail) == Some(DigitsValue(ds))
  {
    DigitRunOfDigitsThen(ds, tail);
    assert (ds + tail)[..|ds|] == ds;
  }

  /** A sign in front of a digit run only sets the sign of what it reads. */
  lemma ParseSigned(rest: string, v: nat)
    requires ParseDigits(rest) == Some(v)
    ensures Parse(rest) == Some(v)
    ensures Parse("-" + rest) == Some(-(v as int))
    ensures Parse("+" + rest) == Some(v)
  {
    assert ("-" + rest)[1..] == rest;
    assert ("+" + rest)[1..] == rest;
  }

  /** Concatenation regroups freely. */
  lemma Reassociate(a: string, b: string, c: string)
    ensures a + b + c == a + (b + c)
  {
  }

  /** `parseInt` reads back the shortest decimal spelling of `n`, ignoring any
      trailing text that does not start with a digit (a decimal point, a unit). */
  lemma ParseDecimal(n: nat, tail: string)
    requires |tail| == 0 || !IsDigit(tail[0])
    ensures Parse(Decimal(n) + tail) == Some(n)
    ensures Parse("-" + Decimal(n) + tail) == Some(-(n as int))
    ensures Parse("+" + Decimal(n) + tail) == Some(n)
  {
    var d := Decimal(n);
    assert ParseDigits(d + tail) == Some(n) by {
      DigitsValueOfDecimal(n);
      ParseDigitsThen(d, tail);
    }
    ParseSigned(d + tail, n);
    Reassociate("-", d, tail);
    Reassociate("+", d, tail);
  }

  /** Digits of `n` after any number of '0's still read as `n`. */
  lemma DigitsValueZerosThenDecimal(zeros: string, n: nat)
    requires forall i :: 0 <= i < |zeros| ==> zeros[i] == '0'
    ensures AllDigits(zeros + Decimal(n))
    ensures DigitsValue(zeros + Decimal(n)) == n
  {
    DigitsValueZeros(zeros);
    DigitsValueConcat(zeros, Decimal(n));
    DigitsValueOfDecimal(n);
  }

  /** Leading zeros do not change what `parseInt` reads: "007" reads as 7. */
  lemma ParseLeadingZeros(zeros: string, n: nat, tail: string)
    requires forall i :: 0 <= i < |zeros| ==> zeros[i] == '0'
    requires |tail| == 0 || !IsDigit(tail[0])
    ensures Parse(zeros + Decimal(n) + tail) == Some(n)
    ensures Parse("-" + zeros + Decimal(n) + tail) == Some(-(n as int))
    ensures Parse("+" + zeros + Decimal(n) + tail) == Some(n)
  {
    var ds := zeros + Decimal(n);
    assert ParseDigits(ds + tail) == Some(n) by {
      DigitsValueZerosThenDecimal(zeros, n);
      ParseDigitsThen(ds, tail);
    }
    ParseSigned(ds + tail, n);
    Reassociate("-", zeros, Decimal(n));
    Reassociate("-", ds, tail);
    Reassociate("+", zeros, Decimal(n));
    Reassociate("+", ds, tail);
  }
}
