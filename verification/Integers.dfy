/** The number tokens of safe integers: what a counter value looks like as a canonical number. */
module Integers {
  import opened Outcomes
  import opened Canonical

  const MAX_SAFE := 0x1F_FFFF_FFFF_FFFF

  function Digits(n: nat): (t: Text)
    ensures |t| > 0 && forall i :: 0 <= i < |t| ==> IsDigit(t[i])
  {
    if n < 10 then [48 + n] else Digits(n / 10) + [48 + n % 10]
  }

  /** The decimal rendering of an integer. */
  function Decimal(n: int): Number {
    if n >= 0 then Digits(n) else [MINUS] + Digits(-n)
  }

  function Digit(u: Unit): nat { if IsDigit(u) then u - 48 else 0 }

  function DigitsValue(t: Text): nat {
    if t == [] then 0 else DigitsValue(t[..|t| - 1]) * 10 + Digit(t[|t| - 1])
  }

  /** The safe integer a number is, if it is one. */
  function SafeInteger(n: Number): Option<int> {
    var value := if n[0] == MINUS then 0 - DigitsValue(n[1..]) else DigitsValue(n);
    if Decimal(value) == n && -MAX_SAFE <= value <= MAX_SAFE then Some(value) else None
  }

  lemma {:induction false} DigitsRoundTrip(n: nat)
    ensures DigitsValue(Digits(n)) == n
  {
    var t := Digits(n);
    if n >= 10 {
      DigitsRoundTrip(n / 10);
      assert t[..|t| - 1] == Digits(n / 10);
    } else {
      assert t[..0] == [];
    }
  }

  /** Decimal digits without a leading zero. */
  predicate IsWhole(t: Text) {
    t == [48] || (|t| > 0 && 49 <= t[0] <= 57 && forall i :: 0 <= i < |t| ==> IsDigit(t[i]))
  }

  lemma {:induction false} DigitsAreWhole(n: nat)
    ensures IsWhole(Digits(n)) && (n > 0 ==> Digits(n) != [48])
  {
    if n >= 10 {
      DigitsAreWhole(n / 10);
      assert Digits(n)[0] == Digits(n / 10)[0];
    }
  }

  /** Digits without a leading zero are the rendering of their value. */
  lemma {:induction false} WholeIsDigits(t: Text)
    requires IsWhole(t)
    ensures Digits(DigitsValue(t)) == t && (t[0] != 48 ==> DigitsValue(t) > 0)
  {
    var front, last := t[..|t| - 1], t[|t| - 1];
    assert t == front + [last] && IsDigit(last);
    if |t| == 1 {
      assert DigitsValue(front) == 0;
    } else {
      assert front[0] == t[0];
      WholeIsDigits(front);
      assert DigitsValue(t) == DigitsValue(front) * 10 + Digit(last);
      assert DigitsValue(t) / 10 == DigitsValue(front) && DigitsValue(t) % 10 == Digit(last);
    }
  }

  /** An integer is recovered from its rendering, so a counter reads back the number it stored. */
  lemma DecimalRoundTrip(n: int)
    requires -MAX_SAFE <= n <= MAX_SAFE
    ensures SafeInteger(Decimal(n)) == Some(n)
  {
    if n >= 0 {
      DigitsRoundTrip(n);
      assert IsDigit(Digits(n)[0]);
    } else {
      DigitsRoundTrip(-n);
      assert Decimal(n)[1..] == Digits(-n);
    }
  }
}
