/** std::stoi, std::to_string and 32-bit int arithmetic as the server uses them. */
module Integers {
  import opened Text

  const INT_MIN: int := -0x8000_0000
  const INT_MAX: int := 0x7fff_ffff

  predicate InRange(n: int) {
    INT_MIN <= n <= INT_MAX
  }

  // The value a 32-bit int holds for the mathematical result n.
  function Wrap32(n: int): (r: int)
    ensures InRange(r)
    ensures InRange(n) ==> r == n
    ensures (r - n) % 0x1_0000_0000 == 0
  {
    (n - INT_MIN) % 0x1_0000_0000 + INT_MIN
  }

  lemma WrapSuccessor(n: int)
    ensures Wrap32(Wrap32(n) + 1) == Wrap32(n + 1)
  {
    var m := 0x1_0000_0000;
    var k, j, i := (n - INT_MIN) / m, (n + 1 - INT_MIN) / m, (Wrap32(n) + 1 - INT_MIN) / m;
    assert Wrap32(n) == n - m * k;
    assert Wrap32(n + 1) == n + 1 - m * j;
    assert Wrap32(Wrap32(n) + 1) == n + 1 - m * k - m * i;
  }

  function Abs(n: int): nat {
    if n < 0 then -n else n
  }

  // Integer division of C++: the quotient is truncated toward zero.
  function TruncDiv(a: int, b: int): int
    requires b != 0
  {
    var q := Abs(a) / Abs(b);
    if (a < 0) == (b < 0) then q else -q
  }

  // The quotient leaves a remainder smaller than the divisor that carries the dividend's sign.
  lemma TruncDivMeaning(a: int, b: int)
    requires b != 0
    ensures Abs(a - TruncDiv(a, b) * b) < Abs(b)
    ensures a >= 0 ==> a - TruncDiv(a, b) * b >= 0
    ensures a <= 0 ==> a - TruncDiv(a, b) * b <= 0
  {
    var q, m := Abs(a) / Abs(b), Abs(a) % Abs(b);
    assert Abs(a) == Abs(b) * q + m && 0 <= m < Abs(b);
    NegatedFactors(q, b);
    assert TruncDiv(a, b) * b == if a < 0 then -(Abs(b) * q) else Abs(b) * q;
  }

  lemma NegatedFactors(q: int, b: int)
    ensures (-q) * b == -(b * q) && q * (-b) == -(b * q) && (-q) * (-b) == b * q && q * b == b * q
  {
  }

  function Digit(d: nat): char
    requires d < 10
  {
    '0' + d as char
  }

  function DigitValue(c: char): nat
    requires IsDigit(c)
  {
    (c - '0') as int
  }

  // Decimal text without leading zeros.
  function NatText(n: nat): string {
    if n < 10 then [Digit(n)] else NatText(n / 10) + [Digit(n % 10)]
  }

  function ToString(n: int): string {
    if n < 0 then ['-'] + NatText(-n) else NatText(n)
  }

  predicate AllDigits(s: string) {
    forall i :: 0 <= i < |s| ==> IsDigit(s[i])
  }

  function DigitsValue(s: string): nat
    requires AllDigits(s)
  {
    if s == [] then 0 else 10 * DigitsValue(s[..|s| - 1]) + DigitValue(s[|s| - 1])
  }

  // The longest prefix of digits.
  function DigitPrefix(s: string): (d: string)
    ensures AllDigits(d) && d <= s
    ensures |d| < |s| ==> !IsDigit(s[|d|])
  {
    if s != [] && IsDigit(s[0]) then [s[0]] + DigitPrefix(s[1..]) else []
  }

  datatype Parsed = Number(n: int) | NotANumber | OutOfRange

  // Leading white space, an optional sign and the longest run of digits; what follows is ignored.
  function Stoi(s: string): Parsed {
    var u := SkipSpace(s);
    var negative := u != [] && u[0] == '-';
    var digits := DigitPrefix(if u != [] && (u[0] == '-' || u[0] == '+') then u[1..] else u);
    if digits == [] then NotANumber
    else
      var magnitude: int := DigitsValue(digits);
      var n := if negative then -magnitude else magnitude;
      if InRange(n) then Number(n) else OutOfRange
  }

  lemma {:induction false} NatTextDigits(n: nat)
    ensures NatText(n) != [] && AllDigits(NatText(n)) && DigitsValue(NatText(n)) == n
  {
    if n >= 10 {
      NatTextDigits(n / 10);
      var s := NatText(n);
      assert s[..|s| - 1] == NatText(n / 10);
    } else {
      assert NatText(n)[..0] == [];
    }
  }

  lemma {:induction false} DigitPrefixOfDigits(s: string)
    requires AllDigits(s)
    ensures DigitPrefix(s) == s
  {
    if s != [] {
      DigitPrefixOfDigits(s[1..]);
    }
  }

  // Printing an int and parsing it back is the identity, for every 32-bit int.
  lemma StoiUndoesToString(n: int)
    requires InRange(n)
    ensures Stoi(ToString(n)) == Number(n)
  {
    var d := NatText(Abs(n));
    NatTextDigits(Abs(n));
    DigitPrefixOfDigits(d);
    if n < 0 {
      assert ToString(n)[1..] == d;
    }
  }

  function Pow10(k: nat): nat {
    if k == 0 then 1 else 10 * Pow10(k - 1)
  }

  lemma {:induction false} NatTextLength(n: nat, k: nat)
    requires k > 0 && n < Pow10(k)
    ensures |NatText(n)| <= k
  {
    if n >= 10 {
      assert k > 1 by {
        assert Pow10(1) == 10;
      }
      NatTextLength(n / 10, k - 1);
    }
  }

  // The text of a 32-bit int is a legal value of at most 11 characters.
  lemma ToStringIsValue(n: int)
    requires InRange(n)
    ensures IsValue(ToString(n)) && |ToString(n)| <= 11 && '\0' !in ToString(n)
  {
    NatTextDigits(Abs(n));
    assert Pow10(10) == 100_0000_0000 by {
      assert Pow10(5) == 10_0000;
    }
    NatTextLength(Abs(n), 10);
  }
}
