/** JavaScript strings as sequences of UTF-16 code units, and the decimal
    numerals the bridge writes into them. */
module Texts {

  datatype Option<+T> = None | Some(value: T)

  newtype CodeUnit = x: int | 0 <= x < 0x1_0000

  type Text = seq<CodeUnit>

  function Max(a: int, b: int): int {
    if a < b then b else a
  }

  function Min(a: int, b: int): int {
    if a < b then a else b
  }

  predicate IsDigit(u: CodeUnit) {
    48 <= u <= 57
  }

  predicate AllDigits(s: Text) {
    forall i | 0 <= i < |s| :: IsDigit(s[i])
  }

  /** `String(n)` for a non-negative integer. */
  function Decimal(n: nat): (s: Text)
    ensures 1 <= |s| && AllDigits(s)
  {
    if n < 10 then [(48 + n) as CodeUnit]
    else Decimal(n / 10) + [(48 + n % 10) as CodeUnit]
  }

  /** `Number(s)` for a run of decimal digits; leading zeros are allowed. */
  function ParseDecimal(s: Text): nat
    requires AllDigits(s)
  {
    if s == [] then 0
    else ParseDecimal(s[..|s| - 1]) * 10 + (s[|s| - 1] as int - 48)
  }

  function Digits(n: nat): (d: nat)
    ensures d >= 1
  {
    |Decimal(n)|
  }

  /** Printing a count and reading it back is the identity. */
  lemma {:induction false} ParsePrint(n: nat)
    ensures ParseDecimal(Decimal(n)) == n
  {
    if n >= 10 {
      ParsePrint(n / 10);
      var s := Decimal(n);
      assert s[..|s| - 1] == Decimal(n / 10);
    }
  }

  lemma {:induction false} DigitsMonotone(a: nat, b: nat)
    requires a <= b
    ensures Digits(a) <= Digits(b)
  {
    if b >= 10 && a >= 10 {
      DigitsMonotone(a / 10, b / 10);
    }
  }

  /** From 2 on, a number has at most half as many digits as its value. */
  lemma {:induction false} DigitsAtMostHalf(n: nat)
    requires n >= 2
    ensures Digits(n) <= n / 2
  {
    if 10 <= n < 20 {
      assert Digits(n / 10) == 1;
    } else if n >= 20 {
      DigitsAtMostHalf(n / 10);
    }
  }

  /** Counting one further adds at most one digit. */
  lemma {:induction false} DigitsSuccessor(n: nat)
    ensures Digits(n + 1) <= Digits(n) + 1
  {
    if n + 1 >= 10 {
      if n < 10 {
        assert Digits((n + 1) / 10) == 1;
      } else if n % 10 == 9 {
        assert (n + 1) / 10 == n / 10 + 1;
        DigitsSuccessor(n / 10);
      } else {
        assert (n + 1) / 10 == n / 10;
      }
    }
  }

  /** Whitespace as `trim` knows it. */
  predicate IsSpace(u: CodeUnit) {
    || 9 <= u <= 13 || u == 0x20 || u == 0xA0 || u == 0x1680 || 0x2000 <= u <= 0x200A
    || u == 0x2028 || u == 0x2029 || u == 0x202F || u == 0x205F || u == 0x3000 || u == 0xFEFF
  }

  /** `text.trim()` is not empty. */
  predicate HasText(s: Text) {
    exists i :: 0 <= i < |s| && !IsSpace(s[i])
  }
}
