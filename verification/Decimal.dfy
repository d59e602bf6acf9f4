/** 64-bit Go integers and their decimal text: `strconv.Itoa` and `strconv.Atoi`. */
module Decimal {
  import opened Resources

  const MAX_INT: int := 0x7FFF_FFFF_FFFF_FFFF
  const MIN_INT: int := -0x8000_0000_0000_0000
  const TWO_TO_64: int := 0x1_0000_0000_0000_0000

  predicate IsInt(n: int) {
    MIN_INT <= n <= MAX_INT
  }

  /** The 64-bit result of arithmetic whose exact result is `n`. */
  function Wrap(n: int): (r: int)
    ensures IsInt(r) && (r - n) % TWO_TO_64 == 0
    ensures IsInt(n) ==> r == n
  {
    var m := n % TWO_TO_64;
    if m > MAX_INT then m - TWO_TO_64 else m
  }

  function DigitChar(d: nat): char
    requires d < 10
  {
    '0' + d as char
  }

  predicate IsDigit(c: char) {
    '0' <= c <= '9'
  }

  function DigitsOf(n: nat): (s: string)
    ensures s != "" && forall c :: c in s ==> IsDigit(c)
  {
    if n < 10 then [DigitChar(n)] else DigitsOf(n / 10) + [DigitChar(n % 10)]
  }

  function DigitValue(c: char): nat
    requires IsDigit(c)
  {
    (c - '0') as nat
  }

  function ValueOf(s: string): nat
    requires forall c :: c in s ==> IsDigit(c)
  {
    if s == "" then 0
    else 10 * ValueOf(s[..|s| - 1]) + DigitValue(s[|s| - 1])
  }

  function Itoa(n: int): (s: string)
    ensures s != ""
  {
    if n < 0 then "-" + DigitsOf(-n) else DigitsOf(n)
  }

  /** The text is decimal: one digit for small numbers, one more for each factor of ten, and a sign. */
  lemma ItoaIsDecimal(n: nat, d: nat)
    requires d < 10
    ensures Itoa(d) == ["0123456789"[d]]
    ensures n > 0 ==> Itoa(10 * n + d) == Itoa(n) + ["0123456789"[d]]
    ensures n > 0 ==> Itoa(0 - n) == "-" + Itoa(n)
  {
    assert DigitChar(d) == "0123456789"[d];
    if n > 0 {
      assert (10 * n + d) / 10 == n && (10 * n + d) % 10 == d;
    }
  }

  /** An optional sign and at least one digit, within the range of an `int`. */
  function Atoi(s: string): Result<int> {
    var signed := s != "" && (s[0] == '-' || s[0] == '+');
    var digits := if signed then s[1..] else s;
    if digits == "" || exists c :: c in digits && !IsDigit(c) then Err("invalid syntax")
    else
      var value: int := (if signed && s[0] == '-' then -1 else 1) * ValueOf(digits);
      if IsInt(value) then Ok(value) else Err("value out of range")
  }

  /** Text with anything but digits and signs is no number, and neither is the empty text. */
  lemma AtoiRefuses(s: string, c: char)
    ensures Atoi("").Err?
    ensures c in s && !IsDigit(c) && c != '-' && c != '+' ==> Atoi(s).Err?
  {
    if c in s && !IsDigit(c) && c != '-' && c != '+' {
      var k :| 0 <= k < |s| && s[k] == c;
      assert k > 0 ==> s[1..][k - 1] == c;
    }
  }

  lemma {:induction false} ValueOfDigits(n: nat)
    ensures ValueOf(DigitsOf(n)) == n
  {
    if n >= 10 {
      ValueOfDigits(n / 10);
      var s := DigitsOf(n);
      assert s[..|s| - 1] == DigitsOf(n / 10);
    } else {
      assert DigitsOf(n)[..0] == "";
    }
  }

  /** Every `int` survives being printed as a token and parsed again. */
  lemma AtoiOfItoa(n: int)
    requires IsInt(n)
    ensures Atoi(Itoa(n)) == Ok(n)
  {
    var m := if n < 0 then -n else n;
    ValueOfDigits(m);
    assert IsDigit(DigitsOf(m)[0]);
    if n < 0 {
      assert Itoa(n)[1..] == DigitsOf(m);
    }
  }
}
