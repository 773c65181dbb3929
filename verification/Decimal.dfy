/**
  Decimal printing and parsing of Go's 64-bit `int`, as `strconv.Itoa` and `strconv.Atoi`
  do it, and the `int32(v)` conversion that follows the parse in the wake-up path.
 */
module Decimal {
  import opened Wrappers

  type int32 = n: int | -0x8000_0000 <= n < 0x8000_0000

  const MIN_INT := -0x8000_0000_0000_0000
  const MAX_INT := 0x7fff_ffff_ffff_ffff

  // ----- Printing -----

  function Digit(d: int): char
    requires 0 <= d < 10
  {
    ('0' as int + d) as char
  }

  function Digits(n: nat): string {
    if n < 10 then [Digit(n)] else Digits(n / 10) + [Digit(n % 10)]
  }

  function Itoa(n: int): string {
    if n < 0 then "-" + Digits(-n) else Digits(n)
  }

  function FormatBool(b: bool): string {
    if b then "true" else "false"
  }

  // ----- Parsing -----

  predicate IsDigit(c: char) {
    '0' <= c <= '9'
  }

  predicate AllDigits(s: string) {
    forall i :: 0 <= i < |s| ==> IsDigit(s[i])
  }

  function Magnitude(s: string): nat
    requires AllDigits(s)
  {
    if s == "" then 0
    else Magnitude(s[..|s| - 1]) * 10 + (s[|s| - 1] as int - '0' as int)
  }

  /** An optional sign, at least one digit, and a value inside the 64-bit range. */
  function Atoi(s: string): Option<int> {
    var negative := s != "" && s[0] == '-';
    var digits := if s != "" && (s[0] == '-' || s[0] == '+') then s[1..] else s;
    if digits == "" || !AllDigits(digits) then None
    else
      var m: int := Magnitude(digits);
      var n := if negative then -m else m;
      if MIN_INT <= n <= MAX_INT then Some(n) else None
  }

  /** Go's `int32(v)`: the low 32 bits, read as a signed number. */
  function Wrap32(n: int): int32 {
    (n + 0x8000_0000) % 0x1_0000_0000 - 0x8000_0000
  }

  // ----- Round trip -----

  lemma {:induction false} DigitsReadBack(n: nat)
    ensures Digits(n) != "" && AllDigits(Digits(n)) && Magnitude(Digits(n)) == n
  {
    if n < 10 {
      assert Digits(n)[..0] == "";
    } else {
      DigitsReadBack(n / 10);
      var s := Digits(n);
      assert s[..|s| - 1] == Digits(n / 10);
    }
  }

  lemma AtoiPlain(digits: string)
    requires digits != "" && AllDigits(digits) && Magnitude(digits) <= MAX_INT
    ensures Atoi(digits) == Some(Magnitude(digits))
  {
    hide Magnitude;
    assert IsDigit(digits[0]);
  }

  lemma AtoiMinus(digits: string)
    requires digits != "" && AllDigits(digits) && Magnitude(digits) <= -MIN_INT
    ensures Atoi("-" + digits) == Some(0 - Magnitude(digits))
  {
    hide Magnitude;
    assert ("-" + digits)[1..] == digits;
  }

  /** Parsing a printed number gives that number back, over the whole 64-bit range. */
  lemma AtoiItoa(n: int)
    requires MIN_INT <= n <= MAX_INT
    ensures Atoi(Itoa(n)) == Some(n)
  {
    hide Atoi, Magnitude, Digits;
    if n < 0 {
      DigitsReadBack(-n);
      AtoiMinus(Digits(-n));
    } else {
      DigitsReadBack(n);
      AtoiPlain(Digits(n));
    }
  }

  lemma ItoaInjective(m: int, n: int)
    requires MIN_INT <= m <= MAX_INT && MIN_INT <= n <= MAX_INT
    ensures Itoa(m) == Itoa(n) <==> m == n
  {
    hide Itoa, Atoi;
    AtoiItoa(m);
    AtoiItoa(n);
  }

  lemma {:induction false} DigitsAreShort(n: nat)
    ensures Digits(n) != "" && (Digits(n)[0] == '0' <==> n == 0)
  {
    if n < 10 {
    } else {
      DigitsAreShort(n / 10);
      assert Digits(n)[0] == Digits(n / 10)[0];
    }
  }

  /** The printed form has a sign only below zero, and no leading zero but for zero itself. */
  lemma ItoaIsCanonical(n: int)
    ensures var s := Itoa(n);
            && s != "" && (s[0] == '-' <==> n < 0) && s[0] != '+'
            && (forall i :: 0 < i < |s| ==> IsDigit(s[i]))
            && (s[0] == '0' <==> n == 0) && (n < 0 ==> |s| > 1 && s[1] != '0')
            && (n == 0 ==> s == "0")
  {
    var digits := Digits(if n < 0 then -n else n);
    DigitsAreShort(if n < 0 then -n else n);
    DigitsReadBack(if n < 0 then -n else n);
    if n < 0 {
      assert forall i :: 0 < i < |Itoa(n)| ==> Itoa(n)[i] == digits[i - 1];
    } else {
      assert IsDigit(digits[0]);
    }
  }

  /** Spelt as a decimal number: digits, at least one, after at most one sign. */
  predicate Numeral(s: string) {
    && s != "" && (|s| == 1 ==> IsDigit(s[0]))
    && (IsDigit(s[0]) || s[0] == '-' || s[0] == '+')
    && forall i :: 0 < i < |s| ==> IsDigit(s[i])
  }

  lemma {:induction false} LeadingZero(s: string)
    requires AllDigits(s)
    ensures AllDigits("0" + s) && Magnitude("0" + s) == Magnitude(s)
  {
    if s == "" {
      assert ("0" + s)[..0] == "";
    } else {
      var k := |s| - 1;
      LeadingZero(s[..k]);
      assert ("0" + s)[..k + 1] == "0" + s[..k];
    }
  }

  /**
    What is parsed: a text that is not a numeral is rejected, a printed number with a zero or
    a plus sign put before it is still that number, and nothing outside 64 bits comes out.
   */
  lemma AtoiAccepts(s: string, n: nat)
    ensures Atoi(s).Some? ==> Numeral(s) && MIN_INT <= Atoi(s).value <= MAX_INT
    ensures Numeral(s) && |s| <= 18 ==> Atoi(s).Some?
    ensures n <= MAX_INT ==> Atoi("0" + Itoa(n)) == Atoi("+" + Itoa(n)) == Some(n)
  {
    var digits := if s != "" && (s[0] == '-' || s[0] == '+') then s[1..] else s;
    assert AllDigits(digits) <==> forall i :: |s| - |digits| <= i < |s| ==> IsDigit(s[i]) by {
      assert forall i :: 0 <= i < |digits| ==> digits[i] == s[i + |s| - |digits|];
      assert forall i :: |s| - |digits| <= i < |s| ==> s[i] == digits[i - (|s| - |digits|)];
    }
    if digits != "" && AllDigits(digits) {
      MagnitudeBound(digits);
    }
    DigitsReadBack(n);
    LeadingZero(Digits(n));
    if n <= MAX_INT {
      AtoiPlain("0" + Digits(n));
      AtoiPlus(Digits(n));
    }
  }

  lemma AtoiPlus(digits: string)
    requires digits != "" && AllDigits(digits) && Magnitude(digits) <= MAX_INT
    ensures Atoi("+" + digits) == Some(Magnitude(digits))
  {
    hide Magnitude;
    assert ("+" + digits)[1..] == digits;
  }

  function Power10(n: nat): nat {
    if n == 0 then 1 else 10 * Power10(n - 1)
  }

  lemma {:induction false} MagnitudeBound(s: string)
    requires AllDigits(s)
    ensures Magnitude(s) < Power10(|s|)
    ensures |s| <= 18 ==> Magnitude(s) <= MAX_INT
  {
    if s == "" {
    } else {
      MagnitudeBound(s[..|s| - 1]);
    }
    if |s| <= 18 {
      PowersGrow(|s|, 18);
      PowerOf18();
    }
  }

  lemma {:induction false} PowersGrow(m: nat, n: nat)
    requires m <= n
    ensures Power10(m) <= Power10(n)
    decreases n - m
  {
    if m == n {
    } else {
      PowersGrow(m + 1, n);
    }
  }

  lemma PowerOf18()
    ensures Power10(18) == 1_000_000_000_000_000_000
  {
    assert Power10(4) == 10_000;
    assert Power10(8) == 100_000_000;
    assert Power10(12) == 1_000_000_000_000;
    assert Power10(16) == 10_000_000_000_000_000;
  }

  lemma Wrap32Congruent(n: int)
    ensures (Wrap32(n) - n) % 0x1_0000_0000 == 0
    ensures -0x8000_0000 <= n < 0x8000_0000 ==> Wrap32(n) == n
  {
  }
}
