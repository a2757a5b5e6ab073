/** Decimal rendering and parsing of integers, as strconv does it: Itoa and
    FormatInt(_, 10) on one side, Atoi and ParseInt(_, 10, 64) on the other. */
module Decimal {
  import opened Options

  const INT64_MIN := -0x8000_0000_0000_0000
  const INT64_MAX := 0x7fff_ffff_ffff_ffff
  const INT32_MIN := -0x8000_0000
  const INT32_MAX := 0x7fff_ffff

  predicate IsInt64(n: int) { INT64_MIN <= n <= INT64_MAX }

  predicate IsInt32(n: int) { INT32_MIN <= n <= INT32_MAX }

  /** Conversion to a 32-bit integer keeps the low 32 bits. */
  function ToInt32(n: int): (r: int)
    ensures IsInt32(r) && (r - n) % 0x1_0000_0000 == 0
  {
    (n + 0x8000_0000) % 0x1_0000_0000 - 0x8000_0000
  }

  predicate IsDigit(c: char) { '0' <= c <= '9' }

  function DigitOf(n: nat): (c: char)
    requires n < 10
    ensures IsDigit(c) && ValueOf(c) == n
  {
    '0' + n as char
  }

  function ValueOf(c: char): (n: nat)
    requires IsDigit(c)
    ensures n < 10
  {
    (c - '0') as nat
  }

  predicate AllDigits(s: string) { forall c <- s :: IsDigit(c) }

  function Digits(n: nat): (s: string)
    ensures |s| > 0 && AllDigits(s)
  {
    if n < 10 then [DigitOf(n)] else Digits(n / 10) + [DigitOf(n % 10)]
  }

  function Itoa(n: int): string {
    if n < 0 then ['-'] + Digits(-n) else Digits(n)
  }

  function Number(s: string): nat
    requires AllDigits(s)
  {
    if |s| == 0 then 0 else 10 * Number(s[..|s| - 1]) + ValueOf(s[|s| - 1])
  }

  /** An optional sign, at least one digit and nothing else, within 64 bits. */
  function Atoi(s: string): Option<int> {
    var signed := |s| > 0 && (s[0] == '-' || s[0] == '+');
    var digits := if signed then s[1..] else s;
    if |digits| == 0 || !AllDigits(digits) then None
    else
      var n: int := if signed && s[0] == '-' then 0 - Number(digits) else Number(digits);
      if IsInt64(n) then Some(n) else None
  }

  lemma {:induction false} NumberOfDigits(n: nat)
    ensures Number(Digits(n)) == n
    decreases n
  {
    if n >= 10 {
      NumberOfDigits(n / 10);
      var s := Digits(n);
      assert s[..|s| - 1] == Digits(n / 10) && s[|s| - 1] == DigitOf(n % 10);
    }
  }

  lemma AtoiOfDigits(digits: string)
    requires |digits| > 0 && AllDigits(digits) && IsInt64(Number(digits))
    ensures Atoi(digits) == Some(Number(digits))
  {
    assert digits[0] in digits;
  }

  lemma AtoiOfNegative(digits: string)
    requires |digits| > 0 && AllDigits(digits) && IsInt64(0 - Number(digits))
    ensures Atoi(['-'] + digits) == Some(0 - Number(digits))
  {
    assert (['-'] + digits)[1..] == digits;
  }

  /** What Itoa writes, Atoi reads back. */
  lemma RoundTrip(n: int)
    requires IsInt64(n)
    ensures Atoi(Itoa(n)) == Some(n)
  {
    if n < 0 {
      NumberOfDigits(-n);
      AtoiOfNegative(Digits(-n));
    } else {
      NumberOfDigits(n);
      AtoiOfDigits(Digits(n));
    }
  }

  /** The word used for an absent value is not the rendering of any number. */
  lemma NilIsNoNumber(n: int)
    ensures Itoa(n) != "nil"
  {
    var s := Itoa(n);
    if n < 0 {
      assert s[0] == '-';
    } else {
      assert s[0] in s && IsDigit(s[0]);
    }
  }

  lemma Int32Exact(n: int)
    requires IsInt32(n)
    ensures ToInt32(n) == n
  {
  }

  /** A character that is no digit, anywhere but at the beginning, spoils a number, and
      so does nothing or a sign alone. */
  lemma GarbageRejected(s: string, i: nat)
    requires |s| < 2 || (0 < i < |s| && !('0' <= s[i] <= '9'))
    ensures |s| == 0 || s == "-" || s == "+" ==> Atoi(s).None?
    ensures |s| >= 2 ==> Atoi(s).None?
  {
    if |s| >= 2 {
      assert s[1..][i - 1] == s[i];
      assert s[i] in s && s[i] in s[1..];
    }
  }
}
