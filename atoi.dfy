/** Decimal integer fields of a management line, read the way Go's
    `strconv.Atoi` reads them, with every failure read as zero. */
module Atoi {
  import opened Bytes

  predicate IsDigit(b: byte)
  {
    '0' <= b <= '9'
  }

  predicate AllDigits(s: seq<byte>)
  {
    forall i | 0 <= i < |s| :: IsDigit(s[i])
  }

  /** The value of a string of decimal digits, most significant first. */
  function DigitsValue(s: seq<byte>): nat
    requires AllDigits(s)
  {
    if |s| == 0 then 0
    else DigitsValue(s[..|s| - 1]) * 10 + (s[|s| - 1] as int - '0' as int)
  }

  /** An optional `+` or `-` followed by at least one decimal digit: the only
      shape `strconv.Atoi` accepts. */
  predicate IsDecimal(s: seq<byte>)
  {
    || (|s| >= 1 && AllDigits(s))
    || (|s| >= 2 && (s[0] == '+' || s[0] == '-') && AllDigits(s[1..]))
  }

  /** A count field: its decimal value, or 0 when the field is empty or not a
      number. */
  function ParseOrZero(s: seq<byte>): (n: int)
    ensures !IsDecimal(s) ==> n == 0
    ensures n < 0 ==> s[0] == '-'
  {
    if |s| >= 1 && AllDigits(s) then DigitsValue(s)
    else if |s| >= 2 && s[0] == '+' && AllDigits(s[1..]) then DigitsValue(s[1..])
    else if |s| >= 2 && s[0] == '-' && AllDigits(s[1..]) then 0 - DigitsValue(s[1..]) as int
    else 0
  }

  /** The decimal digits of `n`, without leading zeros. */
  function Decimal(n: nat): (s: seq<byte>)
    ensures |s| >= 1 && AllDigits(s)
    ensures |s| > 1 ==> s[0] != '0'
  {
    if n < 10 then [ByteOf('0' as int + n)]
    else Decimal(n / 10) + [ByteOf('0' as int + n % 10)]
  }

  /** Reading back the decimal digits of any count gives that count. */
  lemma {:induction false} DigitsValueDecimal(n: nat)
    ensures DigitsValue(Decimal(n)) == n
  {
    var s := Decimal(n);
    if n >= 10 {
      DigitsValueDecimal(n / 10);
      assert s[..|s| - 1] == Decimal(n / 10);
    }
  }

  /** Reading a count field written in decimal gives the count back. */
  lemma ParseOrZeroDecimal(n: nat)
    ensures ParseOrZero(Decimal(n)) == n
  {
    DigitsValueDecimal(n);
  }

  /** A leading zero does not change the value of a digit string. */
  lemma {:induction false} DigitsValueLeadingZero(s: seq<byte>)
    requires AllDigits(s)
    ensures AllDigits(['0'] + s) && DigitsValue(['0'] + s) == DigitsValue(s)
  {
    var z: seq<byte> := ['0'] + s;
    if |s| > 0 {
      assert z[..|z| - 1] == ['0'] + s[..|s| - 1];
      DigitsValueLeadingZero(s[..|s| - 1]);
    }
  }

  /** A count field written with leading zeros reads as the count. */
  lemma {:induction false} ParseOrZeroLeadingZeros(k: nat, n: nat)
    ensures ParseOrZero(Zeros(k) + Decimal(n)) == n
  {
    DigitsValueZeros(k, n);
    assert AllDigits(Zeros(k) + Decimal(n));
  }

  lemma {:induction false} DigitsValueZeros(k: nat, n: nat)
    ensures AllDigits(Zeros(k) + Decimal(n)) && DigitsValue(Zeros(k) + Decimal(n)) == n
  {
    if k == 0 {
      assert Zeros(k) + Decimal(n) == Decimal(n);
      DigitsValueDecimal(n);
    } else {
      DigitsValueZeros(k - 1, n);
      DigitsValueLeadingZero(Zeros(k - 1) + Decimal(n));
      assert Zeros(k) + Decimal(n) == ['0'] + (Zeros(k - 1) + Decimal(n));
    }
  }

  /** `k` zero digits. */
  function Zeros(k: nat): (s: seq<byte>)
    ensures |s| == k && AllDigits(s)
  {
    if k == 0 then [] else ['0'] + Zeros(k - 1)
  }
}
