/** Base-10 integer text conversion as used by the memory store's arithmetic:
    Go's strconv.Atoi and strconv.Itoa on a 64-bit `int`, and the two's-complement
    wrap-around of Go's `int` addition and subtraction. */
module Strconv {

  const MinInt64: int := -0x8000_0000_0000_0000
  const MaxInt64: int := 0x7fff_ffff_ffff_ffff
  const TwoTo64: int := 0x1_0000_0000_0000_0000

  /** A Go `int` (64 bits wide on the platforms the library targets). */
  predicate InInt64(x: int) {
    MinInt64 <= x <= MaxInt64
  }

  /** The two kinds of *strconv.NumError that Atoi reports. */
  datatype NumError = ErrSyntax | ErrRange

  datatype Result<T> = Success(value: T) | Failure(error: NumError)

  predicate IsDigit(c: char) {
    '0' <= c <= '9'
  }

  predicate AllDigits(s: string) {
    forall i :: 0 <= i < |s| ==> IsDigit(s[i])
  }

  function DigitChar(d: nat): (c: char)
    requires d < 10
    ensures IsDigit(c) && c as int - '0' as int == d
  {
    ('0' as int + d) as char
  }

  /** The value of a non-empty run of decimal digits, most significant first. */
  function DigitsValue(s: string): nat
    requires AllDigits(s)
  {
    if s == [] then 0
    else DigitsValue(s[..|s| - 1]) * 10 + (s[|s| - 1] as int - '0' as int)
  }

  /** The shortest decimal spelling of `n`: no sign, no leading zero. */
  function Digits(n: nat): (s: string)
    ensures |s| > 0 && AllDigits(s)
    ensures n > 0 || |s| > 1 ==> s[0] != '0'
  {
    if n < 10 then [DigitChar(n)] else Digits(n / 10) + [DigitChar(n % 10)]
  }

  /** strconv.Itoa: decimal text with a leading '-' exactly for negative numbers,
      and no leading zero other than the "0" of zero itself. */
  function Itoa(n: int): (s: string)
    ensures |s| > 0
    ensures (s[0] == '-') == (n < 0)
    ensures n < 0 ==> |s| > 1 && AllDigits(s[1..]) && s[1] != '0'
    ensures n >= 0 ==> AllDigits(s)
    ensures n >= 0 && |s| > 1 ==> s[0] != '0'
  {
    if n < 0 then "-" + Digits(-n) else Digits(n)
  }

  /** The sign Atoi accepts in front of the digits: '-' negates, '+' is ignored. */
  function SignAndBody(s: string): (r: (bool, string))
    ensures |r.1| <= |s|
    ensures r.0 ==> |s| > 0 && s[0] == '-'
  {
    if |s| > 0 && (s[0] == '+' || s[0] == '-') then (s[0] == '-', s[1..]) else (false, s)
  }

  /** The text Atoi accepts: an optional '+' or '-', then one or more ASCII digits. */
  predicate Decimal(s: string) {
    || (|s| > 0 && AllDigits(s))
    || (|s| > 1 && (s[0] == '+' || s[0] == '-') && AllDigits(s[1..]))
  }

  /** The number a Decimal text spells, leading zeros and a '+' sign allowed. */
  function DecimalValue(s: string): int
    requires Decimal(s)
  {
    if s[0] == '-' then -(DigitsValue(s[1..]) as int)
    else if s[0] == '+' then DigitsValue(s[1..])
    else DigitsValue(s)
  }

  /** strconv.Atoi: an optional sign followed by one or more ASCII digits whose value
      fits a 64-bit int; anything else without digits-only shape is a syntax error,
      and a well-formed number outside the int64 range is a range error. */
  function Atoi(s: string): (r: Result<int>)
    ensures s == [] ==> r == Failure(ErrSyntax)
    ensures r.Success? ==> InInt64(r.value)
    ensures r.Success? ==> exists i :: 0 <= i < |s| && IsDigit(s[i])
    ensures r == Failure(ErrSyntax) <==> !Decimal(s)
    ensures Decimal(s) && InInt64(DecimalValue(s)) ==> r == Success(DecimalValue(s))
    ensures Decimal(s) && !InInt64(DecimalValue(s)) ==> r == Failure(ErrRange)
  {
    var (negative, body) := SignAndBody(s);
    if body == [] || !AllDigits(body) then
      Failure(ErrSyntax)
    else
      assert IsDigit(body[0]);
      assert body[0] == s[|s| - |body|];
      var v: int := if negative then -(DigitsValue(body) as int) else DigitsValue(body);
      if InInt64(v) then Success(v) else Failure(ErrRange)
  }

  /** Go's `int` addition and subtraction on 64 bits: the unbounded result reduced
      into the int64 range modulo 2^64. */
  function Wrap64(x: int): (r: int)
    ensures InInt64(r)
    ensures (r - x) % TwoTo64 == 0
    ensures InInt64(x) ==> r == x
  {
    (x - MinInt64) % TwoTo64 + MinInt64
  }

  lemma {:induction false} DigitsValueOfDigits(n: nat)
    ensures DigitsValue(Digits(n)) == n
  {
    var s := Digits(n);
    if n >= 10 {
      DigitsValueOfDigits(n / 10);
      assert s[..|s| - 1] == Digits(n / 10);
    }
  }

  /** Parsing a formatted Go int gives it back. */
  lemma {:induction false} AtoiItoa(n: int)
    requires InInt64(n)
    ensures Atoi(Itoa(n)) == Success(n)
  {
    var s := Itoa(n);
    if n < 0 {
      DigitsValueOfDigits(-n);
      assert SignAndBody(s) == (true, Digits(-n));
    } else {
      DigitsValueOfDigits(n);
      assert IsDigit(s[0]);
      assert SignAndBody(s) == (false, Digits(n));
    }
  }
}
