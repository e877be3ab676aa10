/** Decimal text of int64 values (strconv.FormatInt and strconv.ParseInt, base 10, 64 bits) and the
    float64 form that a JSON number takes when it is decoded into an interface value. */
module Decimal {
  import opened Wrappers

  const MIN_INT64 := -0x8000_0000_0000_0000
  const MAX_INT64 := 0x7FFF_FFFF_FFFF_FFFF
  const TWO_TO_THE_53 := 0x20_0000_0000_0000

  predicate IsInt64(n: int) { MIN_INT64 <= n <= MAX_INT64 }

  type int64 = n: int | IsInt64(n) witness 0

  datatype ParseError = Syntax | OutOfRange

  // ----- Formatting

  function DigitChar(d: int): char
    requires 0 <= d < 10
  {
    '0' + d as char
  }

  function Digits(n: nat): string {
    if n < 10 then [DigitChar(n)] else Digits(n / 10) + [DigitChar(n % 10)]
  }

  function FormatInt(n: int): string {
    if n < 0 then "-" + Digits(-n) else Digits(n)
  }

  // ----- Parsing

  predicate IsDigit(c: char) { '0' <= c <= '9' }

  predicate AllDigits(s: string) { forall i :: 0 <= i < |s| ==> IsDigit(s[i]) }

  function Magnitude(s: string): nat
    requires AllDigits(s)
  {
    if s == "" then 0 else 10 * Magnitude(s[..|s| - 1]) + (s[|s| - 1] as int - '0' as int)
  }

  /** An optional sign, then one or more decimal digits, whose value must fit in an int64. */
  function ParseInt(s: string): Result<int, ParseError> {
    var negative := s != "" && s[0] == '-';
    var body := if s != "" && (s[0] == '-' || s[0] == '+') then s[1..] else s;
    if body == "" || !AllDigits(body) then Err(Syntax)
    else
      var m: int := Magnitude(body);
      var n := if negative then -m else m;
      if IsInt64(n) then Ok(n) else Err(OutOfRange)
  }

  lemma {:induction false} DigitsParse(n: nat)
    ensures Digits(n) != "" && AllDigits(Digits(n)) && Magnitude(Digits(n)) == n
  {
    if n < 10 {
      assert Digits(n)[..0] == "";
    } else {
      DigitsParse(n / 10);
      var s := Digits(n);
      assert s[..|s| - 1] == Digits(n / 10);
    }
  }

  /** Printing an id and parsing it back is the identity on all of int64, and fails on nothing else. */
  lemma FormatParse(n: int)
    ensures ParseInt(FormatInt(n)) == if IsInt64(n) then Ok(n) else Err(OutOfRange)
  {
    var m := if n < 0 then -n else n;
    DigitsParse(m);
    assert IsDigit(Digits(m)[0]);
    if n < 0 {
      assert FormatInt(n)[1..] == Digits(m);
    }
  }

  // ----- JSON numbers as float64

  /** The spacing of float64 values around a magnitude m: 1 up to 2^53, then a power of two. */
  function Spacing(m: nat): (q: nat)
    ensures q > 0
  {
    if m < TWO_TO_THE_53 then 1 else 2 * Spacing(m / 2)
  }

  /** The multiple of q nearest to m, ties to the even multiple. */
  function NearestMultiple(m: nat, q: nat): nat
    requires q > 0
  {
    var below := m / q;
    var rest := m % q;
    if 2 * rest < q || (2 * rest == q && below % 2 == 0) then below * q else (below + 1) * q
  }

  /** The number that the decimal text of n decodes to as a float64. */
  function RoundToFloat64(n: int): int {
    var m: nat := if n < 0 then -n else n;
    var r: int := NearestMultiple(m, Spacing(m));
    if n < 0 then -r else r
  }

  lemma NearestMultipleExact(m: nat, q: nat)
    requires q > 0
    ensures NearestMultiple(m, q) == m <==> m % q == 0
  {
    var below, rest := m / q, m % q;
    assert m == below * q + rest;
    assert (below + 1) * q == below * q + q;
  }

  /** The float64 form keeps an id exactly when the id is a multiple of the spacing at its size; every
      id up to 2^53 is, and 2^53 + 1 is the first that is not. */
  lemma FloatKeepsExactly(n: int)
    ensures RoundToFloat64(n) == n <==> (if n < 0 then -n else n) % Spacing(if n < 0 then -n else n) == 0
    ensures -TWO_TO_THE_53 <= n <= TWO_TO_THE_53 ==> RoundToFloat64(n) == n
    ensures RoundToFloat64(TWO_TO_THE_53 + 1) == TWO_TO_THE_53
  {
    var m: nat := if n < 0 then -n else n;
    NearestMultipleExact(m, Spacing(m));
    assert Spacing(TWO_TO_THE_53) == 2 * Spacing(TWO_TO_THE_53 / 2) == 2;
    assert Spacing(TWO_TO_THE_53 + 1) == 2 * Spacing(TWO_TO_THE_53 / 2) == 2;
  }
}
