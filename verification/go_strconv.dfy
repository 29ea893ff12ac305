/**
 * Decimal formatting and parsing of Go `int` values: `strconv.Itoa` /
 * `fmt.Sprintf("%d", n)` and `strconv.Atoi`. Go's `int` is 64 bits wide.
 */
module GoStrconv {
  import opened GoErrors

  const MinInt64: int := -0x8000_0000_0000_0000
  const MaxInt64: int := 0x7fff_ffff_ffff_ffff

  predicate IsDigit(c: char) { '0' <= c <= '9' }

  predicate AllDigits(s: string)
  {
    forall i :: 0 <= i < |s| ==> IsDigit(s[i])
  }

  /** The value of a string of decimal digits (leading zeros allowed). */
  function DigitsValue(s: string): (v: nat)
    requires AllDigits(s)
  {
    if |s| == 0 then 0
    else DigitsValue(s[..|s| - 1]) * 10 + (s[|s| - 1] as int - '0' as int)
  }

  /** The shortest decimal digit string of a natural number. */
  function NatDigits(n: nat): (s: string)
    ensures |s| >= 1 && AllDigits(s)
    ensures |s| > 1 ==> s[0] != '0'
  {
    if n < 10 then [('0' as int + n) as char]
    else NatDigits(n / 10) + [('0' as int + n % 10) as char]
  }

  /** `strconv.Itoa(n)`: an optional minus sign, then the digits of |n|. */
  function Itoa(n: int): (s: string)
    ensures |s| >= 1
  {
    if n < 0 then "-" + NatDigits(-n) else NatDigits(n)
  }

  /**
   * `strconv.Atoi(s)`: an optional '+' or '-', then one or more decimal
   * digits, with the value inside the 64-bit range. Anything else is an
   * error (syntax or range), modelled as `None`.
   */
  function Atoi(s: string): (r: Option<int>)
    ensures r.Some? ==> MinInt64 <= r.value <= MaxInt64
    ensures r.Some? ==> |s| >= 1
  {
    if |s| == 0 then None
    else
      var neg := s[0] == '-';
      var body := if s[0] == '-' || s[0] == '+' then s[1..] else s;
      if |body| == 0 || !AllDigits(body) then None
      else
        var d: int := DigitsValue(body);
        var v := if neg then -d else d;
        if MinInt64 <= v <= MaxInt64 then Some(v) else None
  }

  /** Reading back the digits of `n` gives `n`. */
  lemma {:induction false} DigitsRoundTrip(n: nat)
    ensures DigitsValue(NatDigits(n)) == n
  {
    if n >= 10 {
      var s := NatDigits(n);
      DigitsRoundTrip(n / 10);
      assert s[..|s| - 1] == NatDigits(n / 10);
    }
  }

  /** Every 64-bit integer survives formatting then parsing. */
  lemma ItoaAtoi(n: int)
    requires MinInt64 <= n <= MaxInt64
    ensures Atoi(Itoa(n)) == Some(n)
  {
    if n < 0 {
      DigitsRoundTrip(-n);
      assert Itoa(n)[1..] == NatDigits(-n);
    } else {
      DigitsRoundTrip(n);
    }
  }

  /** A decimal integer outside the 64-bit range is refused with a range error. */
  lemma ItoaAtoiOutOfRange(n: int)
    requires n < MinInt64 || MaxInt64 < n
    ensures Atoi(Itoa(n)) == None
  {
    if n < 0 {
      DigitsRoundTrip(-n);
      assert Itoa(n)[1..] == NatDigits(-n);
    } else {
      DigitsRoundTrip(n);
    }
  }

  /** Formatting never produces a '+' sign, and a '-' only for negatives. */
  lemma ItoaSign(n: int)
    ensures Itoa(n)[0] == '-' <==> n < 0
    ensures Itoa(n)[0] != '+'
  {
  }
}
