/** Rust's `str::parse::<u64>` (decimal radix), as the block-stats route
    applies it to a path segment that is not taken for a hash. The parser
    reads the digits left to right, multiplying an accumulator by ten and
    adding each digit, and stops at the first character that is not a digit
    or at the first step whose value no longer fits in 64 bits. */
module U64Parse {
  import opened Base

  /** The kinds of `ParseIntError` an unsigned decimal parse can report. */
  datatype ParseIntError = Empty | InvalidDigit | PosOverflow

  predicate IsDigit(c: char) {
    '0' <= c <= '9'
  }

  function DigitValue(c: char): (d: nat)
    requires IsDigit(c)
    ensures d < 10
  {
    c as int - '0' as int
  }

  predicate AllDigits(s: string) {
    forall i :: 0 <= i < |s| ==> IsDigit(s[i])
  }

  function Pow10(k: nat): (p: nat)
    ensures p >= 1
  {
    if k == 0 then 1 else 10 * Pow10(k - 1)
  }

  /** The positional value of a string of decimal digits, most significant
      digit first: the reference meaning of a literal. */
  function DecimalValue(s: string): nat
    requires AllDigits(s)
  {
    if s == [] then 0 else DigitValue(s[0]) * Pow10(|s| - 1) + DecimalValue(s[1..])
  }

  /** The digits of a literal: one leading '+' is dropped, nothing else. */
  function Magnitude(s: string): string {
    if |s| > 0 && s[0] == '+' then s[1..] else s
  }

  /** The strings `parse::<u64>` accepts: an optional '+', then at least one
      decimal digit, denoting a value below 2^64 (leading zeros allowed). */
  predicate IsU64Literal(s: string) {
    var m := Magnitude(s);
    |m| > 0 && AllDigits(m) && DecimalValue(m) < U64_LIMIT
  }

  /** The digit loop: `acc` is the value of the digits read so far. A
      character that is not a digit is reported before the overflow that
      the same step would cause. */
  function Accumulate(ds: string, acc: u64): (r: Result<u64, ParseIntError>)
    ensures r != Err(Empty)
    ensures r.Ok? ==> r.value >= acc
    decreases |ds|
  {
    if ds == [] then Ok(acc)
    else if !IsDigit(ds[0]) then Err(InvalidDigit)
    else if acc * 10 + DigitValue(ds[0]) >= U64_LIMIT then Err(PosOverflow)
    else Accumulate(ds[1..], acc * 10 + DigitValue(ds[0]))
  }

  /** `s.parse::<u64>()`: the empty string is `Empty`; a lone sign is an
      invalid digit; otherwise the digits after an optional '+' are read. */
  function ParseU64(s: string): (r: Result<u64, ParseIntError>)
    ensures r == Err(Empty) <==> s == []
  {
    if s == [] then Err(Empty)
    else if s == "+" || s == "-" then Err(InvalidDigit)
    else Accumulate(Magnitude(s), 0)
  }

  lemma AllDigitsCons(s: string)
    requires s != []
    ensures AllDigits(s) <==> IsDigit(s[0]) && AllDigits(s[1..])
  {
  }

  /** One step of the digit loop in positional terms. */
  lemma ShiftDigit(acc: nat, d: nat, p: nat)
    requires p >= 1
    ensures acc * (10 * p) + d * p == (acc * 10 + d) * p
    ensures (acc * 10 + d) * p >= acc * 10 + d
  {
  }

  lemma {:induction false} AccumulateMeaning(ds: string, acc: u64)
    ensures Accumulate(ds, acc).Ok? <==> AllDigits(ds) && acc * Pow10(|ds|) + DecimalValue(ds) < U64_LIMIT
    ensures Accumulate(ds, acc).Ok? ==> AllDigits(ds) && Accumulate(ds, acc).value == acc * Pow10(|ds|) + DecimalValue(ds)
    decreases |ds|
  {
    if ds == [] {
    } else {
      AllDigitsCons(ds);
      if IsDigit(ds[0]) {
        var d := DigitValue(ds[0]);
        var rest := ds[1..];
        var p := Pow10(|ds| - 1);
        if AllDigits(rest) {
          ShiftDigit(acc, d, p);
          assert acc * Pow10(|ds|) + DecimalValue(ds) == (acc * 10 + d) * p + DecimalValue(rest);
        }
        if acc * 10 + d < U64_LIMIT {
          AccumulateMeaning(rest, acc * 10 + d);
        }
      }
    }
  }

  /** `parse::<u64>` succeeds exactly on the literals of `IsU64Literal`, and
      then yields the literal's positional value. */
  lemma ParseU64Meaning(s: string)
    ensures ParseU64(s).Ok? <==> IsU64Literal(s)
    ensures ParseU64(s).Ok? ==> ParseU64(s).value == DecimalValue(Magnitude(s))
  {
    if s != [] && s != "+" && s != "-" {
      AccumulateMeaning(Magnitude(s), 0);
    } else if s == "-" {
      assert !IsDigit(s[0]);
    }
  }

  /** A character that is neither a digit nor the one permitted leading '+'
      makes the parse fail. */
  lemma ParseU64RejectsNonDigit(s: string, i: nat)
    requires i < |s| && !IsDigit(s[i]) && !(i == 0 && s[0] == '+')
    ensures ParseU64(s).Err?
  {
    ParseU64Meaning(s);
    var m := Magnitude(s);
    if s[0] == '+' {
      assert m[i - 1] == s[i];
    } else {
      assert m[i] == s[i];
    }
  }

  /** Reference rendering of a number in decimal, without leading zeros
      (what Rust's `Display` for `u64` prints). */
  function Decimal(n: nat): (s: string)
    ensures |s| > 0 && AllDigits(s)
    decreases n
  {
    if n < 10 then [DigitChar(n)] else Decimal(n / 10) + [DigitChar(n % 10)]
  }

  function DigitChar(d: nat): (c: char)
    requires d < 10
    ensures IsDigit(c) && DigitValue(c) == d
  {
    ('0' as int + d) as char
  }

  lemma {:induction false} DecimalValueAppend(s: string, c: char)
    requires AllDigits(s) && IsDigit(c)
    ensures AllDigits(s + [c]) && DecimalValue(s + [c]) == DecimalValue(s) * 10 + DigitValue(c)
    decreases |s|
  {
    var t := s + [c];
    assert forall i :: 0 <= i < |t| ==> t[i] == if i < |s| then s[i] else c;
    if s != [] {
      assert t[1..] == s[1..] + [c];
      assert AllDigits(s[1..]) by {
        forall i | 0 <= i < |s[1..]| ensures IsDigit(s[1..][i]) { assert s[1..][i] == s[i + 1]; }
      }
      DecimalValueAppend(s[1..], c);
      calc {
        DecimalValue(t);
        DigitValue(s[0]) * Pow10(|s|) + DecimalValue(s[1..] + [c]);
        DigitValue(s[0]) * (10 * Pow10(|s| - 1)) + DecimalValue(s[1..]) * 10 + DigitValue(c);
        (DigitValue(s[0]) * Pow10(|s| - 1) + DecimalValue(s[1..])) * 10 + DigitValue(c);
      }
    } else {
      assert t == [c];
    }
  }

  lemma {:induction false} DecimalValueOfDecimal(n: nat)
    ensures DecimalValue(Decimal(n)) == n
    decreases n
  {
    if n < 10 {
      assert DecimalValue([DigitChar(n)]) == DigitValue(DigitChar(n)) * Pow10(0) + DecimalValue([]);
    } else {
      DecimalValueOfDecimal(n / 10);
      DecimalValueAppend(Decimal(n / 10), DigitChar(n % 10));
    }
  }

  lemma {:induction false} DecimalLength(n: nat, k: nat)
    requires 0 < k && n < Pow10(k)
    ensures |Decimal(n)| <= k
    decreases n
  {
    if n >= 10 {
      assert k > 1;
      assert n / 10 < Pow10(k - 1);
      DecimalLength(n / 10, k - 1);
    }
  }

  lemma {:induction false} Pow10Sum(a: nat, b: nat)
    ensures Pow10(a + b) == Pow10(a) * Pow10(b)
    decreases a
  {
    if a > 0 {
      Pow10Sum(a - 1, b);
    }
  }

  /** Every `u64` printed in decimal has at most twenty digits. */
  lemma DecimalOfU64IsShort(n: u64)
    ensures |Decimal(n)| <= 20
  {
    Pow10Sum(10, 10);
    Pow10Sum(5, 5);
    assert Pow10(5) == 100_000;
    DecimalLength(n, 20);
  }

  /** Round trip: parsing the decimal rendering of a `u64` gives it back. */
  lemma ParseDecimalRoundTrip(n: u64)
    ensures ParseU64(Decimal(n)) == Ok(n)
  {
    var s := Decimal(n);
    DecimalValueOfDecimal(n);
    assert Magnitude(s) == s;
    ParseU64Meaning(s);
  }
}
