/** The Zip identifier of map.go: a uint32 parsed from five characters with
    strconv.Atoi and printed back with "%05d". */
module Zips {
  import opened Wrappers

  /** 2^32: Zip is a uint32. */
  const ZipModulus: int := 0x1_0000_0000

  type Zip = x: int | 0 <= x < 0x1_0000_0000

  /** Go's conversion Zip(i) of a (64-bit) int keeps its low 32 bits, so a
      negative int wraps around. */
  function ToZip(i: int): (z: Zip)
    ensures 0 <= i < ZipModulus ==> z == i
    ensures -ZipModulus < i < 0 ==> z == i + ZipModulus
  {
    i % ZipModulus
  }

  // ---------------------------------------------------------------------------
  // Decimal digits
  // ---------------------------------------------------------------------------

  predicate IsDigit(c: char) {
    '0' <= c <= '9'
  }

  predicate AllDigits(s: string) {
    forall i :: 0 <= i < |s| ==> IsDigit(s[i])
  }

  function DigitValue(c: char): (d: nat)
    requires IsDigit(c)
    ensures d < 10
  {
    c as int - '0' as int
  }

  function DigitChar(d: nat): (c: char)
    requires d < 10
    ensures IsDigit(c) && DigitValue(c) == d
  {
    ('0' as int + d) as char
  }

  function Pow10(n: nat): (p: nat)
    ensures p >= 1
  {
    if n == 0 then 1 else 10 * Pow10(n - 1)
  }

  lemma {:induction false} Pow10Monotone(m: nat, n: nat)
    requires m <= n
    ensures Pow10(m) <= Pow10(n)
  {
    if m < n {
      Pow10Monotone(m, n - 1);
    }
  }

  /** The positional value of a string of decimal digits, most significant
      digit first: the sum of digit i times 10^(|s|-1-i). */
  function DecimalValue(s: string): (v: nat)
    requires AllDigits(s)
    ensures v < Pow10(|s|)
  {
    if s == [] then 0
    else
      var d, p := DigitValue(s[0]), Pow10(|s| - 1);
      assert d * p + p <= 10 * p;
      d * p + DecimalValue(s[1..])
  }

  /** Reading one more digit at the least significant end multiplies by ten. */
  lemma {:induction false} DecimalValueSnoc(s: string, c: char)
    requires AllDigits(s) && IsDigit(c)
    ensures AllDigits(s + [c])
    ensures DecimalValue(s + [c]) == 10 * DecimalValue(s) + DigitValue(c)
  {
    assert AllDigits(s + [c]);
    if s != [] {
      var t := s + [c];
      assert t[0] == s[0] && t[1..] == s[1..] + [c];
      DecimalValueSnoc(s[1..], c);
      var d, p, r := DigitValue(s[0]), Pow10(|s| - 1), DecimalValue(s[1..]);
      assert Pow10(|t| - 1) == 10 * p;
      assert DecimalValue(t) == d * Pow10(|t| - 1) + (10 * r + DigitValue(c));
      assert DecimalValue(s) == d * p + r;
      ShiftDigit(d, p, r, DigitValue(c));
    }
  }

  lemma ShiftDigit(d: int, p: int, r: int, c: int)
    ensures d * (10 * p) + (10 * r + c) == 10 * (d * p + r) + c
  {
  }

  lemma LastDigitUnique(a: nat, c: nat, b: nat, d: nat)
    requires c < 10 && d < 10 && 10 * a + c == 10 * b + d
    ensures a == b && c == d
  {
  }

  /** Two digit strings of the same length with the same value are equal:
      leading zeros are part of the length. */
  lemma {:induction false} DecimalValueInjective(s: string, t: string)
    requires AllDigits(s) && AllDigits(t) && |s| == |t|
    ensures DecimalValue(s) == DecimalValue(t) <==> s == t
  {
    if s != [] && DecimalValue(s) == DecimalValue(t) {
      var n := |s| - 1;
      var s', t' := s[..n], t[..n];
      assert s == s' + [s[n]] && t == t' + [t[n]];
      DecimalValueSnoc(s', s[n]);
      DecimalValueSnoc(t', t[n]);
      LastDigitUnique(DecimalValue(s'), DigitValue(s[n]), DecimalValue(t'), DigitValue(t[n]));
      assert s[n] == t[n];
      DecimalValueInjective(s', t');
    }
  }

  // ---------------------------------------------------------------------------
  // strconv.Atoi
  // ---------------------------------------------------------------------------

  /** The text after an optional leading sign. */
  function Magnitude(s: string): string {
    if |s| > 0 && (s[0] == '+' || s[0] == '-') then s[1..] else s
  }

  /** What strconv.Atoi accepts: an optional '+' or '-' followed by at least
      one decimal digit, and nothing else. */
  predicate IsDecimalLiteral(s: string) {
    Magnitude(s) != [] && AllDigits(Magnitude(s))
  }

  /** The integer a decimal literal denotes. */
  function LiteralValue(s: string): int
    requires IsDecimalLiteral(s)
  {
    var v: int := DecimalValue(Magnitude(s));
    if s[0] == '-' then -v else v
  }

  /** The digit loop of strconv.Atoi: n = n*10 + digit from left to right,
      failing at the first byte that is not a digit. */
  function Accumulate(n: int, s: string): Option<int>
    decreases s
  {
    if s == [] then Some(n)
    else if !IsDigit(s[0]) then None
    else Accumulate(n * 10 + DigitValue(s[0]), s[1..])
  }

  lemma {:induction false} AccumulateValue(n: int, s: string)
    ensures Accumulate(n, s) == if AllDigits(s) then Some(n * Pow10(|s|) + DecimalValue(s)) else None
    decreases s
  {
    if s != [] {
      AccumulateValue(n * 10 + (if IsDigit(s[0]) then DigitValue(s[0]) else 0), s[1..]);
      if IsDigit(s[0]) {
        var d, p := DigitValue(s[0]), Pow10(|s| - 1);
        assert AllDigits(s) <==> AllDigits(s[1..]);
        assert (n * 10 + d) * p == n * (10 * p) + d * p;
      } else {
        assert !AllDigits(s);
      }
    }
  }

  /** strconv.Atoi on a string of fewer than 19 bytes, the inputs its fast path
      handles on a 64-bit platform (every such value fits in an int, so no range
      error can occur). The empty string, a lone sign and any other non-digit
      are syntax errors. */
  function Atoi(s: string): (r: Result<int, Error>)
    requires |s| < 19
    ensures r.Err? ==> r.error == AtoiSyntax(s)
  {
    if s == [] then Err(AtoiSyntax(s))
    else
      var digits := if s[0] == '-' || s[0] == '+' then s[1..] else s;
      if digits == [] then Err(AtoiSyntax(s))
      else match Accumulate(0, digits)
        case None => Err(AtoiSyntax(s))
        case Some(n) => Ok(if s[0] == '-' then -n else n)
  }

  /** Atoi accepts exactly the decimal literals and yields their value. */
  lemma AtoiValue(s: string)
    requires |s| < 19
    ensures Atoi(s).Ok? <==> IsDecimalLiteral(s)
    ensures Atoi(s).Ok? ==> Atoi(s).value == LiteralValue(s)
  {
    AccumulateValue(0, Magnitude(s));
  }

  // ---------------------------------------------------------------------------
  // Parse and String
  // ---------------------------------------------------------------------------

  /** Parse (map.go): a string whose length is not five, or that Atoi refuses,
      is not a zip code; otherwise the parsed int converted to a Zip. */
  function Parse(s: string): (r: Result<Zip, Error>)
    ensures r.Err? ==> r.error == NotAZipCode(s)
  {
    if |s| != 5 then Err(NotAZipCode(s))
    else match Atoi(s)
      case Err(_) => Err(NotAZipCode(s))
      case Ok(i) => Ok(ToZip(i))
  }

  /** Parse succeeds exactly on five-character decimal literals; a leading '+'
      is accepted and a leading '-' wraps around modulo 2^32. */
  lemma ParseSpec(s: string)
    ensures Parse(s).Ok? <==> |s| == 5 && IsDecimalLiteral(s)
    ensures Parse(s).Ok? ==> Parse(s).value == ToZip(LiteralValue(s))
    ensures Parse(s).Ok? && s[0] != '-' ==> Parse(s).value == DecimalValue(Magnitude(s))
    ensures Parse(s).Ok? && s[0] == '-' ==>
              Parse(s).value == (if DecimalValue(Magnitude(s)) == 0 then 0 else ZipModulus - DecimalValue(Magnitude(s)))
  {
    if |s| == 5 {
      AtoiValue(s);
      if IsDecimalLiteral(s) {
        assert DecimalValue(Magnitude(s)) < Pow10(|Magnitude(s)|) <= Pow10(5) by {
          Pow10Monotone(|Magnitude(s)|, 5);
        }
      }
    }
  }

  /** Five decimal digits parse to their value, leading zeros included. */
  lemma ParseDigits(s: string)
    requires |s| == 5 && AllDigits(s)
    ensures Parse(s) == Ok(DecimalValue(s))
  {
    assert Magnitude(s) == s;
    ParseSpec(s);
  }

  /** The decimal digits of n, without leading zeros ("0" for zero). */
  function Digits(n: nat): (s: string)
    ensures AllDigits(s) && 1 <= |s|
  {
    if n < 10 then [DigitChar(n)] else Digits(n / 10) + [DigitChar(n % 10)]
  }

  lemma {:induction false} DigitsValue(n: nat)
    ensures DecimalValue(Digits(n)) == n
    ensures |Digits(n)| > 1 ==> Pow10(|Digits(n)| - 1) <= n
  {
    if n >= 10 {
      DigitsValue(n / 10);
      DecimalValueSnoc(Digits(n / 10), DigitChar(n % 10));
    } else {
      assert Digits(n)[1..] == [];
    }
  }

  function Zeros(n: nat): (s: string)
    ensures |s| == n && forall i :: 0 <= i < n ==> s[i] == '0'
  {
    seq(n, _ => '0')
  }

  lemma {:induction false} LeadingZeros(k: nat, d: string)
    requires AllDigits(d)
    ensures AllDigits(Zeros(k) + d) && DecimalValue(Zeros(k) + d) == DecimalValue(d)
  {
    assert AllDigits(Zeros(k) + d);
    if k > 0 {
      var z := Zeros(k) + d;
      assert z[0] == '0' && z[1..] == Zeros(k - 1) + d;
      LeadingZeros(k - 1, d);
      assert DecimalValue(z) == 0 * Pow10(|z| - 1) + DecimalValue(z[1..]);
    } else {
      assert Zeros(k) + d == d;
    }
  }

  /** Zip.String: fmt.Sprintf("%05d", z), the decimal digits of z left-padded
      with '0' to a width of five. Wider values are printed in full. */
  function Format(z: Zip): string {
    var d := Digits(z);
    if |d| < 5 then Zeros(5 - |d|) + d else d
  }

  /** Format prints the value of z in digits; it is exactly five characters
      long if and only if z fits in five digits. */
  lemma FormatSpec(z: Zip)
    ensures AllDigits(Format(z)) && DecimalValue(Format(z)) == z
    ensures |Format(z)| >= 5
    ensures |Format(z)| == 5 <==> z <= 99999
  {
    var d := Digits(z);
    DigitsValue(z);
    if |d| < 5 {
      LeadingZeros(5 - |d|, d);
    }
    if |d| > 5 {
      Pow10Monotone(5, |d| - 1);
    }
    if |d| == 5 {
      assert z < Pow10(5);
    }
  }

  /** Round trip: a five-digit zip code prints and parses back to itself; a
      wider one prints to text that Parse refuses. */
  lemma ParseFormat(z: Zip)
    ensures z <= 99999 ==> Parse(Format(z)) == Ok(z)
    ensures z > 99999 ==> Parse(Format(z)) == Err(NotAZipCode(Format(z)))
  {
    FormatSpec(z);
    if z <= 99999 {
      ParseDigits(Format(z));
    }
  }

  /** The other round trip: five decimal digits parse to a zip code that prints
      back to the same five characters. (A signed literal such as "+1234"
      parses too, but prints as "01234".) */
  lemma FormatParse(s: string)
    requires |s| == 5 && AllDigits(s)
    ensures Parse(s).Ok? && Format(Parse(s).value) == s
  {
    ParseDigits(s);
    var z: Zip := DecimalValue(s);
    FormatSpec(z);
    DecimalValueInjective(Format(z), s);
  }

  lemma FormatExamples()
    ensures Format(12345) == "12345"
    ensures Format(78701) == "78701"
    ensures Format(321) == "00321"
    ensures Format(631) == "00631"
    ensures Format(0) == "00000"
  {
    FormatWide();
    FormatPadded();
  }

  lemma FormatWide()
    ensures Format(12345) == "12345" && Format(78701) == "78701"
  {
    assert Digits(1) == "1" && Digits(12) == "12" && Digits(123) == "123" && Digits(1234) == "1234";
    assert Digits(12345) == "12345";
    assert Digits(7) == "7" && Digits(78) == "78" && Digits(787) == "787" && Digits(7870) == "7870";
    assert Digits(78701) == "78701";
  }

  lemma FormatPadded()
    ensures Format(321) == "00321" && Format(631) == "00631" && Format(0) == "00000"
  {
    assert Digits(321) == "321";
    assert Zeros(2) == "00";
    assert Digits(631) == "631";
    assert Digits(0) == "0";
    assert Zeros(4) == "0000";
  }

  lemma ParseExamples()
    ensures Parse("00000") == Ok(0)
    ensures Parse("78701") == Ok(78701)
    ensures Parse("00631") == Ok(631)
    ensures Parse("abcde") == Err(NotAZipCode("abcde"))
    ensures Parse("1234") == Err(NotAZipCode("1234"))
  {
    FormatExamples();
    ParseFormat(0);
    ParseFormat(78701);
    ParseFormat(631);
  }

  /** Atoi's sign handling carries over to Parse. */
  lemma SignedParseExamples()
    ensures Parse("+1234") == Ok(1234)
    ensures Parse("-1234") == Ok(4294966062)
  {
    assert Accumulate(0, "1234") == Some(1234);
  }

  /** A sign is accepted only in front, and only before digits. */
  lemma RejectedExamples()
    ensures Parse("+abc1").Err? && Parse("12-34").Err?
  {
    assert !AllDigits(Magnitude("+abc1")) by {
      assert Magnitude("+abc1")[0] == 'a';
    }
    ParseSpec("+abc1");
    assert !AllDigits(Magnitude("12-34")) by {
      assert Magnitude("12-34")[2] == '-';
    }
    ParseSpec("12-34");
  }

  /** Four digits after a sign: '+' keeps their value, '-' wraps it. */
  lemma SignedParse(d: string)
    requires |d| == 4 && AllDigits(d)
    ensures Parse("+" + d) == Ok(DecimalValue(d))
    ensures Parse("-" + d) == Ok(if DecimalValue(d) == 0 then 0 else ZipModulus - DecimalValue(d))
  {
    assert Magnitude("+" + d) == d == Magnitude("-" + d);
    ParseSpec("+" + d);
    ParseSpec("-" + d);
  }
}
