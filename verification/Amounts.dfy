// Stroop amounts as text: the printer (internal/entity/amount.go) and the two
// parsers that read what it prints.
module Amounts {
  import opened Prelude
  import opened Digits
  import opened Floors

  const STROOPS_PER_XLM := 10_000_000

  predicate Int64(n: int) {
    -INT64_MAX - 1 <= n <= INT64_MAX
  }

  // %d and %07d of a possibly negative number; the sign takes one of the
  // seven places.
  function Signed(n: int): string {
    if n < 0 then "-" + Decimal(-n) else Decimal(n)
  }

  function SignedPadded(n: int, width: nat): string
    requires width > 0
  {
    if n < 0 then "-" + Padded(-n, width - 1) else Padded(n, width)
  }

  // Go's / and % truncate toward zero.
  function Quotient(n: int, d: nat): int
    requires d > 0
  {
    if n < 0 then -(-n / d) else n / d
  }

  function Remainder(n: int, d: nat): int
    requires d > 0
  {
    if n < 0 then -(-n % d) else n % d
  }

  function String(n: int): string {
    Signed(Quotient(n, STROOPS_PER_XLM)) + "." + SignedPadded(Remainder(n, STROOPS_PER_XLM), 7)
  }

  datatype Parsed = Amount(stroops: int) | Empty | TooPrecise | NotNumeric | LeadingZero | OutOfRange

  // Where a text is cut at its first dot; its length when it has none.
  function Dot(s: string): (i: nat)
    ensures i <= |s|
    ensures i < |s| ==> s[i] == '.'
    ensures forall j :: 0 <= j < i ==> s[j] != '.'
  {
    if s == "" || s[0] == '.' then 0 else 1 + Dot(s[1..])
  }

  function Whole(s: string): string {
    s[..Dot(s)]
  }

  function Fraction(s: string): string {
    if Dot(s) < |s| then s[Dot(s) + 1..] else ""
  }

  // The digit parser of the sell command.
  function ParseDecimalStroops(s: string): Parsed {
    var whole, fraction := Whole(s), Fraction(s);
    if whole == "" && fraction == "" then Empty
    else if |fraction| > 7 then TooPrecise
    else if !AllDigits(whole + fraction) then NotNumeric
    else if |whole| > 1 && whole[0] == '0' then LeadingZero
    else
      var number := Value(whole + fraction + Zeros(7 - |fraction|));
      if 0 < number <= INT64_MAX then Amount(number) else OutOfRange
  }

  // The rational parser of the settlement intent, on the texts a numeric
  // column holds: a sign, digits, a dot, digits.
  function Unsigned(s: string): string {
    if s != "" && s[0] in "+-" then s[1..] else s
  }

  function ParseStroops(s: string): Parsed {
    var u := Unsigned(s);
    var whole, fraction := Whole(u), Fraction(u);
    if whole + fraction == "" || !AllDigits(whole + fraction) then NotNumeric
    else if s[0] == '-' then OutOfRange
    else Scaled(Value(whole + fraction), |fraction|)
  }

  // The rational value / 10^decimals in stroops, if they are whole and positive.
  function Scaled(value: nat, decimals: nat): Parsed {
    var scaled := value * STROOPS_PER_XLM;
    if scaled == 0 then OutOfRange
    else if scaled % Pow10(decimals) != 0 then TooPrecise
    else if scaled / Pow10(decimals) > INT64_MAX then OutOfRange
    else Amount(scaled / Pow10(decimals))
  }

  // ---------------------------------------------------------------- texts

  lemma {:induction false} DotAt(whole: string, rest: string)
    requires AllDigits(whole)
    ensures Dot(whole + "." + rest) == |whole|
  {
    var s := whole + "." + rest;
    if whole != "" {
      DotAt(whole[1..], rest);
      assert s[1..] == whole[1..] + "." + rest;
    }
  }

  lemma Cut(whole: string, fraction: string)
    requires AllDigits(whole)
    ensures Whole(whole + "." + fraction) == whole && Fraction(whole + "." + fraction) == fraction
  {
    DotAt(whole, fraction);
  }

  // What a positive amount prints: its digits with a dot before the last seven.
  lemma Printed(n: int) returns (whole: string, fraction: string)
    requires n >= 0
    ensures whole == Decimal(n / STROOPS_PER_XLM) && |fraction| == 7 && AllDigits(fraction)
    ensures String(n) == whole + "." + fraction
    ensures Value(whole + fraction) == n
  {
    whole, fraction := Decimal(n / STROOPS_PER_XLM), Padded(n % STROOPS_PER_XLM, 7);
    assert Pow10(7) == STROOPS_PER_XLM;
    PaddedIs(n % STROOPS_PER_XLM, 7);
    DecimalValue(n / STROOPS_PER_XLM);
    ValueAppend(whole, fraction);
  }

  // ---------------------------------------------------------------- round trips

  // Printing then parsing gives an amount back exactly when it is positive;
  // every other amount is turned down.
  lemma DigitRoundTrip(n: int)
    requires Int64(n)
    ensures n > 0 ==> ParseDecimalStroops(String(n)) == Amount(n)
    ensures n <= 0 ==> !ParseDecimalStroops(String(n)).Amount?
  {
    if n >= 0 {
      var whole, fraction := Printed(n);
      Cut(whole, fraction);
      NoLeadingZero(n / STROOPS_PER_XLM);
      assert whole + fraction + Zeros(0) == whole + fraction;
      assert n / STROOPS_PER_XLM == 0 ==> |whole| == 1;
    } else {
      NegativeIsNotNumeric(n);
    }
  }

  lemma NegativeIsNotNumeric(n: int)
    requires n < 0
    ensures !ParseDecimalStroops(String(n)).Amount?
  {
    hide Value, Pow10, Padded, Decimal;
    var q, r := Quotient(n, STROOPS_PER_XLM), Remainder(n, STROOPS_PER_XLM);
    if q < 0 {
      SignedWhole(String(n));
    } else {
      assert r < 0 && q == 0;
      SignedFraction(SignedPadded(r, 7));
    }
  }

  lemma SignedWhole(s: string)
    requires s != "" && s[0] == '-'
    ensures !AllDigits(Whole(s) + Fraction(s))
  {
    assert Dot(s) != 0;
    assert (Whole(s) + Fraction(s))[0] == '-';
  }

  lemma SignedFraction(fraction: string)
    requires fraction != "" && fraction[0] == '-'
    ensures !AllDigits(Whole(Decimal(0) + "." + fraction) + Fraction(Decimal(0) + "." + fraction))
  {
    Cut(Decimal(0), fraction);
    assert (Decimal(0) + fraction)[|Decimal(0)|] == '-';
  }

  lemma Divides(a: nat, d: nat, q: nat)
    requires d > 0 && a == q * d
    ensures a / d == q && a % d == 0
  {
    assert (q + 1) * d == q * d + d;
    Floor(a, d, q);
  }

  lemma SevenDecimals()
    ensures Pow10(7) == STROOPS_PER_XLM
  {
  }

  lemma PositiveProduct(a: nat, b: nat)
    requires b > 0
    ensures a * b > 0 <==> a > 0
  {
  }

  lemma Regroup(a: nat, b: nat, c: nat)
    ensures (a * b) * c == a * (c * b)
  {
  }

  // Reading value * 10^z at 7 + z decimals gives value back.
  lemma ScaledLong(value: nat, z: nat)
    ensures Scaled(value * Pow10(z), 7 + z) == if 0 < value <= INT64_MAX then Amount(value) else OutOfRange
  {
    hide Pow10;
    PowAdd(7, z);
    SevenDecimals();
    var p := Pow10(z);
    Regroup(value, p, STROOPS_PER_XLM);
    PositiveProduct(value, p);
    Divides((value * p) * STROOPS_PER_XLM, Pow10(7 + z), value);
  }

  // With at most seven decimals the division is a multiplication.
  lemma ScaledShort(value: nat, decimals: nat)
    requires decimals <= 7
    ensures var stroops := value * Pow10(7 - decimals);
            Scaled(value, decimals) == if 0 < stroops <= INT64_MAX then Amount(stroops) else OutOfRange
  {
    PowAdd(7 - decimals, decimals);
    var p, d := Pow10(7 - decimals), Pow10(decimals);
    assert Pow10(7) == STROOPS_PER_XLM;
    assert value * STROOPS_PER_XLM == (value * p) * d;
    Divides(value * STROOPS_PER_XLM, d, value * p);
    assert value > 0 ==> value * p > 0;
  }

  // The numeric column pads the text with zeros on the right; the settlement
  // intent still reads the same amount, and only positive ones.
  lemma PaddedRoundTrip(n: int, zeros: nat)
    requires 0 <= n <= INT64_MAX
    ensures ParseStroops(String(n) + Zeros(zeros)) == if n > 0 then Amount(n) else OutOfRange
  {
    hide Pow10, Scaled, String, Value, Dot;
    var whole, fraction := PrintedPadded(n, zeros);
    ScaledLong(n, zeros);
  }

  lemma PrintedPadded(n: nat, zeros: nat) returns (whole: string, fraction: string)
    ensures var s := String(n) + Zeros(zeros);
            && whole == Whole(s) && fraction == Fraction(s) && Unsigned(s) == s && s != "" && s[0] != '-'
            && whole + fraction != "" && AllDigits(whole + fraction) && |fraction| == 7 + zeros
            && Value(whole + fraction) == n * Pow10(zeros)
  {
    hide Pow10, Value, String;
    var decimals: string;
    whole, decimals := Printed(n);
    fraction := decimals + Zeros(zeros);
    assert String(n) + Zeros(zeros) == whole + "." + fraction;
    assert IsDigit(whole[0]);
    Cut(whole, fraction);
    assert whole + fraction == (whole + decimals) + Zeros(zeros);
    ValueAppend(whole + decimals, Zeros(zeros));
    ZerosValue(zeros);
  }

  // The digit parser accepts exactly what the rational parser accepts among
  // the texts without a sign, without a leading zero and with at most seven
  // decimals, and both read the same amount.
  lemma ParsersAgree(s: string)
    ensures ParseDecimalStroops(s).Amount? <==>
              && ParseStroops(s).Amount? && Unsigned(s) == s
              && |Fraction(s)| <= 7 && !(|Whole(s)| > 1 && Whole(s)[0] == '0')
    ensures ParseDecimalStroops(s).Amount? ==> ParseStroops(s) == ParseDecimalStroops(s)
  {
    hide Pow10, Scaled, Value, Dot;
    var whole, fraction := Whole(s), Fraction(s);
    if |fraction| <= 7 && whole + fraction != "" && AllDigits(whole + fraction) {
      StartsWithDigit(s);
      ValueAppend(whole + fraction, Zeros(7 - |fraction|));
      ZerosValue(7 - |fraction|);
      ScaledShort(Value(whole + fraction), |fraction|);
    }
  }

  lemma StartsWithDigit(s: string)
    requires Whole(s) + Fraction(s) != "" && AllDigits(Whole(s) + Fraction(s))
    ensures Unsigned(s) == s && s != "" && s[0] != '-'
  {
    hide Pow10, Value;
    if Whole(s) != "" {
      assert (Whole(s) + Fraction(s))[0] == s[0];
    }
  }
}
