// The text of a rate in a quote: eighteen decimals, rounded half up, without
// trailing zeros.
module Prices {
  import opened Digits
  import opened Floors
  import opened Amounts
  import opened Quotes

  const DECIMALS := 18
  const UNIT := 1_000_000_000_000_000_000

  lemma UnitIsPower()
    ensures Pow10(DECIMALS) == UNIT
  {
    assert Pow10(9) == 1_000_000_000;
    PowAdd(9, 9);
  }

  // The nearest multiple of 10^-18, in units of it.
  function Rounded(rate: Rate): nat
    requires Positive(rate)
  {
    (2 * rate.num * UNIT + rate.den) / (2 * rate.den)
  }

  function FloatString(units: nat): string {
    Decimal(units / UNIT) + "." + Padded(units % UNIT, DECIMALS)
  }

  function TrimRight(s: string, c: char): string {
    if s != "" && s[|s| - 1] == c then TrimRight(s[..|s| - 1], c) else s
  }

  function DecimalText(units: nat): string {
    TrimRight(TrimRight(FloatString(units), '0'), '.')
  }

  // A rate half way between two texts gets the larger one.
  lemma RoundsToNearest(rate: Rate)
    requires Positive(rate)
    ensures var exact := rate.num * 1_000_000_000_000_000_000;
            -(rate.den as int) < 2 * (Rounded(rate) * rate.den - exact) <= rate.den
  {
    hide Pow10;
    var a, d := 2 * rate.num * UNIT + rate.den, 2 * rate.den;
    Floor(a, d, Rounded(rate));
    assert Rounded(rate) * d == 2 * (Rounded(rate) * rate.den);
    assert (Rounded(rate) + 1) * d == Rounded(rate) * d + d;
    Twice(rate.num, UNIT);
  }

  lemma Twice(a: nat, b: nat)
    ensures 2 * a * b == 2 * (a * b)
  {
  }

  // Trimming takes exactly the zeros at the end.
  lemma {:induction false} TrimZeros(head: string, fraction: string) returns (kept: string, zeros: nat)
    requires AllDigits(fraction)
    ensures fraction == kept + Zeros(zeros) && (kept != "" ==> kept[|kept| - 1] != '0')
    ensures TrimRight(head + "." + fraction, '0') == head + "." + kept
  {
    var s := head + "." + fraction;
    if fraction != "" && fraction[|fraction| - 1] == '0' {
      var init := fraction[..|fraction| - 1];
      var k;
      kept, k := TrimZeros(head, init);
      zeros := k + 1;
      assert s[..|s| - 1] == head + "." + init;
      assert fraction == init + "0" && (kept + Zeros(k)) + "0" == kept + (Zeros(k) + "0");
    } else {
      kept, zeros := fraction, 0;
      assert fraction + Zeros(0) == fraction;
      assert s[|s| - 1] == if fraction == "" then '.' else fraction[|fraction| - 1];
    }
  }

  // What the text is made of.
  lemma TextOf(units: nat) returns (whole: string, kept: string, zeros: nat)
    ensures whole == Decimal(units / UNIT) && AllDigits(kept) && |kept| + zeros == DECIMALS
    ensures DecimalText(units) == if kept == "" then whole else whole + "." + kept
    ensures kept != "" ==> kept[|kept| - 1] != '0'
    ensures Value(whole + (kept + Zeros(zeros))) == units
  {
    hide Pow10, TrimRight, Value;
    whole := Decimal(units / UNIT);
    var fraction := Padded(units % UNIT, DECIMALS);
    UnitIsPower();
    PaddedIs(units % UNIT, DECIMALS);
    DecimalValue(units / UNIT);
    ValueAppend(whole, fraction);
    kept, zeros := TrimZeros(whole, fraction);
    assert forall i :: 0 <= i < |kept| ==> kept[i] == fraction[i];
    if kept == "" {
      assert whole + "." + kept == whole + ".";
      TrimsDot(whole);
    } else {
      EndsInDigit(whole + "." + kept);
    }
  }

  lemma TrimsDot(whole: string)
    requires whole != "" && AllDigits(whole)
    ensures TrimRight(whole + ".", '.') == whole
  {
    assert (whole + ".")[..|whole|] == whole;
    assert TrimRight(whole, '.') == whole;
  }

  lemma EndsInDigit(s: string)
    requires s != "" && IsDigit(s[|s| - 1])
    ensures TrimRight(s, '.') == s
  {
  }

  // The text reads as the rounded rate, and ends in neither a zero decimal
  // nor a dot.
  lemma TextReadsBack(units: nat)
    ensures var s := DecimalText(units);
            && AllDigits(Whole(s) + Fraction(s)) && |Fraction(s)| <= 18
            && Value(Whole(s) + Fraction(s)) * Pow10(18 - |Fraction(s)|) == units
            && (Fraction(s) == "" ==> AllDigits(s))
            && (Fraction(s) != "" ==> s[|s| - 1] != '0')
  {
    hide Pow10, Value, DecimalText;
    var whole, kept, zeros := TextOf(units);
    assert whole + (kept + Zeros(zeros)) == (whole + kept) + Zeros(zeros);
    ValueAppend(whole + kept, Zeros(zeros));
    ZerosValue(zeros);
    if kept == "" {
      NoDot(whole);
      assert whole + kept == whole;
      assert Fraction(whole) == "" && Whole(whole) == whole;
    } else {
      Cut(whole, kept);
    }
  }

  lemma {:induction false} NoDot(s: string)
    requires AllDigits(s)
    ensures Dot(s) == |s|
  {
    if s != "" {
      NoDot(s[1..]);
    }
  }

  // Different rates, once rounded, have different texts.
  lemma TextsDiffer(a: nat, b: nat)
    ensures DecimalText(a) == DecimalText(b) <==> a == b
  {
    hide DecimalText, Pow10;
    TextReadsBack(a);
    TextReadsBack(b);
  }
}
