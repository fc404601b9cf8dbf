// Quotes: exact rational prices, rounded down once.
module Quotes {
  import opened Prelude
  import opened Digits
  import opened Floors

  const STROOPS_PER_XLM := 10_000_000
  const BASIS := 10_000
  const MINUTE := 60_000_000_000

  // A positive price in IDR for one XLM.
  datatype Rate = Rate(num: nat, den: nat)

  predicate Positive(rate: Rate) {
    rate.num > 0 && rate.den > 0
  }

  function Adjusted(rate: Rate, spreadBps: nat): Rate {
    Rate(rate.num * (BASIS + spreadBps), rate.den * BASIS)
  }

  // The stroops that an amount of IDR buys, and the IDR that an amount of
  // stroops sells for.
  function Buy(rate: Rate, fiat: nat): nat
    requires Positive(rate)
  {
    fiat * STROOPS_PER_XLM * rate.den / rate.num
  }

  function Sell(rate: Rate, stroops: nat): nat
    requires Positive(rate)
  {
    stroops * rate.num / (rate.den * STROOPS_PER_XLM)
  }

  // ---------------------------------------------------------------- the policy

  datatype Policy = Policy(ttl: int, maxAge: int, spreadBps: int)

  // The market price as read: its rate, if the text is a number, as a signed
  // numerator over a positive denominator.
  datatype Market = Market(rate: Option<(int, nat)>, observedAt: Option<int>)

  datatype Quote = Quote(fiat: int, stroops: int, rate: Rate, adjusted: Rate, spreadBps: int, sourceAt: int, expiresAt: int)
  datatype Quoted = Priced(quote: Quote) | InvalidQuote | StalePrice | InvalidPrice

  predicate Fresh(policy: Policy, now: int, market: Market) {
    market.observedAt.Some? && now - market.observedAt.value <= policy.maxAge && market.observedAt.value <= now + MINUTE
  }

  predicate Sane(policy: Policy) {
    policy.ttl > 0 && policy.maxAge > 0 && 0 <= policy.spreadBps <= BASIS
  }

  function Create(policy: Policy, now: int, fiat: int, market: Market): Quoted {
    if !Sane(policy) || fiat <= 0 then InvalidQuote
    else if !Fresh(policy, now, market) then StalePrice
    else if market.rate.None? || market.rate.value.0 <= 0 || market.rate.value.1 == 0 then InvalidPrice
    else
      var rate := Rate(market.rate.value.0, market.rate.value.1);
      var adjusted := Adjusted(rate, policy.spreadBps);
      assert Positive(adjusted) by { Products(rate, policy.spreadBps); }
      var stroops := Buy(adjusted, fiat);
      if 0 < stroops <= INT64_MAX
      then Priced(Quote(fiat, stroops, rate, adjusted, policy.spreadBps, market.observedAt.value, now + policy.ttl))
      else InvalidQuote
  }

  function CreateReverse(policy: Policy, now: int, stroops: int, market: Market): Quoted {
    if !Sane(policy) || stroops <= 0 then InvalidQuote
    else if !Fresh(policy, now, market) then StalePrice
    else if market.rate.None? || market.rate.value.0 <= 0 || market.rate.value.1 == 0 then InvalidPrice
    else
      var rate := Rate(market.rate.value.0, market.rate.value.1);
      var adjusted := Adjusted(rate, policy.spreadBps);
      assert Positive(adjusted) by { Products(rate, policy.spreadBps); }
      var fiat := Sell(adjusted, stroops);
      if 0 < fiat <= INT64_MAX
      then Priced(Quote(fiat, stroops, rate, adjusted, policy.spreadBps, market.observedAt.value, now + policy.ttl))
      else InvalidQuote
  }

  lemma Products(rate: Rate, spreadBps: nat)
    requires Positive(rate)
    ensures Positive(Adjusted(rate, spreadBps))
  {
  }

  // ---------------------------------------------------------------- floors

  // The two sides of a price over one denominator: fiat and stroops as the
  // same money.
  function FiatWorth(rate: Rate, fiat: nat): nat {
    fiat * 10_000_000 * rate.den
  }

  function StroopsWorth(rate: Rate, stroops: nat): nat {
    stroops * rate.num
  }

  // Both quotes are the exact floors of the rational values: the largest
  // amounts not worth more than what is given for them.
  lemma BuyIsFloor(rate: Rate, fiat: nat, stroops: nat)
    requires Positive(rate)
    ensures stroops <= Buy(rate, fiat) <==> StroopsWorth(rate, stroops) <= FiatWorth(rate, fiat)
  {
    AtMost(FiatWorth(rate, fiat), rate.num, stroops);
  }

  lemma SellIsFloor(rate: Rate, stroops: nat, fiat: nat)
    requires Positive(rate)
    ensures fiat <= Sell(rate, stroops) <==> FiatWorth(rate, fiat) <= StroopsWorth(rate, stroops)
  {
    Group(fiat, rate.den);
    AtMost(stroops * rate.num, rate.den * STROOPS_PER_XLM, fiat);
  }

  lemma Group(fiat: nat, den: nat)
    ensures fiat * STROOPS_PER_XLM * den == fiat * (den * STROOPS_PER_XLM)
  {
  }

  // The quote depends on the price alone, not on how the fraction is written.
  lemma SamePriceSameQuote(a: Rate, b: Rate, amount: nat)
    requires Positive(a) && Positive(b) && a.num * b.den == b.num * a.den
    ensures Buy(a, amount) == Buy(b, amount) && Sell(a, amount) == Sell(b, amount)
  {
    var buy, sell := Buy(a, amount), Sell(a, amount);
    BuyIsFloor(a, amount, Buy(b, amount));
    BuyIsFloor(b, amount, Buy(b, amount));
    BuyIsFloor(a, amount, Buy(a, amount));
    BuyIsFloor(b, amount, Buy(a, amount));
    SellIsFloor(a, amount, Sell(b, amount));
    SellIsFloor(b, amount, Sell(b, amount));
    SellIsFloor(a, amount, Sell(a, amount));
    SellIsFloor(b, amount, Sell(a, amount));
    SameComparison(a, b, amount, Buy(a, amount));
    SameComparison(a, b, amount, Buy(b, amount));
    SameComparison(a, b, Sell(a, amount), amount);
    SameComparison(a, b, Sell(b, amount), amount);
  }

  lemma SameComparison(a: Rate, b: Rate, fiat: nat, stroops: nat)
    requires Positive(a) && Positive(b) && a.num * b.den == b.num * a.den
    ensures StroopsWorth(a, stroops) <= FiatWorth(a, fiat) <==> StroopsWorth(b, stroops) <= FiatWorth(b, fiat)
    ensures FiatWorth(a, fiat) <= StroopsWorth(a, stroops) <==> FiatWorth(b, fiat) <= StroopsWorth(b, stroops)
  {
    var f := fiat * STROOPS_PER_XLM;
    Cross(stroops, a.num, f, a.den, b.num, b.den);
  }

  // s*n1 compares with f*d1 as s*n2 does with f*d2 when n1/d1 == n2/d2.
  lemma Cross(s: nat, n1: nat, f: nat, d1: nat, n2: nat, d2: nat)
    requires d1 > 0 && d2 > 0 && n1 * d2 == n2 * d1
    ensures s * n1 <= f * d1 <==> s * n2 <= f * d2
    ensures f * d1 <= s * n1 <==> f * d2 <= s * n2
  {
    Scale(s * n1, f * d1, d2);
    Scale(s * n2, f * d2, d1);
    assert (s * n1) * d2 == s * (n1 * d2);
    assert (s * n2) * d1 == s * (n2 * d1);
    assert (f * d1) * d2 == (f * d2) * d1;
  }

  // ---------------------------------------------------------------- round trips

  // Buying and selling what was bought never gains, and loses less than one
  // unit and the price of one stroop.
  lemma BuyThenSell(rate: Rate, fiat: nat)
    requires Positive(rate)
    ensures var back := Sell(rate, Buy(rate, fiat));
            && back <= fiat
            && FiatWorth(rate, fiat) - FiatWorth(rate, back) < rate.num + FiatWorth(rate, 1)
  {
    var stroops := Buy(rate, fiat);
    var back := Sell(rate, stroops);
    BuyIsFloor(rate, fiat, stroops);
    BuyIsFloor(rate, fiat, stroops + 1);
    SellIsFloor(rate, stroops, back);
    SellIsFloor(rate, stroops, back + 1);
    assert StroopsWorth(rate, stroops + 1) == StroopsWorth(rate, stroops) + rate.num;
    NextFiat(rate, back);
    if back > fiat {
      FiatMonotone(rate, fiat + 1, back);
      NextFiat(rate, fiat);
    }
  }

  lemma NextFiat(rate: Rate, fiat: nat)
    ensures FiatWorth(rate, fiat + 1) == FiatWorth(rate, fiat) + FiatWorth(rate, 1)
    ensures Positive(rate) ==> FiatWorth(rate, 1) > 0
  {
    Group(fiat, rate.den);
    Group(fiat + 1, rate.den);
  }

  lemma FiatMonotone(rate: Rate, a: nat, b: nat)
    requires a <= b
    ensures FiatWorth(rate, a) <= FiatWorth(rate, b)
  {
    Group(a, rate.den);
    Group(b, rate.den);
    MulMonotone(a, b, rate.den * STROOPS_PER_XLM);
  }

  // Selling and buying back never gains.
  lemma SellThenBuy(rate: Rate, stroops: nat)
    requires Positive(rate)
    ensures Buy(rate, Sell(rate, stroops)) <= stroops
  {
    var fiat := Sell(rate, stroops);
    SellIsFloor(rate, stroops, fiat);
    BuyIsFloor(rate, fiat, Buy(rate, fiat));
    Scale(Buy(rate, fiat), stroops, rate.num);
  }

  // ---------------------------------------------------------------- splitting

  // A larger amount never buys or sells for less.
  lemma Monotone(rate: Rate, a: nat, b: nat)
    requires Positive(rate) && a <= b
    ensures Buy(rate, a) <= Buy(rate, b) && Sell(rate, a) <= Sell(rate, b)
  {
    BuyIsFloor(rate, a, Buy(rate, a));
    FiatMonotone(rate, a, b);
    BuyIsFloor(rate, b, Buy(rate, a));
    SellIsFloor(rate, a, Sell(rate, a));
    MulMonotone(a, b, rate.num);
    SellIsFloor(rate, b, Sell(rate, a));
  }

  function Sum(parts: seq<nat>): nat {
    if parts == [] then 0 else Sum(parts[..|parts| - 1]) + parts[|parts| - 1]
  }

  function BuyEach(rate: Rate, parts: seq<nat>): nat
    requires Positive(rate)
  {
    if parts == [] then 0 else BuyEach(rate, parts[..|parts| - 1]) + Buy(rate, parts[|parts| - 1])
  }

  function SellEach(rate: Rate, parts: seq<nat>): nat
    requires Positive(rate)
  {
    if parts == [] then 0 else SellEach(rate, parts[..|parts| - 1]) + Sell(rate, parts[|parts| - 1])
  }

  // Splitting an order into k parts never gains and loses at most k - 1 units.
  lemma {:induction false} SplittingABuy(rate: Rate, parts: seq<nat>)
    requires Positive(rate) && parts != []
    ensures BuyEach(rate, parts) <= Buy(rate, Sum(parts)) <= BuyEach(rate, parts) + |parts| - 1
  {
    hide Buy;
    var init, last := parts[..|parts| - 1], parts[|parts| - 1];
    if init == [] {
      assert Sum(parts) == last;
    } else {
      SplittingABuy(rate, init);
      TwoBuys(rate, Sum(init), last);
    }
  }

  lemma TwoBuys(rate: Rate, a: nat, b: nat)
    requires Positive(rate)
    ensures Buy(rate, a) + Buy(rate, b) <= Buy(rate, a + b) <= Buy(rate, a) + Buy(rate, b) + 1
  {
    hide FiatWorth;
    FiatSum(rate, a, b);
    BuyIsQuotient(rate, a);
    BuyIsQuotient(rate, b);
    BuyIsQuotient(rate, a + b);
    FloorsOfASum(FiatWorth(rate, a), FiatWorth(rate, b), rate.num);
  }

  lemma BuyIsQuotient(rate: Rate, fiat: nat)
    requires Positive(rate)
    ensures Buy(rate, fiat) == FiatWorth(rate, fiat) / rate.num
  {
  }

  lemma FiatSum(rate: Rate, a: nat, b: nat)
    ensures FiatWorth(rate, a + b) == FiatWorth(rate, a) + FiatWorth(rate, b)
  {
    Group(a, rate.den);
    Group(b, rate.den);
    Group(a + b, rate.den);
    Distribute(a, b, rate.den * STROOPS_PER_XLM);
  }

  lemma Distribute(a: nat, b: nat, d: nat)
    ensures (a + b) * d == a * d + b * d
  {
  }

  lemma {:induction false} SplittingASale(rate: Rate, parts: seq<nat>)
    requires Positive(rate) && parts != []
    ensures SellEach(rate, parts) <= Sell(rate, Sum(parts)) <= SellEach(rate, parts) + |parts| - 1
  {
    hide Sell;
    var init, last := parts[..|parts| - 1], parts[|parts| - 1];
    if init == [] {
      assert Sum(parts) == last;
    } else {
      SplittingASale(rate, init);
      TwoSales(rate, Sum(init), last);
    }
  }

  lemma TwoSales(rate: Rate, a: nat, b: nat)
    requires Positive(rate)
    ensures Sell(rate, a) + Sell(rate, b) <= Sell(rate, a + b) <= Sell(rate, a) + Sell(rate, b) + 1
  {
    FloorsOfASum(a * rate.num, b * rate.num, rate.den * STROOPS_PER_XLM);
    assert (a + b) * rate.num == a * rate.num + b * rate.num;
  }

  // ---------------------------------------------------------------- quotes

  // A quote is given exactly on a sane policy, a fresh and positive price and
  // a positive amount worth at least one stroop and less than an int64 can
  // hold, and it is the floor at the adjusted rate.
  lemma CreateIsExact(policy: Policy, now: int, fiat: int, market: Market)
    ensures Create(policy, now, fiat, market).Priced? <==>
              && Sane(policy) && fiat > 0 && Fresh(policy, now, market)
              && market.rate.Some? && Positive(Rate(NonNegative(market.rate.value.0), market.rate.value.1))
              && var adjusted := Adjusted(Rate(NonNegative(market.rate.value.0), market.rate.value.1), policy.spreadBps);
                 StroopsWorth(adjusted, 1) <= FiatWorth(adjusted, fiat) < StroopsWorth(adjusted, INT64_MAX + 1)
    ensures Create(policy, now, fiat, market).Priced? ==>
              var quote := Create(policy, now, fiat, market).quote;
              && market.rate == Some((quote.rate.num, quote.rate.den)) && quote.adjusted == Adjusted(quote.rate, policy.spreadBps)
              && quote.fiat == fiat && Positive(quote.adjusted) && quote.stroops > 0
              && StroopsWorth(quote.adjusted, quote.stroops) <= FiatWorth(quote.adjusted, fiat)
                 < StroopsWorth(quote.adjusted, quote.stroops + 1)
  {
    hide Buy, StroopsWorth, FiatWorth;
    if Sane(policy) && fiat > 0 && market.rate.Some? && market.rate.value.0 > 0 && market.rate.value.1 > 0 {
      var rate := Rate(market.rate.value.0, market.rate.value.1);
      var adjusted := Adjusted(rate, policy.spreadBps);
      Products(rate, policy.spreadBps);
      BuyIsFloor(adjusted, fiat, 1);
      BuyIsFloor(adjusted, fiat, INT64_MAX + 1);
      BuyIsFloor(adjusted, fiat, Buy(adjusted, fiat));
      BuyIsFloor(adjusted, fiat, Buy(adjusted, fiat) + 1);
    }
  }

  function NonNegative(n: int): nat {
    if n < 0 then 0 else n
  }

  // The adjusted rate a market and policy give.
  function AdjustedOf(policy: Policy, market: Market): Rate
    requires market.rate.Some? && policy.spreadBps >= 0
  {
    Adjusted(Rate(NonNegative(market.rate.value.0), market.rate.value.1), policy.spreadBps)
  }

  // A market and policy that quotes can be given at.
  predicate Quotable(policy: Policy, now: int, market: Market) {
    && Sane(policy) && Fresh(policy, now, market) && market.rate.Some?
    && Positive(Rate(NonNegative(market.rate.value.0), market.rate.value.1))
  }

  lemma QuotableIsPositive(policy: Policy, now: int, market: Market)
    requires Quotable(policy, now, market)
    ensures Positive(AdjustedOf(policy, market))
  {
    Products(Rate(NonNegative(market.rate.value.0), market.rate.value.1), policy.spreadBps);
  }

  // Quotes of either side are the floors at the adjusted rate, given exactly
  // when the floor is a positive int64.
  lemma QuotesAreFloors(policy: Policy, now: int, amount: int, market: Market)
    ensures Create(policy, now, amount, market).Priced? || CreateReverse(policy, now, amount, market).Priced? ==>
              Quotable(policy, now, market) && amount > 0
    ensures Quotable(policy, now, market) && amount > 0 ==>
              var rate := AdjustedOf(policy, market);
              Positive(rate)
              && (var bought := Create(policy, now, amount, market);
                  && (bought.Priced? <==> 0 < Buy(rate, amount) <= INT64_MAX)
                  && (bought.Priced? ==> bought.quote.stroops == Buy(rate, amount) && bought.quote.fiat == amount && bought.quote.adjusted == rate)
                  && (!bought.Priced? ==> bought == InvalidQuote))
              && (var sold := CreateReverse(policy, now, amount, market);
                  && (sold.Priced? <==> 0 < Sell(rate, amount) <= INT64_MAX)
                  && (sold.Priced? ==> sold.quote.fiat == Sell(rate, amount) && sold.quote.stroops == amount && sold.quote.adjusted == rate)
                  && (!sold.Priced? ==> sold == InvalidQuote))
  {
    hide Buy, Sell, Adjusted;
    if Quotable(policy, now, market) {
      QuotableIsPositive(policy, now, market);
    }
  }

  // A sale is quoted exactly on a sane policy, a fresh and positive price and
  // a positive amount worth at least one unit and less than an int64 can hold,
  // and the quote is the floor at the adjusted rate.
  lemma CreateReverseIsExact(policy: Policy, now: int, stroops: int, market: Market)
    ensures CreateReverse(policy, now, stroops, market).Priced? <==>
              && Quotable(policy, now, market) && stroops > 0
              && FiatWorth(AdjustedOf(policy, market), 1) <= StroopsWorth(AdjustedOf(policy, market), stroops)
                 < FiatWorth(AdjustedOf(policy, market), INT64_MAX + 1)
    ensures CreateReverse(policy, now, stroops, market).Priced? ==>
              var quote := CreateReverse(policy, now, stroops, market).quote;
              && quote.adjusted == AdjustedOf(policy, market) && quote.stroops == stroops && quote.fiat > 0
              && FiatWorth(quote.adjusted, quote.fiat) <= StroopsWorth(quote.adjusted, stroops)
                 < FiatWorth(quote.adjusted, quote.fiat + 1)
  {
    hide Create, CreateReverse, Buy, Sell, StroopsWorth, FiatWorth, Adjusted, AdjustedOf;
    QuotesAreFloors(policy, now, stroops, market);
    if Quotable(policy, now, market) && stroops > 0 {
      var rate := AdjustedOf(policy, market);
      SellIsFloor(rate, stroops, 1);
      SellIsFloor(rate, stroops, INT64_MAX + 1);
      SellIsFloor(rate, stroops, Sell(rate, stroops));
      SellIsFloor(rate, stroops, Sell(rate, stroops) + 1);
    }
  }

  // The price was observed at most its allowed age ago, and no more than a
  // minute ahead of the clock.
  predicate Recent(policy: Policy, now: int, market: Market) {
    && market.observedAt.Some?
    && now - policy.maxAge <= market.observedAt.value <= now + 60_000_000_000
  }

  // A quote is valid for its time to live from now on, carries the price it was
  // made at and the spread, in basis points, on top of it. What is refused is
  // refused for the first of: the policy or the amount, the age of the price,
  // the price itself.
  predicate Says(quoted: Quoted, policy: Policy, now: int, amount: int, market: Market) {
    var sane := policy.ttl > 0 && policy.maxAge > 0 && 0 <= policy.spreadBps <= 10_000 && amount > 0;
    && (!sane ==> quoted == InvalidQuote)
    && (quoted == StalePrice <==> sane && !Recent(policy, now, market))
    && (quoted == InvalidPrice <==>
          sane && Recent(policy, now, market) && (market.rate.None? || market.rate.value.0 <= 0 || market.rate.value.1 == 0))
    && (quoted.Priced? ==>
          var quote := quoted.quote;
          && quote.expiresAt == now + policy.ttl > now && market.observedAt == Some(quote.sourceAt)
          && market.rate == Some((quote.rate.num, quote.rate.den)) && quote.spreadBps == policy.spreadBps
          && Costs(quote.adjusted, quote.rate, quote.spreadBps))
  }

  // Both sides quote like that.
  lemma QuotesSay(policy: Policy, now: int, amount: int, market: Market)
    ensures Says(Create(policy, now, amount, market), policy, now, amount, market)
    ensures Says(CreateReverse(policy, now, amount, market), policy, now, amount, market)
  {
    hide Buy, Sell, Adjusted, Costs;
    if market.rate.Some? && market.rate.value.0 > 0 && 0 <= policy.spreadBps {
      SpreadIsOnTop(Rate(market.rate.value.0, market.rate.value.1), policy.spreadBps);
    }
  }

  // One rate is the other with so many ten-thousandths of it on top.
  predicate Costs(adjusted: Rate, rate: Rate, spreadBps: int) {
    10_000 * adjusted.num * rate.den == rate.num * adjusted.den * (10_000 + spreadBps)
  }

  lemma SpreadIsOnTop(rate: Rate, spreadBps: nat)
    ensures Costs(Adjusted(rate, spreadBps), rate, spreadBps)
  {
    Reorder(rate.num, BASIS + spreadBps, rate.den);
  }

  lemma Reorder(a: nat, b: nat, c: nat)
    ensures 10_000 * (a * b) * c == a * (c * 10_000) * b
  {
  }

  // Selling what a quote bought, at the same price and policy, never returns
  // more than was paid, and less than one unit and the price of a stroop is
  // lost; a sale that is not quoted would have returned nothing. An amount is
  // an int64.
  lemma BoughtThenSold(policy: Policy, now: int, fiat: int, market: Market)
    requires Create(policy, now, fiat, market).Priced?
    ensures var bought := Create(policy, now, fiat, market).quote;
            var sold := CreateReverse(policy, now, bought.stroops, market);
            var rate := bought.adjusted;
            && (sold.Priced? ==>
                  && sold.quote.adjusted == rate && sold.quote.fiat <= fiat
                  && FiatWorth(rate, fiat) - FiatWorth(rate, sold.quote.fiat) < rate.num + FiatWorth(rate, 1))
            && (!sold.Priced? ==> sold == InvalidQuote)
            && (!sold.Priced? && fiat <= INT64_MAX ==> FiatWorth(rate, fiat) < rate.num + FiatWorth(rate, 1))
  {
    hide Create, CreateReverse, Buy, Sell, FiatWorth, Adjusted, AdjustedOf;
    QuotesAreFloors(policy, now, fiat, market);
    var bought := Create(policy, now, fiat, market).quote;
    QuotesAreFloors(policy, now, bought.stroops, market);
    BuyThenSell(bought.adjusted, fiat);
    NoWorth(bought.adjusted);
  }

  lemma NoWorth(rate: Rate)
    ensures FiatWorth(rate, 0) == 0
  {
  }

  // Buying back what a quote sold never gains.
  lemma SoldThenBought(policy: Policy, now: int, stroops: int, market: Market)
    requires CreateReverse(policy, now, stroops, market).Priced?
    ensures var bought := Create(policy, now, CreateReverse(policy, now, stroops, market).quote.fiat, market);
            bought.Priced? ==> bought.quote.stroops <= stroops
  {
    hide Create, CreateReverse, Buy, Sell, Adjusted, AdjustedOf;
    QuotesAreFloors(policy, now, stroops, market);
    var sold := CreateReverse(policy, now, stroops, market).quote;
    QuotesAreFloors(policy, now, sold.fiat, market);
    SellThenBuy(sold.adjusted, stroops);
  }

  // A larger amount is never quoted for less, on either side.
  lemma QuotesAreMonotone(policy: Policy, now: int, a: int, b: int, market: Market)
    requires a <= b
    ensures Create(policy, now, a, market).Priced? && Create(policy, now, b, market).Priced? ==>
              Create(policy, now, a, market).quote.stroops <= Create(policy, now, b, market).quote.stroops
    ensures CreateReverse(policy, now, a, market).Priced? && CreateReverse(policy, now, b, market).Priced? ==>
              CreateReverse(policy, now, a, market).quote.fiat <= CreateReverse(policy, now, b, market).quote.fiat
  {
    hide Create, CreateReverse, Buy, Sell, Adjusted, AdjustedOf;
    QuotesAreFloors(policy, now, a, market);
    QuotesAreFloors(policy, now, b, market);
    if Quotable(policy, now, market) && a > 0 {
      Monotone(AdjustedOf(policy, market), a, b);
    }
  }

  predicate AllBought(policy: Policy, now: int, parts: seq<nat>, market: Market) {
    forall i :: 0 <= i < |parts| ==> Create(policy, now, parts[i], market).Priced?
  }

  predicate AllSold(policy: Policy, now: int, parts: seq<nat>, market: Market) {
    forall i :: 0 <= i < |parts| ==> CreateReverse(policy, now, parts[i], market).Priced?
  }

  function StroopsOf(policy: Policy, now: int, parts: seq<nat>, market: Market): int
    requires AllBought(policy, now, parts, market)
  {
    if parts == [] then 0
    else
      var last := |parts| - 1;
      StroopsOf(policy, now, parts[..last], market) + Create(policy, now, parts[last], market).quote.stroops
  }

  function FiatOf(policy: Policy, now: int, parts: seq<nat>, market: Market): int
    requires AllSold(policy, now, parts, market)
  {
    if parts == [] then 0
    else
      var last := |parts| - 1;
      FiatOf(policy, now, parts[..last], market) + CreateReverse(policy, now, parts[last], market).quote.fiat
  }

  lemma {:induction false} StroopsOfParts(policy: Policy, now: int, parts: seq<nat>, market: Market)
    requires Quotable(policy, now, market) && AllBought(policy, now, parts, market) && Positive(AdjustedOf(policy, market))
    ensures StroopsOf(policy, now, parts, market) == BuyEach(AdjustedOf(policy, market), parts)
  {
    hide Create, CreateReverse, Buy, Sell, AdjustedOf, Quotable;
    if parts != [] {
      var last := |parts| - 1;
      QuotesAreFloors(policy, now, parts[last], market);
      StroopsOfParts(policy, now, parts[..last], market);
    }
  }

  lemma {:induction false} FiatOfParts(policy: Policy, now: int, parts: seq<nat>, market: Market)
    requires Quotable(policy, now, market) && AllSold(policy, now, parts, market) && Positive(AdjustedOf(policy, market))
    ensures FiatOf(policy, now, parts, market) == SellEach(AdjustedOf(policy, market), parts)
  {
    hide Create, CreateReverse, Buy, Sell, AdjustedOf, Quotable;
    if parts != [] {
      var last := |parts| - 1;
      QuotesAreFloors(policy, now, parts[last], market);
      FiatOfParts(policy, now, parts[..last], market);
    }
  }

  // k orders, each quoted, get at most what one order of their sum is quoted,
  // and at most k - 1 stroops less; that order is quoted unless it is too
  // large for an int64.
  lemma SplittingPurchases(policy: Policy, now: int, parts: seq<nat>, market: Market)
    requires parts != [] && AllBought(policy, now, parts, market)
    ensures var whole, split := Create(policy, now, Sum(parts), market), StroopsOf(policy, now, parts, market);
            && (whole.Priced? ==> split <= whole.quote.stroops <= split + |parts| - 1)
            && (!whole.Priced? ==> whole == InvalidQuote && split + |parts| - 1 > INT64_MAX)
  {
    hide Create, CreateReverse, Buy, Sell, AdjustedOf;
    QuotesAreFloors(policy, now, parts[|parts| - 1], market);
    QuotesAreFloors(policy, now, Sum(parts), market);
    StroopsOfParts(policy, now, parts, market);
    SplittingABuy(AdjustedOf(policy, market), parts);
    SplitIsPositive(policy, now, parts, market);
  }

  lemma SplitIsPositive(policy: Policy, now: int, parts: seq<nat>, market: Market)
    requires parts != [] && AllBought(policy, now, parts, market)
    ensures StroopsOf(policy, now, parts, market) > 0
  {
    hide Buy, Sell;
    var init := parts[..|parts| - 1];
    if init != [] {
      SplitIsPositive(policy, now, init, market);
    }
  }

  // The same for k sales.
  lemma SplittingSales(policy: Policy, now: int, parts: seq<nat>, market: Market)
    requires parts != [] && AllSold(policy, now, parts, market)
    ensures var whole, split := CreateReverse(policy, now, Sum(parts), market), FiatOf(policy, now, parts, market);
            && (whole.Priced? ==> split <= whole.quote.fiat <= split + |parts| - 1)
            && (!whole.Priced? ==> whole == InvalidQuote && split + |parts| - 1 > INT64_MAX)
  {
    hide Create, CreateReverse, Buy, Sell, AdjustedOf;
    QuotesAreFloors(policy, now, parts[|parts| - 1], market);
    QuotesAreFloors(policy, now, Sum(parts), market);
    FiatOfParts(policy, now, parts, market);
    SplittingASale(AdjustedOf(policy, market), parts);
    SalesArePositive(policy, now, parts, market);
  }

  lemma SalesArePositive(policy: Policy, now: int, parts: seq<nat>, market: Market)
    requires parts != [] && AllSold(policy, now, parts, market)
    ensures FiatOf(policy, now, parts, market) > 0
  {
    hide Buy, Sell;
    var init := parts[..|parts| - 1];
    if init != [] {
      SalesArePositive(policy, now, init, market);
    }
  }
}
