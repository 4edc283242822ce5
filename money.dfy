/**
 * System.Decimal values as far as the order code uses them: a decimal is an
 * integer count of units of 10^-scale, and Math.Round(x, 2) rounds to the
 * nearest hundredth with ties to the even neighbour (MidpointRounding.ToEven).
 */
module Decimals {
  /** The decimal units / 10^scale. */
  datatype Dec = Dec(units: int, scale: nat)

  function Pow10(n: nat): (r: nat)
    ensures r >= 1
  {
    if n == 0 then 1 else 10 * Pow10(n - 1)
  }

  lemma {:induction false} Pow10Add(a: nat, b: nat)
    ensures Pow10(a + b) == Pow10(a) * Pow10(b)
  {
    if a > 0 {
      Pow10Add(a - 1, b);
    }
  }

  /** n / d rounded to the nearest integer, a tie going to the even one. */
  function RoundHalfEven(n: nat, d: nat): (r: nat)
    requires d > 0
    ensures 2 * (r * d - n) <= d && 2 * (n - r * d) <= d
    ensures 2 * (r * d - n) == d || 2 * (n - r * d) == d ==> r % 2 == 0
  {
    var q := n / d;
    var rem := n % d;
    assert n == q * d + rem;
    if 2 * rem < d then q
    else if 2 * rem > d then q + 1
    else if q % 2 == 0 then q else q + 1
  }

  /** The rounding is THE nearest-even integer: any integer within half of n / d, even on a tie, is it. */
  lemma RoundHalfEvenUnique(n: nat, d: nat, r: nat)
    requires d > 0
    requires 2 * (r * d - n) <= d && 2 * (n - r * d) <= d
    requires 2 * (r * d - n) == d || 2 * (n - r * d) == d ==> r % 2 == 0
    ensures r == RoundHalfEven(n, d)
  {
    var e := RoundHalfEven(n, d);
    if r > e {
      Adjacent(n, d, r, e);
    } else if r < e {
      Adjacent(n, d, e, r);
    }
  }

  /** Two distinct integers within half of n / d are neighbours, each exactly half away. */
  lemma Adjacent(n: nat, d: nat, hi: nat, lo: nat)
    requires d > 0 && hi > lo
    requires 2 * (hi * d - n) <= d && 2 * (n - lo * d) <= d
    ensures hi == lo + 1 && 2 * (hi * d - n) == d && 2 * (n - lo * d) == d
  {
    var x, y := hi * d, lo * d;
    assert (hi - lo) * d == x - y;
    MulCancel(hi - lo, d);
  }

  /** A multiple k * d of a positive d that is at most d is d itself only for k = 1. */
  lemma MulCancel(k: int, d: int)
    requires d > 0 && k >= 1
    ensures k * d <= d ==> k == 1
  {
    if k >= 2 {
      MulLe(2, k, d);
    }
  }

  lemma MulLe(a: int, b: int, d: int)
    requires a <= b && d >= 0
    ensures a * d <= b * d
  {
  }

  /** An exact quotient is not changed by rounding. */
  lemma RoundExact(k: nat, d: nat)
    requires d > 0
    ensures RoundHalfEven(k * d, d) == k
  {
    RoundHalfEvenUnique(k * d, d, k);
  }
}

/**
 * The Currency and Money value objects of the order domain. A Money amount is
 * held in hundredths (`cents`), which is what Math.Round(amount, 2) leaves.
 */
module Monies {
  import opened Wrappers
  import opened Exceptions
  import opened Decimals

  /** The three instances Currency's private constructor is ever called for. */
  datatype Currency = TRY | USD | EUR
  {
    function Code(): string
    {
      match this
      case TRY => "TRY"
      case USD => "USD"
      case EUR => "EUR"
    }
  }

  /** Currency.All, in its declared order. */
  const All: seq<Currency> := [TRY, USD, EUR]

  function FindCode(cs: seq<Currency>, code: string): (r: Option<Currency>)
    ensures r.Some? ==> r.value in cs && r.value.Code() == code
    ensures r.None? ==> forall c | c in cs :: c.Code() != code
  {
    if cs == [] then None else if cs[0].Code() == code then Some(cs[0]) else FindCode(cs[1..], code)
  }

  /** Currency.FromCode: the first of All with that code, else an ArgumentException. */
  function FromCode(code: string): (r: Result<Currency, Thrown>)
    ensures r.Ok? <==> code in {"TRY", "USD", "EUR"}
    ensures r.Ok? ==> r.value.Code() == code
    ensures r.Err? ==> r.error == Thrown(Argument, "Code '" + code + "' is not a valid currency code.")
  {
    match FindCode(All, code)
    case Some(c) => Ok(c)
    case None => Err(Thrown(Argument, "Code '" + code + "' is not a valid currency code."))
  }

  /** Looking a currency up by its own code finds it. */
  lemma FromCodeOfCode(c: Currency)
    ensures FromCode(c.Code()) == Ok(c)
  {
  }

  datatype Money = Money(cents: nat, currency: Currency)
  {
    /** The Amount property. */
    function Amount(): Dec { Dec(cents, 2) }
  }

  const NegativeAmount: Thrown := ArgumentException("Amount cannot be negative", "amount")

  /** `new Money(amount, currency)`: negative amounts are refused, the rest rounded to two places. */
  function Create(amount: Dec, currency: Currency): (r: Result<Money, Thrown>)
    ensures r.Err? <==> amount.units < 0
    ensures r.Err? ==> r.error == NegativeAmount
    ensures r.Ok? ==> r.value.currency == currency
    ensures r.Ok? ==> 2 * (r.value.cents * Pow10(amount.scale) - amount.units * 100) <= Pow10(amount.scale)
    ensures r.Ok? ==> 2 * (amount.units * 100 - r.value.cents * Pow10(amount.scale)) <= Pow10(amount.scale)
  {
    if amount.units < 0 then Err(NegativeAmount)
    else Ok(Money(RoundHalfEven(amount.units * 100, Pow10(amount.scale)), currency))
  }

  /** An amount with at most two decimals is kept exactly. */
  lemma CreateExact(amount: Dec, currency: Currency)
    requires amount.units >= 0 && amount.scale <= 2
    ensures Create(amount, currency) == Ok(Money(amount.units * Pow10(2 - amount.scale), currency))
  {
    var k := amount.units * Pow10(2 - amount.scale);
    var d := Pow10(amount.scale);
    assert k * d == amount.units * 100 by {
      if amount.scale == 0 {
        assert d == 1 && Pow10(2) == 100;
      } else if amount.scale == 1 {
        assert d == 10 && Pow10(1) == 10;
      } else {
        assert d == 100 && Pow10(0) == 1;
      }
    }
    RoundExact(k, d);
  }

  /** `new Money(amount, currencyCode = "TRY")`: the code is resolved before the amount is checked. */
  function CreateWithCode(amount: Dec, currencyCode: string := "TRY"): (r: Result<Money, Thrown>)
    ensures FromCode(currencyCode).Err? ==> r == Err(FromCode(currencyCode).error)
    ensures FromCode(currencyCode).Ok? ==> r == Create(amount, FromCode(currencyCode).value)
  {
    match FromCode(currencyCode)
    case Err(e) => Err(e)
    case Ok(c) => Create(amount, c)
  }

  /** Money.Zero(currency). */
  function Zero(currency: Currency): Money
  {
    Money(0, currency)
  }

  function Mismatch(verb: string, left: Money, right: Money): Thrown
  {
    InvalidOperationException("Cannot " + verb + " money with different currencies: " + left.currency.Code() + " and " + right.currency.Code())
  }

  /** operator +: same currency only; the sum of two two-place amounts needs no rounding. */
  function Add(left: Money, right: Money): (r: Result<Money, Thrown>)
    ensures r.Ok? <==> left.currency == right.currency
    ensures r.Ok? ==> r.value == Money(left.cents + right.cents, left.currency)
    ensures r.Err? ==> r.error == Mismatch("add", left, right)
  {
    if left.currency != right.currency then Err(Mismatch("add", left, right))
    else
      var sum := Create(Dec(left.cents + right.cents, 2), left.currency);
      CreateExact(Dec(left.cents + right.cents, 2), left.currency);
      sum
  }

  /** operator -: same currency only, and a result below zero throws like the constructor. */
  function Sub(left: Money, right: Money): (r: Result<Money, Thrown>)
    ensures r.Ok? <==> left.currency == right.currency && left.cents >= right.cents
    ensures r.Ok? ==> r.value == Money(left.cents - right.cents, left.currency)
    ensures left.currency != right.currency ==> r == Err(Mismatch("subtract", left, right))
    ensures left.currency == right.currency && left.cents < right.cents ==> r == Err(NegativeAmount)
  {
    if left.currency != right.currency then Err(Mismatch("subtract", left, right))
    else
      var diff := Create(Dec(left.cents - right.cents, 2), left.currency);
      if left.cents >= right.cents then CreateExact(Dec(left.cents - right.cents, 2), left.currency); diff
      else diff
  }

  /** Subtraction undoes addition. */
  lemma SubUndoesAdd(a: Money, b: Money)
    requires Add(a, b).Ok?
    ensures Sub(Add(a, b).value, b) == Ok(a)
  {
  }

  /** operator *(money, multiplier): the exact product, rounded to two places. */
  function Mul(money: Money, multiplier: Dec): (r: Result<Money, Thrown>)
    ensures r.Err? <==> money.cents * multiplier.units < 0
    ensures r.Err? ==> r.error == NegativeAmount
    ensures r.Ok? ==> r.value.currency == money.currency
  {
    Create(Dec(money.cents * multiplier.units, 2 + multiplier.scale), money.currency)
  }

  /** Multiplying by a whole quantity never rounds. */
  lemma MulByCount(money: Money, n: nat)
    ensures Mul(money, Dec(n, 0)) == Ok(Money(money.cents * n, money.currency))
  {
    CreateExact(Dec(money.cents * n, 2), money.currency);
  }

  /** operator /: a zero divisor throws DivideByZeroException, a negative quotient throws like the constructor. */
  function Div(money: Money, divisor: Dec): (r: Result<Money, Thrown>)
    ensures divisor.units == 0 ==> r == Err(Thrown(DivideByZero, "Cannot divide money by zero"))
    ensures divisor.units != 0 ==> (r.Err? <==> money.cents > 0 && divisor.units < 0)
    ensures divisor.units > 0 ==> r == Ok(Money(RoundHalfEven(money.cents * Pow10(divisor.scale), divisor.units), money.currency))
  {
    if divisor.units == 0 then Err(Thrown(DivideByZero, "Cannot divide money by zero"))
    else if money.cents > 0 && divisor.units < 0 then Err(NegativeAmount)
    else
      var d: nat := if divisor.units < 0 then -divisor.units else divisor.units;
      Ok(Money(RoundHalfEven(money.cents * Pow10(divisor.scale), d), money.currency))
  }

  /** Dividing by the whole quantity one multiplied by gives the original amount back. */
  lemma DivUndoesMulByCount(money: Money, n: nat)
    requires n > 0
    ensures Div(Mul(money, Dec(n, 0)).value, Dec(n, 0)) == Ok(money)
  {
    MulByCount(money, n);
    RoundExact(money.cents, n);
  }

  /** operator >: a currency mismatch throws. */
  function Greater(left: Money, right: Money): (r: Result<bool, Thrown>)
    ensures r.Ok? <==> left.currency == right.currency
    ensures r.Ok? ==> r.value == (left.cents > right.cents)
  {
    if left.currency != right.currency then Err(Mismatch("compare", left, right)) else Ok(left.cents > right.cents)
  }

  /** operator <: a currency mismatch throws. */
  function Less(left: Money, right: Money): (r: Result<bool, Thrown>)
    ensures r.Ok? <==> left.currency == right.currency
    ensures r.Ok? ==> r.value == (left.cents < right.cents)
  {
    if left.currency != right.currency then Err(Mismatch("compare", left, right)) else Ok(left.cents < right.cents)
  }

  /** operator >=, written `left > right || left.Equals(right)`: the `>` throws first on a mismatch. */
  function GreaterOrEqual(left: Money, right: Money): (r: Result<bool, Thrown>)
  {
    match Greater(left, right)
    case Err(e) => Err(e)
    case Ok(b) => Ok(b || left == right)
  }

  /** operator <=, written `left < right || left.Equals(right)`. */
  function LessOrEqual(left: Money, right: Money): (r: Result<bool, Thrown>)
  {
    match Less(left, right)
    case Err(e) => Err(e)
    case Ok(b) => Ok(b || left == right)
  }

  /** Within one currency the four comparisons are the order on amounts, and >= is the negation of <. */
  lemma ComparisonsAgree(left: Money, right: Money)
    requires left.currency == right.currency
    ensures GreaterOrEqual(left, right) == Ok(left.cents >= right.cents)
    ensures LessOrEqual(left, right) == Ok(left.cents <= right.cents)
    ensures GreaterOrEqual(left, right).value == !Less(left, right).value
  {
  }

  /** Across currencies every comparison throws, including >= and <=. */
  lemma ComparisonsThrowOnMismatch(left: Money, right: Money)
    requires left.currency != right.currency
    ensures GreaterOrEqual(left, right).Err? && LessOrEqual(left, right).Err?
    ensures Greater(left, right).Err? && Less(left, right).Err?
  {
  }

  /** ConvertTo(targetCurrency, exchangeRate): the same currency returns this unchanged. */
  function ConvertTo(money: Money, target: Currency, exchangeRate: Dec): (r: Result<Money, Thrown>)
    ensures money.currency == target ==> r == Ok(money)
    ensures money.currency != target ==> (r.Err? <==> money.cents * exchangeRate.units < 0)
    ensures money.currency != target && r.Ok? ==> r.value.currency == target
  {
    if money.currency == target then Ok(money)
    else Create(Dec(money.cents * exchangeRate.units, 2 + exchangeRate.scale), target)
  }

  /** A rate of exactly one changes only the currency. */
  lemma ConvertAtParity(money: Money, target: Currency)
    ensures ConvertTo(money, target, Dec(1, 0)) == Ok(Money(money.cents, target))
  {
    CreateExact(Dec(money.cents, 2), target);
  }

  predicate HasSameCurrency(money: Money, other: Money)
  {
    money.currency == other.currency
  }

  /** Aggregate(Money.Zero(), (sum, m) => sum + m) over a list of amounts. */
  function Sum(start: Money, amounts: seq<Money>): (r: Result<Money, Thrown>)
    decreases |amounts|
  {
    if amounts == [] then Ok(start)
    else match Add(start, amounts[0])
      case Err(e) => Err(e)
      case Ok(s) => Sum(s, amounts[1..])
  }

  function CentsTotal(amounts: seq<Money>): nat
  {
    if amounts == [] then 0 else amounts[0].cents + CentsTotal(amounts[1..])
  }

  /** Summing amounts of one currency adds their cents exactly; one stranger makes the sum throw. */
  lemma {:induction false} SumOneCurrency(start: Money, amounts: seq<Money>)
    decreases |amounts|
    ensures (forall i | 0 <= i < |amounts| :: amounts[i].currency == start.currency) ==>
      Sum(start, amounts) == Ok(Money(start.cents + CentsTotal(amounts), start.currency))
    ensures (exists i | 0 <= i < |amounts| :: amounts[i].currency != start.currency) ==> Sum(start, amounts).Err?
  {
    if amounts != [] {
      if amounts[0].currency == start.currency {
        var next := Money(start.cents + amounts[0].cents, start.currency);
        assert Add(start, amounts[0]) == Ok(next);
        assert Sum(start, amounts) == Sum(next, amounts[1..]);
        SumOneCurrency(next, amounts[1..]);
        assert forall i | 1 <= i < |amounts| :: amounts[i] == amounts[1..][i - 1];
      } else {
        assert Add(start, amounts[0]).Err?;
      }
    }
  }
}
