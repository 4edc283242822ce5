/**
 * The FluentValidation rule sets of the request models, as predicates. A model is
 * valid when every rule holds (FluentValidation evaluates all of them).
 *
 * Built-in rules as FluentValidation defines them: NotEmpty on a string is
 * "neither null nor white space", on a Guid "not Guid.Empty", on a list "not
 * empty"; MaximumLength, MinimumLength and Length compare string.Length, the
 * number of UTF-16 code units (Text.Utf16Length), not the number of
 * characters; EmailAddress
 * (the ASP.NET Core compatible check) is "exactly one '@', neither first nor last".
 */
module Validators {
  import opened Wrappers
  import opened Int32s
  import opened Decimals
  import opened Monies
  import Text
  import Guids
  import OrderService
  import StockService
  import StockDomain
  import NotificationPersistence

  predicate NotEmptyText(s: string)
  {
    !Text.IsBlank(s)
  }

  predicate IsEmailAddress(s: string)
  {
    exists i | 0 < i < |s| - 1 :: s[i] == '@' && forall j | 0 <= j < |s| && j != i :: s[j] != '@'
  }

  // ---------------------------------------------------------------- CreateOrderLineRequestValidator

  /** `decimal.Round(price, 2) == price`: the price is a whole number of hundredths. */
  predicate AtMostTwoDecimals(price: Dec)
  {
    price.scale <= 2 || price.units % Pow10(price.scale - 2) == 0
  }

  /** `price > 0` and `price < 1000000` on a decimal units / 10^scale. */
  predicate PriceInRange(price: Dec)
  {
    0 < price.units < 1_000_000 * Pow10(price.scale)
  }

  predicate IsValidLine(line: OrderService.CreateOrderLineRequest)
  {
    && NotEmptyText(line.productId) && Text.Utf16Length(line.productId) <= 100
    && NotEmptyText(line.productName) && Text.Utf16Length(line.productName) <= 200
    && 0 < line.quantity <= 1000
    && PriceInRange(line.unitPrice) && AtMostTwoDecimals(line.unitPrice)
  }

  // ---------------------------------------------------------------- CreateOrderRequestValidator

  predicate DistinctProducts(lines: seq<OrderService.CreateOrderLineRequest>)
  {
    forall i, j | 0 <= i < j < |lines| :: lines[i].productId != lines[j].productId
  }

  predicate IsValidOrderRequest(request: OrderService.CreateOrderRequest)
  {
    && NotEmptyText(request.customerId) && Text.Utf16Length(request.customerId) <= 100
    && NotEmptyText(request.customerEmail) && IsEmailAddress(request.customerEmail) && Text.Utf16Length(request.customerEmail) <= 255
    && 0 < |request.orderLines| <= 50
    && (forall i | 0 <= i < |request.orderLines| :: IsValidLine(request.orderLines[i]))
    && DistinctProducts(request.orderLines)
  }

  /**
   * A validated price becomes Money without rounding: `new Money(price)` in TRY
   * keeps its value exactly, strictly between 0 and 1,000,000.
   */
  lemma ValidPriceIsExactMoney(price: Dec)
    requires PriceInRange(price) && AtMostTwoDecimals(price)
    ensures Create(price, TRY).Ok?
    ensures Create(price, TRY).value.cents * Pow10(price.scale) == price.units * 100
    ensures 0 < Create(price, TRY).value.cents < 100_000_000
  {
    var cents := ExactCents(price);
    CentsBounds(cents, price.units, Pow10(price.scale));
  }

  /** The cents of a non-negative price with at most two decimals: exactly units × 100 / 10^scale. */
  lemma ExactCents(price: Dec) returns (cents: nat)
    requires price.units >= 0 && AtMostTwoDecimals(price)
    ensures Create(price, TRY) == Ok(Money(cents, TRY))
    ensures cents * Pow10(price.scale) == price.units * 100
  {
    var d := Pow10(price.scale);
    if price.scale <= 2 {
      CreateExact(price, TRY);
      var a := Pow10(2 - price.scale);
      cents := price.units * a;
      Pow10Add(2 - price.scale, price.scale);
      assert Pow10(2) == 100;
      assert a * d == 100;
      assert cents * d == price.units * (a * d);
    } else {
      var e := Pow10(price.scale - 2);
      cents := price.units / e;
      assert price.units == cents * e;
      Pow10Add(price.scale - 2, 2);
      assert Pow10(2) == 100;
      assert d == e * 100;
      assert price.units * 100 == cents * d;
      RoundExact(cents, d);
    }
  }

  lemma CentsBounds(cents: int, units: int, d: int)
    requires d >= 1 && cents * d == units * 100 && 0 < units < 1_000_000 * d
    ensures 0 < cents < 100_000_000
  {
    assert 0 < cents * d < 100_000_000 * d;
    if cents >= 100_000_000 {
      MulLe(100_000_000, cents, d);
    }
    if cents <= 0 {
      MulLe(cents, 0, d);
    }
  }

  /**
   * A request that passes the validator meets what order creation needs of its
   * lines apart from the GUID form: positive quantities, non-negative prices and
   * pairwise distinct product ids, so no line is merged into another.
   */
  lemma ValidRequestLinesAcceptable(request: OrderService.CreateOrderRequest)
    requires IsValidOrderRequest(request)
    ensures |request.orderLines| > 0 && OrderService.AcceptableLines(request.orderLines)
  {
  }

  /** The validator does not ask for a GUID: a request it admits can still carry a product id Guid.Parse refuses. */
  lemma ValidatorAdmitsNonGuidProduct()
    ensures var line := OrderService.CreateOrderLineRequest("p-1", "Pen", 1, Dec(150, 2));
      var request := OrderService.CreateOrderRequest("c-1", "a@b", [line]);
      IsValidOrderRequest(request) && Guids.Parse(line.productId).None?
  {
    var line := OrderService.CreateOrderLineRequest("p-1", "Pen", 1, Dec(150, 2));
    assert "a@b"[1] == '@';
    assert !Text.IsWhiteSpace("p-1"[0]) && !Text.IsWhiteSpace("Pen"[0]) && !Text.IsWhiteSpace("c-1"[0]) && !Text.IsWhiteSpace("a@b"[0]);
    assert Pow10(2) == 100;
  }

  // ---------------------------------------------------------------- stock request validators

  predicate IsValidReserveRequest(request: StockService.ReserveStockRequest)
  {
    && request.productId != Guids.Empty
    && request.orderId != Guids.Empty
    && 0 < request.quantity <= 10_000
  }

  predicate IsValidCreateStockRequest(request: StockService.CreateStockRequest)
  {
    request.productId != Guids.Empty && 0 <= request.quantity <= 1_000_000
  }

  predicate IsValidUpdateStockRequest(request: StockService.UpdateStockRequest)
  {
    0 <= request.quantity <= 1_000_000
  }

  /** StockQueryParameters' validated fields. */
  datatype StockQueryParameters = StockQueryParameters(page: Int32, pageSize: Int32, minQuantity: Option<Int32>, maxQuantity: Option<Int32>)

  predicate IsValidStockQuery(p: StockQueryParameters)
  {
    && p.page >= 1
    && 1 <= p.pageSize <= 100
    && (p.minQuantity.Some? ==> p.minQuantity.value >= 0)
    && (p.maxQuantity.Some? ==> p.maxQuantity.value >= 0)
    && (p.minQuantity.Some? && p.maxQuantity.Some? ==> p.minQuantity.value <= p.maxQuantity.value)
  }

  /** The stock validators admit exactly the quantities from 0 to 1,000,000 (for a product id other than Guid.Empty). */
  lemma StockQuantityBounds(productId: Guids.Guid, quantity: Int32)
    ensures productId != Guids.Empty ==>
      (IsValidCreateStockRequest(StockService.CreateStockRequest(productId, quantity)) <==> 0 <= quantity <= 1_000_000)
    ensures IsValidUpdateStockRequest(StockService.UpdateStockRequest(quantity)) <==> 0 <= quantity <= 1_000_000
    ensures productId == Guids.Empty ==> !IsValidCreateStockRequest(StockService.CreateStockRequest(productId, quantity))
  {
  }

  /**
   * A reserve request that passes its validator asks for a positive amount, so
   * reserving it keeps a consistent stock row consistent (the entity alone does
   * not guard the sign).
   */
  lemma ValidReserveKeepsConsistent(request: StockService.ReserveStockRequest, s: StockDomain.StockRow)
    requires IsValidReserveRequest(request) && StockDomain.Consistent(s)
    ensures StockDomain.CanReserve(s, request.quantity) ==>
      && StockDomain.Consistent(StockDomain.Reserve(s, request.quantity))
      && StockDomain.Reserve(s, request.quantity).reservedQuantity > s.reservedQuantity
    ensures StockDomain.CanReserve(s, request.quantity) <==> s.reservedQuantity + request.quantity <= s.quantity
  {
    StockDomain.CanReserveMeaning(s, request.quantity);
    if StockDomain.CanReserve(s, request.quantity) {
      StockDomain.ReserveKeepsConsistent(s, request.quantity);
    }
  }

  /** Absent quantity filters impose nothing; both present must be ordered. */
  lemma StockQueryFilters(page: Int32, pageSize: Int32, min: Int32, max: Int32)
    requires page >= 1 && 1 <= pageSize <= 100
    ensures IsValidStockQuery(StockQueryParameters(page, pageSize, None, None))
    ensures IsValidStockQuery(StockQueryParameters(page, pageSize, Some(min), Some(max))) <==> 0 <= min <= max
  {
  }

  // ---------------------------------------------------------------- NotificationSmsCreateModelValidator

  predicate IsAsciiDigit(c: char)
  {
    '0' <= c <= '9'
  }

  /** What follows the optional leading '+'. */
  function PhoneDigits(s: string): (d: string)
    ensures |d| >= |s| - 1
  {
    if |s| > 0 && s[0] == '+' then s[1..] else s
  }

  predicate DigitString(d: string)
  {
    forall i | 0 <= i < |d| :: IsAsciiDigit(d[i])
  }

  /** `\+?[1-9]\d{1,14}` matching all of `s`. */
  predicate PhoneBody(s: string)
  {
    var d := PhoneDigits(s);
    2 <= |d| <= 15 && '1' <= d[0] <= '9' && DigitString(d)
  }

  /** `^\+?[1-9]\d{1,14}$`; in .NET `$` also matches just before a final line feed. */
  predicate MatchesPhonePattern(s: string)
  {
    PhoneBody(s) || (|s| > 0 && s[|s| - 1] == '\n' && PhoneBody(s[..|s| - 1]))
  }

  predicate IsValidSmsModel(model: NotificationPersistence.NotificationSmsCreateModel)
  {
    && NotEmptyText(model.recipient) && 10 <= Text.Utf16Length(model.recipient) <= 15 && MatchesPhonePattern(model.recipient)
    && NotEmptyText(model.text) && 1 <= Text.Utf16Length(model.text) <= 160
  }

  /**
   * A valid recipient is an optional '+', a digit 1-9 and further ASCII digits,
   * 8 to 15 digits in all, possibly followed by one line feed.
   */
  lemma ValidRecipientShape(model: NotificationPersistence.NotificationSmsCreateModel)
    requires IsValidSmsModel(model)
    ensures var s := model.recipient;
      var core := if s[|s| - 1] == '\n' then s[..|s| - 1] else s;
      PhoneBody(core) && 8 <= |PhoneDigits(core)| <= 15
  {
    var s := model.recipient;
    if s[|s| - 1] == '\n' {
      var d := PhoneDigits(s);
      assert d[|d| - 1] == s[|s| - 1];
      assert !IsAsciiDigit(d[|d| - 1]);
      assert !PhoneBody(s);
    }
    var core := if s[|s| - 1] == '\n' then s[..|s| - 1] else s;
    var d := PhoneDigits(core);
    // every character is '+', a digit or the line feed, so string.Length counts characters
    forall i | 0 <= i < |s|
      ensures !Text.IsSupplementary(s[i])
    {
      if i < |core| && !(i == 0 && s[0] == '+') {
        var k := if core[0] == '+' then i - 1 else i;
        assert d[k] == core[i] == s[i];
      }
    }
    Text.Utf16LengthCountsPairs(s);
  }

  /** The example of the validator's own message is accepted. */
  lemma PhonePatternAcceptsExample()
    ensures MatchesPhonePattern("+905551234567")
  {
    var d := PhoneDigits("+905551234567");
    assert d == ['9', '0', '5', '5', '5', '1', '2', '3', '4', '5', '6', '7'];
  }

  /** A number whose first digit (after an optional '+') is zero is refused. */
  lemma LeadingZeroRefused(s: string)
    requires |s| > 0 && (s[0] == '0' || (|s| > 1 && s[0] == '+' && s[1] == '0'))
    ensures !MatchesPhonePattern(s)
  {
    if |s| > 1 && s[|s| - 1] == '\n' {
      var core := s[..|s| - 1];
      assert core[0] == s[0] && (|core| > 1 ==> core[1] == s[1]);
    }
  }

  /**
   * Any character other than an ASCII digit is refused, except a '+' in front
   * and a line feed at the end.
   */
  lemma NonDigitRefused(s: string, i: nat)
    requires i < |s| && !IsAsciiDigit(s[i])
    requires i == 0 ==> s[i] != '+'
    requires i == |s| - 1 ==> s[i] != '\n'
    ensures !MatchesPhonePattern(s)
  {
    var d := PhoneDigits(s);
    var k := if s[0] == '+' then i - 1 else i;
    assert 0 <= k < |d| && d[k] == s[i];
    if s[|s| - 1] == '\n' {
      var core := s[..|s| - 1];
      var e := PhoneDigits(core);
      assert core[0] == s[0] && core[i] == s[i];
      assert 0 <= k < |e| && e[k] == s[i];
    }
  }
}
