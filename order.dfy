/**
 * The Order aggregate and its OrderLine entities: the order's lifecycle from
 * Pending through the stock reservation saga to delivery, the line editing
 * that is allowed only while the order is Pending, and the outbox events the
 * aggregate appends when it asks for stock and when it is confirmed.
 *
 * The aggregate is a class whose methods change its fields; each method is
 * specified by a function of the aggregate's snapshot (`OrderState`), and the
 * lifecycle, guard and total-amount properties are proved about those
 * functions. An exception thrown by a method is the `thrown` out-parameter;
 * where the C# code has already changed fields before it throws, the snapshot
 * keeps those changes.
 */
module OrderDomain {
  import opened Wrappers
  import opened Exceptions
  import opened Int32s
  import opened Decimals
  import opened Monies
  import opened OrderOutbox
  import Guids
  import Text

  datatype OrderStatus =
    | Pending
    | AwaitingStockReservation
    | StockReserved
    | StockReservationFailed
    | Confirmed
    | Shipped
    | Delivered
    | Cancelled

  /** One OrderLine: ProductId is free text here, a Guid only by convention. */
  datatype OrderLineRow = OrderLineRow(
    id: Guids.Guid,
    orderId: Guids.Guid,
    productId: string,
    productName: string,
    unitPrice: Money,
    quantity: Int32,
    createdAt: int,
    updatedAt: Option<int>)

  /** The aggregate's fields. `id` stays Guid.Empty until EF Core generates the key on Add. */
  datatype OrderState = OrderState(
    id: Guids.Guid,
    customerId: string,
    customerEmail: string,
    status: OrderStatus,
    totalAmount: Money,
    notes: Option<string>,
    orderLines: seq<OrderLineRow>,
    outboxEvents: seq<OutboxRow>,
    createdAt: int,
    updatedAt: Option<int>)

  /** The aggregate after a command, and the exception the command threw, if any. */
  datatype Outcome = Outcome(state: OrderState, thrown: Option<Thrown>)

  /** The exceptions the aggregate throws, by the guard that throws them. */
  const NewQuantityNotPositive: Thrown := ArgumentException("Quantity must be greater than zero", "newQuantity")
  const QuantityNotPositive: Thrown := ArgumentException("Quantity must be greater than zero", "quantity")
  const ReserveWhenNotAwaiting: Thrown := InvalidOperationException("Can only mark stock as reserved for orders awaiting stock reservation")
  const FailWhenNotAwaiting: Thrown := InvalidOperationException("Can only mark stock reservation as failed for orders awaiting stock reservation")
  const RequestWhenNotPending: Thrown := InvalidOperationException("Can only request stock reservation for pending orders")
  const AddWhenNotPending: Thrown := InvalidOperationException("Cannot add items to a non-pending order")
  const CancelAfterShipping: Thrown := InvalidOperationException("Cannot cancel a shipped or delivered order")
  const ConfirmWithoutLines: Thrown := InvalidOperationException("Cannot confirm an order without order lines")
  const RemoveWhenNotPending: Thrown := InvalidOperationException("Cannot remove items from a non-pending order")
  const RequestWithoutLines: Thrown := InvalidOperationException("Cannot request stock reservation for an order without items")
  const UpdateWhenNotPending: Thrown := InvalidOperationException("Cannot update quantities in a non-pending order")
  const ShipWhenNotConfirmed: Thrown := InvalidOperationException("Only confirmed orders can be marked as shipped")
  const ConfirmWhenNotReserved: Thrown := InvalidOperationException("Only orders with reserved stock can be confirmed")
  const DeliverWhenNotShipped: Thrown := InvalidOperationException("Only shipped orders can be marked as delivered")

  const GuidFormatError: Thrown := Thrown(Format, "Unrecognized Guid format.")

  function Throw(s: OrderState, e: Thrown): Outcome
  {
    Outcome(s, Some(e))
  }

  function Done(s: OrderState): Outcome
  {
    Outcome(s, None)
  }

  // ---------------------------------------------------------------- order lines

  /** `new OrderLine(productId, productName, unitPrice, quantity)`: OrderId is still the default Guid. */
  function NewLine(id: Guids.Guid, productId: string, productName: string, unitPrice: Money, quantity: Int32, now: int)
    : (r: Result<OrderLineRow, Thrown>)
    ensures r.Err? <==> quantity <= 0
    ensures r.Err? ==> r.error == QuantityNotPositive
    ensures r.Ok? ==> r.value.productId == productId && r.value.unitPrice == unitPrice && r.value.quantity == quantity
  {
    if quantity <= 0 then Err(QuantityNotPositive)
    else Ok(OrderLineRow(id, Guids.Empty, productId, productName, unitPrice, quantity, now, None))
  }

  /** OrderLine.UpdateQuantity(newQuantity). */
  function UpdatedQuantity(l: OrderLineRow, newQuantity: Int32, now: int): (r: Result<OrderLineRow, Thrown>)
    ensures r.Err? <==> newQuantity <= 0
    ensures r.Err? ==> r.error == NewQuantityNotPositive
    ensures r.Ok? ==> r.value.quantity == newQuantity && r.value.(quantity := l.quantity, updatedAt := l.updatedAt) == l
  {
    if newQuantity <= 0 then Err(NewQuantityNotPositive)
    else Ok(l.(quantity := newQuantity, updatedAt := Some(now)))
  }

  /**
   * OrderLine.TotalPrice, `UnitPrice * Quantity`: the product in cents, which a
   * negative quantity makes negative and so refused like the Money constructor.
   */
  function LineTotal(l: OrderLineRow): (r: Result<Money, Thrown>)
    ensures r.Ok? <==> l.unitPrice.cents * l.quantity >= 0
    ensures l.quantity >= 0 ==> r == Ok(Money(l.unitPrice.cents * l.quantity, l.unitPrice.currency))
  {
    var product := l.unitPrice.cents * l.quantity;
    if product < 0 then Err(NegativeAmount) else Ok(Money(product, l.unitPrice.currency))
  }

  /** LineTotal is the Money operator `*` applied to the unit price and the quantity as a decimal. */
  lemma LineTotalIsMoneyTimesQuantity(l: OrderLineRow)
    ensures LineTotal(l) == Mul(l.unitPrice, Dec(l.quantity, 0))
  {
    var product := l.unitPrice.cents * l.quantity;
    if product >= 0 {
      CreateExact(Dec(product, 2), l.unitPrice.currency);
    }
  }

  /** The tracked OrderLine entity. */
  class OrderLine {
    var id: Guids.Guid
    var orderId: Guids.Guid
    var productId: string
    var productName: string
    var unitPrice: Money
    var quantity: Int32
    var createdAt: int
    var updatedAt: Option<int>

    function Row(): OrderLineRow
      reads this
    {
      OrderLineRow(id, orderId, productId, productName, unitPrice, quantity, createdAt, updatedAt)
    }

    constructor Load(row: OrderLineRow)
      ensures Row() == row
    {
      id := row.id;
      orderId := row.orderId;
      productId := row.productId;
      productName := row.productName;
      unitPrice := row.unitPrice;
      quantity := row.quantity;
      createdAt := row.createdAt;
      updatedAt := row.updatedAt;
    }

    function TotalPrice(): (r: Result<Money, Thrown>)
      reads this
      ensures r == LineTotal(Row())
      ensures quantity > 0 ==> r.Ok? && r.value.currency == unitPrice.currency && r.value.cents == unitPrice.cents * quantity
    {
      LineTotal(Row())
    }

    method UpdateQuantity(newQuantity: Int32, now: int) returns (thrown: Option<Thrown>)
      modifies this
      ensures UpdatedQuantity(old(Row()), newQuantity, now).Err? ==>
        Row() == old(Row()) && thrown == Some(UpdatedQuantity(old(Row()), newQuantity, now).error)
      ensures UpdatedQuantity(old(Row()), newQuantity, now).Ok? ==>
        Row() == UpdatedQuantity(old(Row()), newQuantity, now).value && thrown == None
    {
      if newQuantity <= 0 {
        return Some(NewQuantityNotPositive);
      }
      quantity := newQuantity;
      updatedAt := Some(now);
      thrown := None;
    }

    method UpdateUnitPrice(newUnitPrice: Money, now: int)
      modifies this
      ensures Row() == old(Row()).(unitPrice := newUnitPrice, updatedAt := Some(now))
      ensures quantity >= 0 ==> TotalPrice() == Ok(Money(newUnitPrice.cents * quantity, newUnitPrice.currency))
    {
      unitPrice := newUnitPrice;
      updatedAt := Some(now);
    }

    /** The decimal overload: `new Money(newUnitPrice)` in TRY, which refuses a negative price first. */
    method UpdateUnitPriceDecimal(newUnitPrice: Dec, now: int) returns (thrown: Option<Thrown>)
      modifies this
      ensures newUnitPrice.units < 0 ==> Row() == old(Row()) && thrown == Some(NegativeAmount)
      ensures newUnitPrice.units >= 0 ==>
        thrown == None && Row() == old(Row()).(unitPrice := Create(newUnitPrice, TRY).value, updatedAt := Some(now))
    {
      var price := Create(newUnitPrice, TRY);
      if price.Err? {
        return Some(price.error);
      }
      UpdateUnitPrice(price.value, now);
      thrown := None;
    }

    method SetOrderId(orderId: Guids.Guid)
      modifies this
      ensures Row() == old(Row()).(orderId := orderId)
    {
      this.orderId := orderId;
    }

    method SetOrder(order: Order)
      modifies this
      ensures Row() == old(Row()).(orderId := order.id)
    {
      orderId := order.id;
    }
  }

  // ---------------------------------------------------------------- totals

  /** OrderLines.Aggregate(acc, (sum, ol) => sum + ol.TotalPrice), left to right; the first exception wins. */
  function SumLines(acc: Money, lines: seq<OrderLineRow>): Result<Money, Thrown>
    decreases |lines|
  {
    if lines == [] then Ok(acc)
    else match LineTotal(lines[0])
      case Err(e) => Err(e)
      case Ok(p) =>
        match Add(acc, p)
        case Err(e) => Err(e)
        case Ok(sum) => SumLines(sum, lines[1..])
  }

  /** The value RecalculateTotalAmount computes, starting from Money.Zero() in TRY. */
  function Recalculated(lines: seq<OrderLineRow>): Result<Money, Thrown>
  {
    SumLines(Zero(TRY), lines)
  }

  /** The sum over the lines of unit price times quantity, in cents. */
  function LinesCents(lines: seq<OrderLineRow>): (c: int)
    ensures (forall i | 0 <= i < |lines| :: lines[i].quantity >= 0) ==> c >= 0
  {
    if lines == [] then 0 else lines[0].unitPrice.cents * lines[0].quantity + LinesCents(lines[1..])
  }

  predicate AllInCurrency(lines: seq<OrderLineRow>, c: Currency)
  {
    forall i | 0 <= i < |lines| :: lines[i].unitPrice.currency == c
  }

  predicate QuantitiesPositive(lines: seq<OrderLineRow>)
  {
    forall i | 0 <= i < |lines| :: lines[i].quantity > 0
  }

  /** The aggregation adds the line totals exactly when all prices share the start's currency, and throws otherwise. */
  lemma {:induction false} SumLinesIsSum(acc: Money, lines: seq<OrderLineRow>)
    requires forall i | 0 <= i < |lines| :: lines[i].quantity >= 0
    decreases |lines|
    ensures AllInCurrency(lines, acc.currency) ==> SumLines(acc, lines) == Ok(Money(acc.cents + LinesCents(lines), acc.currency))
    ensures !AllInCurrency(lines, acc.currency) ==> SumLines(acc, lines).Err?
  {
    if lines != [] {
      var l := lines[0];
      assert LineTotal(l) == Ok(Money(l.unitPrice.cents * l.quantity, l.unitPrice.currency));
      var total := Money(l.unitPrice.cents * l.quantity, l.unitPrice.currency);
      if l.unitPrice.currency == acc.currency {
        var next := Money(acc.cents + l.unitPrice.cents * l.quantity, acc.currency);
        assert Add(acc, total) == Ok(next);
        assert SumLines(acc, lines) == SumLines(next, lines[1..]);
        SumLinesIsSum(next, lines[1..]);
        assert AllInCurrency(lines, acc.currency) <==> AllInCurrency(lines[1..], acc.currency) by {
          if AllInCurrency(lines[1..], acc.currency) {
            forall i | 0 <= i < |lines| ensures lines[i].unitPrice.currency == acc.currency {
              if i > 0 { assert lines[i] == lines[1..][i - 1]; }
            }
          }
        }
      } else {
        assert Add(acc, total).Err?;
      }
    }
  }

  /** RecalculateTotalAmount yields the TRY sum of the line totals, and throws as soon as one line is priced in another currency. */
  lemma RecalculatedIsLineSum(lines: seq<OrderLineRow>)
    requires forall i | 0 <= i < |lines| :: lines[i].quantity >= 0
    ensures AllInCurrency(lines, TRY) <==> Recalculated(lines).Ok?
    ensures AllInCurrency(lines, TRY) ==> Recalculated(lines) == Ok(Money(LinesCents(lines), TRY))
  {
    var zero := Zero(TRY);
    SumLinesIsSum(zero, lines);
    if AllInCurrency(lines, TRY) {
      var m := Money(LinesCents(lines), TRY);
      assert Money(zero.cents + LinesCents(lines), zero.currency) == m;
      assert SumLines(zero, lines) == Ok(m);
    }
  }

  // ---------------------------------------------------------------- invariant

  predicate ProductsDistinct(lines: seq<OrderLineRow>)
  {
    forall i, j | 0 <= i < j < |lines| :: lines[i].productId != lines[j].productId
  }

  /** TotalAmount holds the sum of the lines whenever that sum can be computed. */
  predicate TotalCurrent(s: OrderState)
  {
    Recalculated(s.orderLines).Ok? ==> s.totalAmount == Recalculated(s.orderLines).value
  }

  /** What the aggregate maintains: positive quantities, one line per product, a current total. */
  predicate Valid(s: OrderState)
  {
    QuantitiesPositive(s.orderLines) && ProductsDistinct(s.orderLines) && TotalCurrent(s)
  }

  /** OrderLines.FirstOrDefault(ol => ol.ProductId == productId), as an index. */
  function FindLine(lines: seq<OrderLineRow>, productId: string): (r: Option<nat>)
    ensures r.None? <==> forall i | 0 <= i < |lines| :: lines[i].productId != productId
    ensures r.Some? ==> r.value < |lines| && lines[r.value].productId == productId
    ensures r.Some? ==> forall i | 0 <= i < r.value :: lines[i].productId != productId
  {
    if lines == [] then None
    else if lines[0].productId == productId then Some(0)
    else match FindLine(lines[1..], productId)
      case None => None
      case Some(k) => Some(k + 1)
  }

  function RemoveAt(lines: seq<OrderLineRow>, k: nat): (r: seq<OrderLineRow>)
    requires k < |lines|
    ensures |r| == |lines| - 1
    ensures forall i | 0 <= i < |r| :: r[i] == if i < k then lines[i] else lines[i + 1]
  {
    lines[..k] + lines[k + 1..]
  }

  /** The fields `new Order(customerId, customerEmail, notes)` sets: Pending, a zero TRY total, no lines, no events. */
  function NewOrder(customerId: string, customerEmail: string, notes: Option<string>, now: int): (s: OrderState)
    ensures s.id == Guids.Empty && s.status == Pending && s.totalAmount == Zero(TRY)
    ensures s.orderLines == [] && s.outboxEvents == [] && s.notes == notes
    ensures s.customerId == customerId && s.customerEmail == customerEmail
    ensures Valid(s)
  {
    OrderState(Guids.Empty, customerId, customerEmail, Pending, Zero(TRY), notes, [], [], now, None)
  }

  // ---------------------------------------------------------------- commands

  function NotesText(notes: Option<string>): string
  {
    if notes.Some? then notes.value else ""
  }

  /** RecalculateTotalAmount: a mixed-currency aggregation throws and leaves TotalAmount and UpdatedAt alone. */
  function Recalculate(s: OrderState, now: int): (o: Outcome)
    ensures o.state == s.(totalAmount := o.state.totalAmount, updatedAt := o.state.updatedAt)
    ensures o.thrown.Some? <==> Recalculated(s.orderLines).Err?
    ensures o.thrown.Some? ==> o.state == s
    ensures o.thrown.None? ==> o.state.totalAmount == Recalculated(s.orderLines).value
  {
    match Recalculated(s.orderLines)
    case Err(e) => Throw(s, e)
    case Ok(total) => Done(s.(totalAmount := total, updatedAt := Some(now)))
  }

  /** AddOrderLine(productId, productName, unitPrice, quantity): merges into the first line of the same product. */
  function AddLine(s: OrderState, productId: string, productName: string, unitPrice: Money, quantity: Int32,
                   lineId: Guids.Guid, now: int): (o: Outcome)
    ensures o.state.status == s.status && o.state.outboxEvents == s.outboxEvents && o.state.id == s.id
  {
    if s.status != Pending then Throw(s, AddWhenNotPending)
    else if quantity <= 0 then Throw(s, QuantityNotPositive)
    else match FindLine(s.orderLines, productId)
      case Some(k) =>
        var l := s.orderLines[k];
        (match UpdatedQuantity(l, Wrap(l.quantity + quantity), now)
         case Err(e) => Throw(s, e)
         case Ok(l') => Recalculate(s.(orderLines := s.orderLines[k := l']), now))
      case None =>
        var l := NewLine(lineId, productId, productName, unitPrice, quantity, now).value.(orderId := s.id);
        Recalculate(s.(orderLines := s.orderLines + [l]), now)
  }

  /** The decimal overload: `new Money(unitPrice)` in TRY is evaluated before any guard of AddOrderLine. */
  function AddLineDecimal(s: OrderState, productId: string, productName: string, unitPrice: Dec, quantity: Int32,
                          lineId: Guids.Guid, now: int): (o: Outcome)
    ensures o.state.status == s.status && o.state.outboxEvents == s.outboxEvents && o.state.id == s.id
  {
    match Create(unitPrice, TRY)
    case Err(e) => Throw(s, e)
    case Ok(price) => AddLine(s, productId, productName, price, quantity, lineId, now)
  }

  /** The items of the StockReservationRequested payload, one per line, in line order. */
  function RequestedItems(lines: seq<OrderLineRow>): (r: seq<RequestedItem>)
    ensures |r| == |lines|
    ensures forall i | 0 <= i < |r| :: r[i] == RequestedItem(lines[i].productId, lines[i].quantity)
  {
    seq(|lines|, i requires 0 <= i < |lines| => RequestedItem(lines[i].productId, lines[i].quantity))
  }

  /** RequestStockReservation: the event id is the new OutboxEvent's Guid.NewGuid(). */
  function RequestReservation(s: OrderState, eventId: Guids.Guid, now: int): (o: Outcome)
    ensures KeepsContent(s, o.state)
    ensures o.thrown.None? <==> s.status == Pending && |s.orderLines| > 0
    ensures o.thrown.Some? ==> o.state == s
    ensures o.thrown.None? ==> o.state.status == AwaitingStockReservation && o.state.orderLines == s.orderLines
  {
    if s.status != Pending then Throw(s, RequestWhenNotPending)
    else if |s.orderLines| == 0 then
      Throw(s, RequestWithoutLines)
    else
      var data := ReservationRequestedByOrder(s.id, RequestedItems(s.orderLines), now);
      Done(s.(status := AwaitingStockReservation,
              outboxEvents := s.outboxEvents + [NewRow(eventId, StockReservationRequestedType, data, StockEvents, now)],
              updatedAt := Some(now)))
  }

  function MarkReserved(s: OrderState, now: int): (o: Outcome)
    ensures KeepsContent(s, o.state)
    ensures o.thrown.None? <==> s.status == AwaitingStockReservation
    ensures o.thrown.Some? ==> o.state == s
    ensures o.thrown.None? ==> o.state == s.(status := StockReserved, updatedAt := Some(now))
  {
    if s.status != AwaitingStockReservation then
      Throw(s, ReserveWhenNotAwaiting)
    else Done(s.(status := StockReserved, updatedAt := Some(now)))
  }

  const NoteTrimChars: set<char> := {' ', '-'}

  /** The Notes after a failed reservation: the old notes, the reason, trimmed of spaces and dashes. */
  function FailureNotes(notes: Option<string>, reason: string): string
  {
    Text.Trim(NotesText(notes) + " - Stock reservation failed: " + reason, NoteTrimChars)
  }

  function MarkReservationFailed(s: OrderState, reason: string, now: int): (o: Outcome)
    ensures KeepsContent(s, o.state)
    ensures o.thrown.None? <==> s.status == AwaitingStockReservation
    ensures o.thrown.Some? ==> o.state == s
    ensures o.thrown.None? ==> o.state.status == StockReservationFailed && o.state.outboxEvents == s.outboxEvents
  {
    if s.status != AwaitingStockReservation then
      Throw(s, FailWhenNotAwaiting)
    else Done(s.(status := StockReservationFailed, notes := Some(FailureNotes(s.notes, reason)), updatedAt := Some(now)))
  }

  /** RemoveOrderLine: an unknown product is silently ignored. */
  function RemoveLine(s: OrderState, productId: string, now: int): (o: Outcome)
    ensures o.state.status == s.status && o.state.outboxEvents == s.outboxEvents
  {
    if s.status != Pending then Throw(s, RemoveWhenNotPending)
    else match FindLine(s.orderLines, productId)
      case None => Done(s)
      case Some(k) => Recalculate(s.(orderLines := RemoveAt(s.orderLines, k)), now)
  }

  function UpdateLineQuantity(s: OrderState, productId: string, newQuantity: Int32, now: int): (o: Outcome)
    ensures o.state.status == s.status && o.state.outboxEvents == s.outboxEvents
  {
    if s.status != Pending then Throw(s, UpdateWhenNotPending)
    else if newQuantity <= 0 then Throw(s, NewQuantityNotPositive)
    else match FindLine(s.orderLines, productId)
      case None => Throw(s, InvalidOperationException("Order line with product ID " + productId + " not found"))
      case Some(k) =>
        var l' := UpdatedQuantity(s.orderLines[k], newQuantity, now).value;
        Recalculate(s.(orderLines := s.orderLines[k := l']), now)
  }

  /** The OrderConfirmedEvent lines: Guid.Parse of every ProductId; None when one of them throws. */
  function ConfirmedLines(lines: seq<OrderLineRow>): (r: Option<seq<OrderLineConfirmed>>)
    ensures r.Some? <==> forall i | 0 <= i < |lines| :: Guids.Parse(lines[i].productId).Some?
    ensures r.Some? ==> |r.value| == |lines|
    ensures r.Some? ==> forall i | 0 <= i < |lines| ::
      r.value[i] == OrderLineConfirmed(Guids.Parse(lines[i].productId).value, lines[i].quantity)
  {
    if lines == [] then Some([])
    else match Guids.Parse(lines[0].productId)
      case None => None
      case Some(g) =>
        match ConfirmedLines(lines[1..])
        case None =>
          assert exists i | 0 <= i < |lines[1..]| :: Guids.Parse(lines[1..][i].productId).None?;
          None
        case Some(rest) =>
          assert forall i | 1 <= i < |lines| :: lines[i] == lines[1..][i - 1];
          Some([OrderLineConfirmed(g, lines[0].quantity)] + rest)
  }

  /**
   * ConfirmOrder: the status and UpdatedAt change before the event is built, so a
   * ProductId that is not a Guid throws with the order already Confirmed and no event added.
   * OccurredOn is never assigned and stays default(DateTime).
   */
  function Confirm(s: OrderState, eventId: Guids.Guid, now: int): (o: Outcome)
    ensures KeepsContent(s, o.state)
    ensures o.thrown.None? <==> s.status == StockReserved && |s.orderLines| > 0 && ConfirmedLines(s.orderLines).Some?
    ensures o.state.status != s.status ==> s.status == StockReserved && o.state.status == Confirmed
    ensures o.state.orderLines == s.orderLines
  {
    if s.status != StockReserved then Throw(s, ConfirmWhenNotReserved)
    else if |s.orderLines| == 0 then Throw(s, ConfirmWithoutLines)
    else
      var s1 := s.(status := Confirmed, updatedAt := Some(now));
      match ConfirmedLines(s.orderLines)
      case None => Throw(s1, GuidFormatError)
      case Some(lines) =>
        var data := OrderConfirmedEvent(s.id, s.customerId, s.customerEmail, 0, lines);
        Done(s1.(outboxEvents := s.outboxEvents + [NewRow(eventId, OrderConfirmedType, data, OrderEvents, now)]))
  }

  function Cancel(s: OrderState, now: int): (o: Outcome)
    ensures KeepsContent(s, o.state)
    ensures o.thrown.None? <==> s.status != Shipped && s.status != Delivered
    ensures o.thrown.Some? ==> o.state == s
    ensures o.thrown.None? ==> o.state == s.(status := Cancelled, updatedAt := Some(now))
  {
    if s.status == Shipped || s.status == Delivered then
      Throw(s, CancelAfterShipping)
    else Done(s.(status := Cancelled, updatedAt := Some(now)))
  }

  function Ship(s: OrderState, now: int): (o: Outcome)
    ensures KeepsContent(s, o.state)
    ensures o.thrown.None? <==> s.status == Confirmed
    ensures o.thrown.Some? ==> o.state == s
    ensures o.thrown.None? ==> o.state == s.(status := Shipped, updatedAt := Some(now))
  {
    if s.status != Confirmed then Throw(s, ShipWhenNotConfirmed)
    else Done(s.(status := Shipped, updatedAt := Some(now)))
  }

  function Deliver(s: OrderState, now: int): (o: Outcome)
    ensures KeepsContent(s, o.state)
    ensures o.thrown.None? <==> s.status == Shipped
    ensures o.thrown.Some? ==> o.state == s
    ensures o.thrown.None? ==> o.state == s.(status := Delivered, updatedAt := Some(now))
  {
    if s.status != Shipped then Throw(s, DeliverWhenNotShipped)
    else Done(s.(status := Delivered, updatedAt := Some(now)))
  }

  /** Every public command of the aggregate, with the ids and times it draws. */
  datatype Command =
    | AddOrderLine(productId: string, productName: string, unitPrice: Money, quantity: Int32, lineId: Guids.Guid)
    | AddOrderLineDecimal(productId: string, productName: string, price: Dec, quantity: Int32, lineId: Guids.Guid)
    | RequestStockReservation(reservationEventId: Guids.Guid)
    | MarkStockReserved
    | MarkStockReservationFailed(reason: string)
    | RemoveOrderLine(productId: string)
    | UpdateOrderLineQuantity(productId: string, newQuantity: Int32)
    | ConfirmOrder(confirmationEventId: Guids.Guid)
    | CancelOrder
    | MarkAsShipped
    | MarkAsDelivered
  {
    predicate EditsLines()
    {
      AddOrderLine? || AddOrderLineDecimal? || RemoveOrderLine? || UpdateOrderLineQuantity?
    }
  }

  function Apply(s: OrderState, c: Command, now: int): Outcome
  {
    match c
    case AddOrderLine(p, n, price, q, lid) => AddLine(s, p, n, price, q, lid, now)
    case AddOrderLineDecimal(p, n, price, q, lid) => AddLineDecimal(s, p, n, price, q, lid, now)
    case RequestStockReservation(eid) => RequestReservation(s, eid, now)
    case MarkStockReserved => MarkReserved(s, now)
    case MarkStockReservationFailed(reason) => MarkReservationFailed(s, reason, now)
    case RemoveOrderLine(p) => RemoveLine(s, p, now)
    case UpdateOrderLineQuantity(p, q) => UpdateLineQuantity(s, p, q, now)
    case ConfirmOrder(eid) => Confirm(s, eid, now)
    case CancelOrder => Cancel(s, now)
    case MarkAsShipped => Ship(s, now)
    case MarkAsDelivered => Deliver(s, now)
  }

  // ---------------------------------------------------------------- properties

  /** The order lifecycle as a relation: the saga path, shipping, and cancellation of anything not yet shipped. */
  predicate Transition(from: OrderStatus, to: OrderStatus)
  {
    || (from == Pending && to == AwaitingStockReservation)
    || (from == AwaitingStockReservation && (to == StockReserved || to == StockReservationFailed))
    || (from == StockReserved && to == Confirmed)
    || (from == Confirmed && to == Shipped)
    || (from == Shipped && to == Delivered)
    || (from != Shipped && from != Delivered && to == Cancelled)
  }

  /**
   * One command's effect on the status: a lifecycle step or none, none for a line
   * edit, and Delivered or Confirmed reached only through the command named for it.
   */
  predicate LifecycleStep(s: OrderState, c: Command, s': OrderState)
  {
    && (s'.status == s.status || Transition(s.status, s'.status))
    && (c.EditsLines() ==> s'.status == s.status)
    && (s'.status == Delivered ==> s.status == Delivered || (c.MarkAsDelivered? && s.status == Shipped))
    && (s'.status == Confirmed ==> s.status == Confirmed || (c.ConfirmOrder? && s.status == StockReserved))
  }

  /** No command moves the status off the lifecycle, and only the lifecycle step a command is named for. */
  lemma LifecycleRespected(s: OrderState, c: Command, now: int)
    ensures LifecycleStep(s, c, Apply(s, c, now).state)
  {
    if c.EditsLines() {
      LineEditsLifecycle(s, c, now);
    } else if c.CancelOrder? || c.MarkAsShipped? || c.MarkAsDelivered? {
      FulfilmentLifecycle(s, c, now);
    } else {
      SagaLifecycle(s, c, now);
    }
  }

  lemma LineEditsLifecycle(s: OrderState, c: Command, now: int)
    requires c.EditsLines()
    ensures LifecycleStep(s, c, Apply(s, c, now).state)
  {
    match c
    case AddOrderLine(p, n, price, q, lid) => assert Apply(s, c, now) == AddLine(s, p, n, price, q, lid, now);
    case AddOrderLineDecimal(p, n, price, q, lid) => assert Apply(s, c, now) == AddLineDecimal(s, p, n, price, q, lid, now);
    case RemoveOrderLine(p) => assert Apply(s, c, now) == RemoveLine(s, p, now);
    case UpdateOrderLineQuantity(p, q) => assert Apply(s, c, now) == UpdateLineQuantity(s, p, q, now);
  }

  lemma FulfilmentLifecycle(s: OrderState, c: Command, now: int)
    requires c.CancelOrder? || c.MarkAsShipped? || c.MarkAsDelivered?
    ensures LifecycleStep(s, c, Apply(s, c, now).state)
  {
  }

  lemma SagaLifecycle(s: OrderState, c: Command, now: int)
    requires c.RequestStockReservation? || c.MarkStockReserved? || c.MarkStockReservationFailed? || c.ConfirmOrder?
    ensures LifecycleStep(s, c, Apply(s, c, now).state)
  {
    match c
    case RequestStockReservation(e) => assert Apply(s, c, now) == RequestReservation(s, e, now);
    case MarkStockReserved => assert Apply(s, c, now) == MarkReserved(s, now);
    case MarkStockReservationFailed(r) => assert Apply(s, c, now) == MarkReservationFailed(s, r, now);
    case ConfirmOrder(e) => assert Apply(s, c, now) == Confirm(s, e, now);
  }

  /** AddOrderLine never changes the status or the outbox. */
  lemma AddLineKeepsStatus(s: OrderState, productId: string, productName: string, unitPrice: Money, quantity: Int32,
                           lineId: Guids.Guid, now: int)
    ensures AddLine(s, productId, productName, unitPrice, quantity, lineId, now).state.status == s.status
    ensures AddLine(s, productId, productName, unitPrice, quantity, lineId, now).state.outboxEvents == s.outboxEvents
  {
  }

  /** Lines can be edited only while the order is Pending; afterwards every edit throws and changes nothing. */
  lemma LinesFrozenAfterPending(s: OrderState, c: Command, now: int)
    requires s.status != Pending && c.EditsLines()
    requires c.AddOrderLineDecimal? ==> c.price.units >= 0
    ensures Apply(s, c, now).state == s
    ensures Apply(s, c, now).thrown.Some? && Apply(s, c, now).thrown.value.kind == InvalidOperation
  {
  }

  /**
   * A command that throws leaves the aggregate as it was, except in the two places the
   * C# code mutates before it throws: a line edit whose total cannot be aggregated keeps
   * the edited lines (and the old total), and ConfirmOrder keeps the Confirmed status
   * when a ProductId is not a Guid.
   */
  lemma ThrowingCommandsChangeNothing(s: OrderState, c: Command, now: int)
    requires Apply(s, c, now).thrown.Some?
    ensures var s' := Apply(s, c, now).state;
      || s' == s
      || (c.EditsLines() && Recalculated(s'.orderLines).Err? && s' == s.(orderLines := s'.orderLines))
      || (c.ConfirmOrder? && s' == s.(status := Confirmed, updatedAt := Some(now))
          && ConfirmedLines(s.orderLines).None? && Apply(s, c, now).thrown == Some(GuidFormatError))
  {
  }

  /** What the status commands leave alone: the lines, the total, the key, the customer, and the outbox's existing rows. */
  predicate KeepsContent(s: OrderState, s': OrderState)
  {
    && s'.orderLines == s.orderLines && s'.totalAmount == s.totalAmount && s'.id == s.id
    && s'.customerId == s.customerId && s'.customerEmail == s.customerEmail && s'.createdAt == s.createdAt
    && s.outboxEvents <= s'.outboxEvents
  }

  /** The commands that do not edit lines keep the lines, the total, the key and the customer, and only append to the outbox. */
  lemma NonLineCommandsKeepContent(s: OrderState, c: Command, now: int)
    requires !c.EditsLines()
    ensures KeepsContent(s, Apply(s, c, now).state)
  {
  }

  /** Recalculating makes the total current without touching the lines. */
  lemma RecalculateKeepsValid(s: OrderState, now: int)
    requires QuantitiesPositive(s.orderLines) && ProductsDistinct(s.orderLines)
    ensures Valid(Recalculate(s, now).state)
    ensures Recalculate(s, now).state.orderLines == s.orderLines
  {
  }

  /** Replacing one line by a positive-quantity line of the same product keeps the lines' invariant. */
  lemma ReplaceLineKeepsInvariant(lines: seq<OrderLineRow>, k: nat, l: OrderLineRow)
    requires QuantitiesPositive(lines) && ProductsDistinct(lines)
    requires k < |lines| && l.productId == lines[k].productId && l.quantity > 0
    ensures QuantitiesPositive(lines[k := l]) && ProductsDistinct(lines[k := l])
  {
  }

  /** Dropping one line keeps the lines' invariant. */
  lemma RemoveAtKeepsInvariant(lines: seq<OrderLineRow>, k: nat)
    requires QuantitiesPositive(lines) && ProductsDistinct(lines) && k < |lines|
    ensures QuantitiesPositive(RemoveAt(lines, k)) && ProductsDistinct(RemoveAt(lines, k))
  {
    var rest := RemoveAt(lines, k);
    forall i, j | 0 <= i < j < |rest| ensures rest[i].productId != rest[j].productId {
      var i' := if i < k then i else i + 1;
      var j' := if j < k then j else j + 1;
      assert rest[i] == lines[i'] && rest[j] == lines[j'] && i' < j';
    }
  }

  /** Appending a line for a product not yet present keeps the lines' invariant. */
  lemma AppendLineKeepsInvariant(lines: seq<OrderLineRow>, l: OrderLineRow)
    requires QuantitiesPositive(lines) && ProductsDistinct(lines) && l.quantity > 0
    requires forall i | 0 <= i < |lines| :: lines[i].productId != l.productId
    ensures QuantitiesPositive(lines + [l]) && ProductsDistinct(lines + [l])
  {
  }

  lemma AddLineKeepsValid(s: OrderState, productId: string, productName: string, unitPrice: Money, quantity: Int32,
                          lineId: Guids.Guid, now: int)
    requires Valid(s)
    ensures Valid(AddLine(s, productId, productName, unitPrice, quantity, lineId, now).state)
  {
    if s.status == Pending && quantity > 0 {
      match FindLine(s.orderLines, productId)
      case Some(k) =>
        var l := s.orderLines[k];
        var u := UpdatedQuantity(l, Wrap(l.quantity + quantity), now);
        if u.Ok? {
          ReplaceLineKeepsInvariant(s.orderLines, k, u.value);
          RecalculateKeepsValid(s.(orderLines := s.orderLines[k := u.value]), now);
        }
      case None =>
        var l := NewLine(lineId, productId, productName, unitPrice, quantity, now).value.(orderId := s.id);
        AppendLineKeepsInvariant(s.orderLines, l);
        RecalculateKeepsValid(s.(orderLines := s.orderLines + [l]), now);
    }
  }

  lemma RemoveLineKeepsValid(s: OrderState, productId: string, now: int)
    requires Valid(s)
    ensures Valid(RemoveLine(s, productId, now).state)
  {
    if s.status == Pending && FindLine(s.orderLines, productId).Some? {
      var k := FindLine(s.orderLines, productId).value;
      RemoveAtKeepsInvariant(s.orderLines, k);
      RecalculateKeepsValid(s.(orderLines := RemoveAt(s.orderLines, k)), now);
    }
  }

  lemma UpdateLineKeepsValid(s: OrderState, productId: string, newQuantity: Int32, now: int)
    requires Valid(s)
    ensures Valid(UpdateLineQuantity(s, productId, newQuantity, now).state)
  {
    if s.status == Pending && newQuantity > 0 && FindLine(s.orderLines, productId).Some? {
      var k := FindLine(s.orderLines, productId).value;
      var l' := UpdatedQuantity(s.orderLines[k], newQuantity, now).value;
      ReplaceLineKeepsInvariant(s.orderLines, k, l');
      RecalculateKeepsValid(s.(orderLines := s.orderLines[k := l']), now);
    }
  }

  /** Every command preserves the aggregate's invariant, including the ones that throw. */
  lemma {:induction false} CommandsPreserveValid(s: OrderState, c: Command, now: int)
    requires Valid(s)
    ensures Valid(Apply(s, c, now).state)
  {
    match c
    case AddOrderLine(p, n, price, q, lid) => AddLineKeepsValid(s, p, n, price, q, lid, now);
    case AddOrderLineDecimal(p, n, price, q, lid) =>
      if Create(price, TRY).Ok? {
        AddLineKeepsValid(s, p, n, Create(price, TRY).value, q, lid, now);
      }
    case RemoveOrderLine(p) => RemoveLineKeepsValid(s, p, now);
    case UpdateOrderLineQuantity(p, q) => UpdateLineKeepsValid(s, p, q, now);
    case _ => NonLineCommandsKeepContent(s, c, now);
  }

  /** Adding a product the order already holds adds to that line's quantity instead of adding a line. */
  lemma AddSameProductMerges(s: OrderState, productId: string, productName: string, unitPrice: Money,
                             quantity: Int32, lineId: Guids.Guid, now: int, k: nat)
    requires Valid(s) && s.status == Pending && quantity > 0
    requires k < |s.orderLines| && s.orderLines[k].productId == productId
    requires s.orderLines[k].quantity + quantity <= MaxInt32
    ensures var s' := AddLine(s, productId, productName, unitPrice, quantity, lineId, now).state;
      && |s'.orderLines| == |s.orderLines|
      && s'.orderLines[k].quantity == s.orderLines[k].quantity + quantity
      && s'.orderLines[k].unitPrice == s.orderLines[k].unitPrice
      && (forall i | 0 <= i < |s.orderLines| && i != k :: s'.orderLines[i] == s.orderLines[i])
  {
    assert FindLine(s.orderLines, productId) == Some(k);
  }

  /** With every price in TRY, TotalAmount after any successful line edit is the sum of unit price times quantity. */
  lemma LineEditsKeepTotal(s: OrderState, c: Command, now: int)
    requires Valid(s) && c.EditsLines()
    requires Apply(s, c, now).thrown.None? && Apply(s, c, now).state.orderLines != s.orderLines
    ensures var s' := Apply(s, c, now).state;
      && AllInCurrency(s'.orderLines, TRY)
      && s'.totalAmount.currency == TRY && s'.totalAmount.cents == LinesCents(s'.orderLines)
  {
    var s' := Apply(s, c, now).state;
    CommandsPreserveValid(s, c, now);
    assert Recalculated(s'.orderLines).Ok?;
    RecalculatedIsLineSum(s'.orderLines);
  }

  /** A command's effect on the outbox: rows are only appended, at most one, and only by a reservation request or a confirmation that did not throw. */
  predicate OutboxStep(s: OrderState, c: Command, o: Outcome)
  {
    && s.outboxEvents <= o.state.outboxEvents
    && |o.state.outboxEvents| <= |s.outboxEvents| + 1
    && (|o.state.outboxEvents| > |s.outboxEvents| ==> o.thrown.None? && (c.RequestStockReservation? || c.ConfirmOrder?))
  }

  /** The outbox only grows, by at most one row, and only RequestStockReservation and ConfirmOrder add to it. */
  lemma OutboxAppendOnly(s: OrderState, c: Command, now: int)
    ensures OutboxStep(s, c, Apply(s, c, now))
  {
    if c.EditsLines() {
      LineEditsKeepOutbox(s, c, now);
    } else if c.CancelOrder? || c.MarkAsShipped? || c.MarkAsDelivered? {
      FulfilmentKeepsOutbox(s, c, now);
    } else {
      SagaOutbox(s, c, now);
    }
  }

  lemma LineEditsKeepOutbox(s: OrderState, c: Command, now: int)
    requires c.EditsLines()
    ensures OutboxStep(s, c, Apply(s, c, now))
  {
    match c
    case AddOrderLine(p, n, price, q, lid) => assert Apply(s, c, now) == AddLine(s, p, n, price, q, lid, now);
    case AddOrderLineDecimal(p, n, price, q, lid) => assert Apply(s, c, now) == AddLineDecimal(s, p, n, price, q, lid, now);
    case RemoveOrderLine(p) => assert Apply(s, c, now) == RemoveLine(s, p, now);
    case UpdateOrderLineQuantity(p, q) => assert Apply(s, c, now) == UpdateLineQuantity(s, p, q, now);
  }

  lemma FulfilmentKeepsOutbox(s: OrderState, c: Command, now: int)
    requires c.CancelOrder? || c.MarkAsShipped? || c.MarkAsDelivered?
    ensures OutboxStep(s, c, Apply(s, c, now))
  {
  }

  lemma SagaOutbox(s: OrderState, c: Command, now: int)
    requires c.RequestStockReservation? || c.MarkStockReserved? || c.MarkStockReservationFailed? || c.ConfirmOrder?
    ensures OutboxStep(s, c, Apply(s, c, now))
  {
    match c
    case RequestStockReservation(e) => assert Apply(s, c, now) == RequestReservation(s, e, now);
    case MarkStockReserved => assert Apply(s, c, now) == MarkReserved(s, now);
    case MarkStockReservationFailed(r) => assert Apply(s, c, now) == MarkReservationFailed(s, r, now);
    case ConfirmOrder(e) => assert Apply(s, c, now) == Confirm(s, e, now);
  }

  /** A successful reservation request leaves one StockReservationRequested row carrying every line. */
  lemma ReservationRequestCarriesLines(s: OrderState, eventId: Guids.Guid, now: int)
    requires RequestReservation(s, eventId, now).thrown.None?
    ensures s.status == Pending && |s.orderLines| > 0
    ensures var s' := RequestReservation(s, eventId, now).state;
      && s'.status == AwaitingStockReservation
      && |s'.outboxEvents| == |s.outboxEvents| + 1
      && var e := s'.outboxEvents[|s.outboxEvents|];
      && e.eventType == StockReservationRequestedType && e.exchangeName == StockEvents && !e.processed
      && e.data.ReservationRequestedByOrder? && e.data.orderId == s.id
      && |e.data.items| == |s.orderLines|
      && forall i | 0 <= i < |s.orderLines| ::
           e.data.items[i].productId == s.orderLines[i].productId && e.data.items[i].quantity == s.orderLines[i].quantity
  {
  }

  /** A successful confirmation leaves one OrderConfirmed row whose lines are the order's, with the ids parsed. */
  lemma ConfirmEventCarriesLines(s: OrderState, eventId: Guids.Guid, now: int)
    requires Confirm(s, eventId, now).thrown.None?
    ensures s.status == StockReserved && |s.orderLines| > 0
    ensures var s' := Confirm(s, eventId, now).state;
      && s'.status == Confirmed
      && |s'.outboxEvents| == |s.outboxEvents| + 1
      && var e := s'.outboxEvents[|s.outboxEvents|];
      && e.eventType == OrderConfirmedType && e.exchangeName == OrderEvents
      && e.data.OrderConfirmedEvent? && e.data.orderId == s.id && e.data.customerEmail == s.customerEmail
      && |e.data.orderLines| == |s.orderLines|
      && forall i | 0 <= i < |s.orderLines| ::
           && Guids.Parse(s.orderLines[i].productId) == Some(e.data.orderLines[i].productId)
           && e.data.orderLines[i].quantity == s.orderLines[i].quantity
  {
  }

  /** A redelivered StockReserved or StockReservationFailed finds the order no longer awaiting, throws, and changes nothing. */
  lemma SagaRepliesApplyOnce(s: OrderState, reason: string, now: int, later: int)
    requires s.status == AwaitingStockReservation
    ensures var r := MarkReserved(s, now).state;
      MarkReserved(r, later) == Throw(r, ReserveWhenNotAwaiting)
    ensures var f := MarkReservationFailed(s, reason, now).state;
      MarkReservationFailed(f, reason, later).state == f && MarkReservationFailed(f, reason, later).thrown.Some?
    ensures var r := MarkReserved(s, now).state;
      MarkReservationFailed(r, reason, later).state == r && MarkReservationFailed(r, reason, later).thrown.Some?
  {
  }

  /** Cancellation succeeds exactly before shipping, and cancelling again is harmless. */
  lemma CancelBeforeShipping(s: OrderState, now: int, later: int)
    ensures Cancel(s, now).thrown.None? <==> s.status != Shipped && s.status != Delivered
    ensures Cancel(s, now).thrown.None? ==> Cancel(Cancel(s, now).state, later).thrown.None?
  {
  }

  /** On an order without notes, a failure reason that does not end in a space or dash is recorded verbatim. */
  lemma FailureNotesRecordReason(reason: string)
    requires |reason| > 0 && reason[|reason| - 1] !in NoteTrimChars
    ensures FailureNotes(None, reason) == "Stock reservation failed: " + reason
  {
    var t := "Stock reservation failed: " + reason;
    assert NotesText(None) + " - Stock reservation failed: " + reason == " - " + t;
    Text.TrimStartDropsPrefix(" - ", t, NoteTrimChars);
    assert t[|t| - 1] == reason[|reason| - 1];
    Text.TrimEndKeeps(t, NoteTrimChars);
  }

  // ---------------------------------------------------------------- the aggregate

  /** The tracked Order aggregate root. */
  class Order {
    var id: Guids.Guid
    var customerId: string
    var customerEmail: string
    var status: OrderStatus
    var totalAmount: Money
    var notes: Option<string>
    var orderLines: seq<OrderLineRow>
    var outboxEvents: seq<OutboxRow>
    var createdAt: int
    var updatedAt: Option<int>

    function Snapshot(): OrderState
      reads this
    {
      OrderState(id, customerId, customerEmail, status, totalAmount, notes, orderLines, outboxEvents, createdAt, updatedAt)
    }

    /** `new Order(customerId, customerEmail, notes)`: the key is not generated yet. */
    constructor (customerId: string, customerEmail: string, notes: Option<string>, now: int)
      ensures Snapshot() == NewOrder(customerId, customerEmail, notes, now)
    {
      id := Guids.Empty;
      this.customerId := customerId;
      this.customerEmail := customerEmail;
      status := Pending;
      totalAmount := Zero(TRY);
      this.notes := notes;
      orderLines := [];
      outboxEvents := [];
      createdAt := now;
      updatedAt := None;
    }

    /** The aggregate as EF materialises it from a snapshot. */
    constructor Load(s: OrderState)
      ensures Snapshot() == s
    {
      id := s.id;
      customerId := s.customerId;
      customerEmail := s.customerEmail;
      status := s.status;
      totalAmount := s.totalAmount;
      notes := s.notes;
      orderLines := s.orderLines;
      outboxEvents := s.outboxEvents;
      createdAt := s.createdAt;
      updatedAt := s.updatedAt;
    }

    /** EF Core's key generation when the new aggregate starts being tracked as Added. */
    method GenerateKey(key: Guids.Guid)
      modifies this
      ensures Snapshot() == old(Snapshot()).(id := key)
    {
      id := key;
    }

    method RecalculateTotalAmount(now: int) returns (thrown: Option<Thrown>)
      modifies this
      ensures Snapshot() == Recalculate(old(Snapshot()), now).state && thrown == Recalculate(old(Snapshot()), now).thrown
    {
      var total := Recalculated(orderLines);
      if total.Err? {
        return Some(total.error);
      }
      totalAmount := total.value;
      updatedAt := Some(now);
      thrown := None;
    }

    method AddOrderLine(productId: string, productName: string, unitPrice: Money, quantity: Int32, lineId: Guids.Guid, now: int)
      returns (thrown: Option<Thrown>)
      modifies this
      ensures var o := AddLine(old(Snapshot()), productId, productName, unitPrice, quantity, lineId, now);
        Snapshot() == o.state && thrown == o.thrown
    {
      if status != Pending {
        return Some(AddWhenNotPending);
      }
      if quantity <= 0 {
        return Some(QuantityNotPositive);
      }
      var existing := FindLine(orderLines, productId);
      if existing.Some? {
        var line := new OrderLine.Load(orderLines[existing.value]);
        thrown := line.UpdateQuantity(Wrap(line.quantity + quantity), now);
        if thrown.Some? {
          return;
        }
        orderLines := orderLines[existing.value := line.Row()];
      } else {
        var line := new OrderLine.Load(NewLine(lineId, productId, productName, unitPrice, quantity, now).value);
        line.SetOrderId(id);
        line.SetOrder(this);
        orderLines := orderLines + [line.Row()];
      }
      thrown := RecalculateTotalAmount(now);
    }

    method AddOrderLineDecimal(productId: string, productName: string, unitPrice: Dec, quantity: Int32, lineId: Guids.Guid, now: int)
      returns (thrown: Option<Thrown>)
      modifies this
      ensures var o := AddLineDecimal(old(Snapshot()), productId, productName, unitPrice, quantity, lineId, now);
        Snapshot() == o.state && thrown == o.thrown
    {
      var price := Create(unitPrice, TRY);
      if price.Err? {
        return Some(price.error);
      }
      thrown := AddOrderLine(productId, productName, price.value, quantity, lineId, now);
    }

    method RequestStockReservation(eventId: Guids.Guid, now: int) returns (thrown: Option<Thrown>)
      modifies this
      ensures var o := RequestReservation(old(Snapshot()), eventId, now);
        Snapshot() == o.state && thrown == o.thrown
    {
      if status != Pending {
        return Some(RequestWhenNotPending);
      }
      if |orderLines| == 0 {
        return Some(RequestWithoutLines);
      }
      status := AwaitingStockReservation;
      var data := ReservationRequestedByOrder(id, RequestedItems(orderLines), now);
      var outboxEvent := new OutboxEvent(eventId, StockReservationRequestedType, data, StockEvents, now);
      outboxEvents := outboxEvents + [outboxEvent.Row()];
      updatedAt := Some(now);
      thrown := None;
    }

    method MarkStockReserved(now: int) returns (thrown: Option<Thrown>)
      modifies this
      ensures Snapshot() == MarkReserved(old(Snapshot()), now).state && thrown == MarkReserved(old(Snapshot()), now).thrown
    {
      if status != AwaitingStockReservation {
        return Some(ReserveWhenNotAwaiting);
      }
      status := StockReserved;
      updatedAt := Some(now);
      thrown := None;
    }

    method MarkStockReservationFailed(reason: string, now: int) returns (thrown: Option<Thrown>)
      modifies this
      ensures var o := MarkReservationFailed(old(Snapshot()), reason, now);
        Snapshot() == o.state && thrown == o.thrown
    {
      if status != AwaitingStockReservation {
        return Some(FailWhenNotAwaiting);
      }
      status := StockReservationFailed;
      notes := Some(FailureNotes(notes, reason));
      updatedAt := Some(now);
      thrown := None;
    }

    method RemoveOrderLine(productId: string, now: int) returns (thrown: Option<Thrown>)
      modifies this
      ensures Snapshot() == RemoveLine(old(Snapshot()), productId, now).state && thrown == RemoveLine(old(Snapshot()), productId, now).thrown
    {
      if status != Pending {
        return Some(RemoveWhenNotPending);
      }
      var found := FindLine(orderLines, productId);
      thrown := None;
      if found.Some? {
        orderLines := RemoveAt(orderLines, found.value);
        thrown := RecalculateTotalAmount(now);
      }
    }

    method UpdateOrderLineQuantity(productId: string, newQuantity: Int32, now: int) returns (thrown: Option<Thrown>)
      modifies this
      ensures var o := UpdateLineQuantity(old(Snapshot()), productId, newQuantity, now);
        Snapshot() == o.state && thrown == o.thrown
    {
      if status != Pending {
        return Some(UpdateWhenNotPending);
      }
      if newQuantity <= 0 {
        return Some(NewQuantityNotPositive);
      }
      var found := FindLine(orderLines, productId);
      if found.None? {
        return Some(InvalidOperationException("Order line with product ID " + productId + " not found"));
      }
      var line := new OrderLine.Load(orderLines[found.value]);
      thrown := line.UpdateQuantity(newQuantity, now);
      orderLines := orderLines[found.value := line.Row()];
      thrown := RecalculateTotalAmount(now);
    }

    method ConfirmOrder(eventId: Guids.Guid, now: int) returns (thrown: Option<Thrown>)
      modifies this
      ensures Snapshot() == Confirm(old(Snapshot()), eventId, now).state && thrown == Confirm(old(Snapshot()), eventId, now).thrown
    {
      if status != StockReserved {
        return Some(ConfirmWhenNotReserved);
      }
      if |orderLines| == 0 {
        return Some(ConfirmWithoutLines);
      }
      status := Confirmed;
      updatedAt := Some(now);
      var lines := ConfirmedLines(orderLines);
      if lines.None? {
        return Some(GuidFormatError);
      }
      var data := OrderConfirmedEvent(id, customerId, customerEmail, 0, lines.value);
      var outboxEvent := new OutboxEvent(eventId, OrderConfirmedType, data, OrderEvents, now);
      outboxEvents := outboxEvents + [outboxEvent.Row()];
      thrown := None;
    }

    method CancelOrder(now: int) returns (thrown: Option<Thrown>)
      modifies this
      ensures Snapshot() == Cancel(old(Snapshot()), now).state && thrown == Cancel(old(Snapshot()), now).thrown
    {
      if status == Shipped || status == Delivered {
        return Some(CancelAfterShipping);
      }
      status := Cancelled;
      updatedAt := Some(now);
      thrown := None;
    }

    method MarkAsShipped(now: int) returns (thrown: Option<Thrown>)
      modifies this
      ensures Snapshot() == Ship(old(Snapshot()), now).state && thrown == Ship(old(Snapshot()), now).thrown
    {
      if status != Confirmed {
        return Some(ShipWhenNotConfirmed);
      }
      status := Shipped;
      updatedAt := Some(now);
      thrown := None;
    }

    /** Runs one command on the aggregate, as the application services do. */
    method Execute(c: Command, now: int) returns (thrown: Option<Thrown>)
      modifies this
      ensures Snapshot() == Apply(old(Snapshot()), c, now).state && thrown == Apply(old(Snapshot()), c, now).thrown
    {
      match c
      case AddOrderLine(p, n, price, q, lid) => thrown := AddOrderLine(p, n, price, q, lid, now);
      case AddOrderLineDecimal(p, n, price, q, lid) => thrown := AddOrderLineDecimal(p, n, price, q, lid, now);
      case RequestStockReservation(eid) => thrown := RequestStockReservation(eid, now);
      case MarkStockReserved => thrown := MarkStockReserved(now);
      case MarkStockReservationFailed(reason) => thrown := MarkStockReservationFailed(reason, now);
      case RemoveOrderLine(p) => thrown := RemoveOrderLine(p, now);
      case UpdateOrderLineQuantity(p, q) => thrown := UpdateOrderLineQuantity(p, q, now);
      case ConfirmOrder(eid) => thrown := ConfirmOrder(eid, now);
      case CancelOrder => thrown := CancelOrder(now);
      case MarkAsShipped => thrown := MarkAsShipped(now);
      case MarkAsDelivered => thrown := MarkAsDelivered(now);
    }

    method MarkAsDelivered(now: int) returns (thrown: Option<Thrown>)
      modifies this
      ensures Snapshot() == Deliver(old(Snapshot()), now).state && thrown == Deliver(old(Snapshot()), now).thrown
    {
      if status != Shipped {
        return Some(DeliverWhenNotShipped);
      }
      status := Delivered;
      updatedAt := Some(now);
      thrown := None;
    }
  }
}
