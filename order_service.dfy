/**
 * OrderApplicationService over an in-memory picture of the order database.
 *
 * The Orders, OrderLines and OutboxEvents tables are fields of an
 * `OrderDatabase` object that the service (and the outbox dispatcher) share.
 * A transaction that commits replaces the tables by their new contents; one
 * that rolls back, or returns before SaveChanges, leaves them as they were.
 *
 * The EF Core mapping is followed as written: TotalAmount and UnitPrice are
 * ignored by the model, so no column holds them; every GetAsync except the one
 * in ConfirmOrderAsync loads the order without its lines or events, so the
 * aggregate a command runs on has no lines and a zero total; AddAsync and
 * UpdateAsync set the state of the one entity they are given, so an event in
 * the aggregate's OutboxEvents collection is written only when the service adds
 * it to the outbox repository itself.
 *
 * Every write takes `saved`, the outcome of SaveChangesAsync and
 * CommitTransactionAsync as the database reports it: None when they go
 * through, Some(message) when one of them throws. A row longer than its
 * varchar columns (OrderContext) is refused by PostgreSQL whatever `saved` says.
 */
module OrderService {
  import opened Wrappers
  import opened Exceptions
  import opened Int32s
  import opened Decimals
  import opened Monies
  import opened OperationResults
  import opened OrderOutbox
  import opened OrderDomain
  import Guids

  const CancelError: string := "Error cancelling order: "
  const ConfirmOrderError: string := "Error confirming order: "
  const ConfirmReservationError: string := "Error confirming stock reservation: "
  const CreateOrderError: string := "Error creating order: "
  const FailReservationError: string := "Error marking stock reservation as failed: "
  const UpdateError: string := "Error updating order: "
  const UpdateStatusError: string := "Error updating order status: "
  const CancelSucceeded: string := "Order cancelled successfully"
  const ConfirmOrderSucceeded: string := "Order confirmed successfully"
  const CreateSucceeded: string := "Order created successfully"
  const GetSucceeded: string := "Order retrieved successfully"
  const UpdateStatusSucceeded: string := "Order status updated successfully"
  const UpdateSucceeded: string := "Order updated successfully"
  const ConfirmReservationSucceeded: string := "Stock reservation confirmed successfully"
  const FailReservationSucceeded: string := "Stock reservation marked as failed"

  /** An Orders row, keyed by the order id. There is no TotalAmount column. */
  datatype OrderRecord = OrderRecord(
    customerId: string,
    customerEmail: string,
    status: OrderStatus,
    notes: Option<string>,
    createdAt: int,
    updatedAt: Option<int>)

  /** An OrderLines row. There is no UnitPrice column. */
  datatype LineRecord = LineRecord(
    id: Guids.Guid,
    orderId: Guids.Guid,
    productId: string,
    productName: string,
    quantity: Int32,
    createdAt: int,
    updatedAt: Option<int>)

  /** An OutboxEvents row with its nullable OrderId foreign key, set for the events an order appended itself. */
  datatype OutboxRecord = OutboxRecord(orderId: Option<Guids.Guid>, event: OutboxRow)

  /** The three tables at one moment. */
  datatype Tables = Tables(orders: map<Guids.Guid, OrderRecord>, lines: seq<LineRecord>, outbox: seq<OutboxRecord>)

  /** The order database: one instance shared by the services of the order process. */
  class OrderDatabase {
    var orders: map<Guids.Guid, OrderRecord>
    var lines: seq<LineRecord>
    var outbox: seq<OutboxRecord>

    constructor ()
      ensures Content() == Tables(map[], [], [])
    {
      orders := map[];
      lines := [];
      outbox := [];
    }

    function Content(): Tables
      reads this
    {
      Tables(orders, lines, outbox)
    }

    /** The rows SaveChangesAsync inserts for a created order: its row, its lines and the explicit event. */
    method Insert(c: Created)
      modifies this
      ensures Content() == Inserted(old(Content()), c)
    {
      orders := orders[c.order.id := Stored(c.order)];
      lines := lines + LineRecords(c.order.orderLines, c.order.id);
      outbox := outbox + [OutboxRecord(None, c.requestRow)];
    }
  }

  // ---------------------------------------------------------------- mapping

  /** The columns SaveChanges writes for a tracked order. */
  function Stored(s: OrderState): OrderRecord
  {
    OrderRecord(s.customerId, s.customerEmail, s.status, s.notes, s.createdAt, s.updatedAt)
  }

  /** The aggregate GetAsync materialises without Include: no lines, no events, and the ignored total at Money.Zero(). */
  function Loaded(id: Guids.Guid, r: OrderRecord): (s: OrderState)
    ensures s.id == id && s.orderLines == [] && s.outboxEvents == [] && s.totalAmount == Zero(TRY)
    ensures Stored(s) == r
  {
    OrderState(id, r.customerId, r.customerEmail, r.status, Zero(TRY), r.notes, [], [], r.createdAt, r.updatedAt)
  }

  /** The line rows of one order, in table order. */
  function LinesOf(lines: seq<LineRecord>, orderId: Guids.Guid): (r: seq<LineRecord>)
    ensures |r| <= |lines|
    ensures forall i | 0 <= i < |r| :: r[i].orderId == orderId && r[i] in lines
    ensures forall l | l in lines && l.orderId == orderId :: l in r
  {
    if lines == [] then []
    else (if lines[0].orderId == orderId then [lines[0]] else []) + LinesOf(lines[1..], orderId)
  }

  /** A materialised OrderLine: the ignored UnitPrice keeps its initialiser, Money.Zero(). */
  function LoadedLine(l: LineRecord): (r: OrderLineRow)
    ensures r.id == l.id && r.productId == l.productId && r.quantity == l.quantity && r.unitPrice == Zero(TRY)
  {
    OrderLineRow(l.id, l.orderId, l.productId, l.productName, Zero(TRY), l.quantity, l.createdAt, l.updatedAt)
  }

  function LoadedLines(lines: seq<LineRecord>): (r: seq<OrderLineRow>)
    ensures |r| == |lines|
    ensures forall i | 0 <= i < |r| :: r[i] == LoadedLine(lines[i])
  {
    seq(|lines|, i requires 0 <= i < |lines| => LoadedLine(lines[i]))
  }

  /** The events whose OrderId is the order's, in table order. */
  function EventsOf(outbox: seq<OutboxRecord>, orderId: Guids.Guid): (r: seq<OutboxRow>)
    ensures |r| <= |outbox|
    ensures forall e | e in r :: OutboxRecord(Some(orderId), e) in outbox
    ensures forall rec | rec in outbox && rec.orderId == Some(orderId) :: rec.event in r
  {
    if outbox == [] then []
    else (if outbox[0].orderId == Some(orderId) then [outbox[0].event] else []) + EventsOf(outbox[1..], orderId)
  }

  /** The aggregate ConfirmOrderAsync loads, with Include(OrderLines) and Include(OutboxEvents). */
  function Included(t: Tables, orderId: Guids.Guid): (s: OrderState)
    requires orderId in t.orders
    ensures s.id == orderId && s.status == t.orders[orderId].status
    ensures s.orderLines == LoadedLines(LinesOf(t.lines, orderId))
  {
    Loaded(orderId, t.orders[orderId]).(
      orderLines := LoadedLines(LinesOf(t.lines, orderId)),
      outboxEvents := EventsOf(t.outbox, orderId))
  }

  /** The rows SaveChanges inserts for the lines of a new order: OrderId fixed up to the order's key. */
  function LineRecords(lines: seq<OrderLineRow>, orderId: Guids.Guid): (r: seq<LineRecord>)
    ensures |r| == |lines|
    ensures forall i | 0 <= i < |r| ::
      r[i] == LineRecord(lines[i].id, orderId, lines[i].productId, lines[i].productName, lines[i].quantity,
                         lines[i].createdAt, lines[i].updatedAt)
  {
    seq(|lines|, i requires 0 <= i < |lines| =>
      LineRecord(lines[i].id, orderId, lines[i].productId, lines[i].productName, lines[i].quantity,
                 lines[i].createdAt, lines[i].updatedAt))
  }

  /** Outbox rows with their foreign key. */
  function Owned(orderId: Option<Guids.Guid>, events: seq<OutboxRow>): (r: seq<OutboxRecord>)
    ensures |r| == |events|
    ensures forall i | 0 <= i < |r| :: r[i] == OutboxRecord(orderId, events[i])
  {
    seq(|events|, i requires 0 <= i < |events| => OutboxRecord(orderId, events[i]))
  }

  // ---------------------------------------------------------------- dtos

  datatype OrderLineDto = OrderLineDto(
    id: Guids.Guid,
    orderId: Guids.Guid,
    productId: string,
    productName: string,
    quantity: Int32,
    unitPrice: Dec,
    totalPrice: Dec)

  datatype OrderDto = OrderDto(
    id: Guids.Guid,
    customerId: string,
    orderDate: int,
    status: OrderStatus,
    totalAmount: Dec,
    orderLines: seq<OrderLineDto>)

  /** MapToOrderLineDto: its OrderId is filled from the line's own Id. */
  function ToLineDto(l: OrderLineRow): (d: OrderLineDto)
    requires l.quantity > 0
    ensures d.id == l.id && d.orderId == l.id && d.productId == l.productId && d.quantity == l.quantity
    ensures d.unitPrice == Dec(l.unitPrice.cents, 2) && d.totalPrice == Dec(l.unitPrice.cents * l.quantity, 2)
  {
    OrderLineDto(l.id, l.id, l.productId, l.productName, l.quantity, l.unitPrice.Amount(), LineTotal(l).value.Amount())
  }

  /** MapToDto: OrderDate is CreatedAt, and the lines are mapped in order. */
  function ToDto(s: OrderState): (d: OrderDto)
    requires QuantitiesPositive(s.orderLines)
    ensures d.id == s.id && d.status == s.status && d.totalAmount == Dec(s.totalAmount.cents, 2)
    ensures |d.orderLines| == |s.orderLines|
    ensures forall i | 0 <= i < |s.orderLines| :: d.orderLines[i] == ToLineDto(s.orderLines[i])
  {
    OrderDto(s.id, s.customerId, s.createdAt, s.status, s.totalAmount.Amount(),
             seq(|s.orderLines|, i requires 0 <= i < |s.orderLines| => ToLineDto(s.orderLines[i])))
  }

  // ---------------------------------------------------------------- responses

  function NotFound<T>(orderId: Guids.Guid): OperationResult<T>
  {
    Fail("Order with ID " + Guids.Format(orderId) + " not found", statusCode := 404)
  }

  /** The catch block's result for an exception of the aggregate. */
  function Failure<T>(prefix: string, e: Thrown): OperationResult<T>
  {
    Aborted(prefix, e.message)
  }

  // ---------------------------------------------------------------- saving

  /** The message of the DbUpdateException SaveChangesAsync throws when PostgreSQL refuses a row. */
  const SaveRefused: string := "An error occurred while saving the entity changes. See the inner exception for details."

  /** The varchar limits of the Orders columns; PostgreSQL refuses a longer value. */
  predicate FitsColumns(r: OrderRecord)
  {
    |r.customerId| <= 100 && |r.customerEmail| <= 255 && (r.notes.Some? ==> |r.notes.value| <= 1000)
  }

  /** The varchar limits of the OrderLines columns. */
  predicate LinesFitColumns(lines: seq<OrderLineRow>)
  {
    forall i | 0 <= i < |lines| :: |lines[i].productId| <= 100 && |lines[i].productName| <= 200
  }

  /**
   * How SaveChangesAsync and CommitTransactionAsync end: None when they commit, otherwise
   * the message of the exception. A row that does not fit its columns (`rowsFit` false)
   * is refused whatever the database would otherwise have reported in `saved`.
   */
  function SaveOutcome(rowsFit: bool, saved: Option<string>): (e: Option<string>)
    ensures e.None? <==> rowsFit && saved.None?
    ensures !rowsFit ==> e == Some(SaveRefused)
    ensures rowsFit ==> e == saved
  {
    if rowsFit then saved else Some(SaveRefused)
  }

  /**
   * The message a transaction on an order ends with: the aggregate's exception, or else
   * the one saving the rewritten row throws; None when it commits.
   */
  function Abort(o: Outcome, saved: Option<string>): (e: Option<string>)
    ensures e.None? <==> o.thrown.None? && FitsColumns(Stored(o.state)) && saved.None?
    ensures o.thrown.Some? ==> e == Some(o.thrown.value.message)
  {
    if o.thrown.Some? then Some(o.thrown.value.message) else SaveOutcome(FitsColumns(Stored(o.state)), saved)
  }

  /** The reply of a per-order operation without a value: the catch block's, or `successMessage`. */
  function Settled(o: Outcome, saved: Option<string>, errorPrefix: string, successMessage: string): (r: OperationResult<()>)
    ensures r.isSuccessful <==> Abort(o, saved).None?
    ensures !r.isSuccessful ==> r == Aborted(errorPrefix, Abort(o, saved).value)
  {
    match Abort(o, saved)
    case Some(m) => Aborted(errorPrefix, m)
    case None => Success(successMessage)
  }

  // ---------------------------------------------------------------- per-order commands

  /** An optional command on a loaded aggregate. */
  function Run(s: OrderState, c: Option<Command>, now: int): Outcome
  {
    if c.Some? then Apply(s, c.value, now) else Done(s)
  }

  /** The status switch of UpdateOrderStatusAsync and UpdateOrderAsync: only Confirmed and Cancelled act. */
  function StatusCommand(status: OrderStatus, eventId: Guids.Guid): (c: Option<Command>)
    ensures c.Some? ==> !c.value.EditsLines()
  {
    if status == Confirmed then Some(ConfirmOrder(eventId))
    else if status == Cancelled then Some(Command.CancelOrder)
    else None
  }

  /**
   * The tables after GetAsync without Include, an optional command, UpdateAsync and
   * SaveChanges: the order row is rewritten when the command and the save succeed;
   * otherwise the transaction rolls back. UpdateAsync marks the order alone, so an event
   * the command appended is not written (only ConfirmOrder appends one, and on an order
   * loaded without lines it throws).
   */
  function AfterCommand(t: Tables, orderId: Guids.Guid, c: Option<Command>, saved: Option<string>, now: int): Tables
  {
    if orderId !in t.orders then t
    else
      var o := Run(Loaded(orderId, t.orders[orderId]), c, now);
      if Abort(o, saved).Some? then t
      else t.(orders := t.orders[orderId := Stored(o.state)])
  }

  /** A status command on a loaded order keeps it without lines, so it can be mapped to a dto. */
  lemma RunKeepsNoLines(id: Guids.Guid, r: OrderRecord, c: Option<Command>, now: int)
    requires c.Some? ==> !c.value.EditsLines()
    ensures Run(Loaded(id, r), c, now).state.orderLines == []
    ensures Run(Loaded(id, r), c, now).state.id == id
  {
    if c.Some? {
      NonLineCommandsKeepContent(Loaded(id, r), c.value, now);
    }
  }

  /** The reply of UpdateOrderAsync and UpdateOrderStatusAsync for a stored order: the catch block's, or the order as the command left it. */
  function Responded(orderId: Guids.Guid, r: OrderRecord, c: Option<Command>, saved: Option<string>, now: int,
                     errorPrefix: string, successMessage: string): (result: OperationResult<OrderDto>)
    requires c.Some? ==> !c.value.EditsLines()
    ensures result.isSuccessful <==> Abort(Run(Loaded(orderId, r), c, now), saved).None?
    ensures result.isSuccessful ==> result.data == Some(ToDto(Run(Loaded(orderId, r), c, now).state))
  {
    var o := Run(Loaded(orderId, r), c, now);
    match Abort(o, saved)
    case Some(m) => Aborted(errorPrefix, m)
    case None =>
      RunKeepsNoLines(orderId, r, c, now);
      SuccessWith(ToDto(o.state), successMessage)
  }

  /**
   * UpdateOrderStatusAsync(Confirmed) and UpdateOrderAsync with Status Confirmed
   * never succeed: the order is loaded without its lines, so ConfirmOrder throws
   * (or the order is not StockReserved), the transaction rolls back and nothing changes.
   */
  lemma ConfirmThroughStatusUpdateFails(t: Tables, orderId: Guids.Guid, eventId: Guids.Guid, saved: Option<string>, now: int)
    requires orderId in t.orders
    ensures Run(Loaded(orderId, t.orders[orderId]), StatusCommand(Confirmed, eventId), now).thrown.Some?
    ensures AfterCommand(t, orderId, StatusCommand(Confirmed, eventId), saved, now) == t
  {
  }

  /** A status other than Confirmed or Cancelled rewrites the order row unchanged: the tables stay as they were. */
  lemma OtherStatusLeavesOrder(t: Tables, orderId: Guids.Guid, status: OrderStatus, eventId: Guids.Guid, saved: Option<string>, now: int)
    requires status != Confirmed && status != Cancelled
    ensures StatusCommand(status, eventId).None?
    ensures AfterCommand(t, orderId, StatusCommand(status, eventId), saved, now) == t
  {
    if orderId in t.orders {
      assert t.orders[orderId := t.orders[orderId]] == t.orders;
    }
  }

  /**
   * ConfirmStockReservationAsync commits StockReserved exactly when the stored order
   * awaits its reservation and the save goes through; otherwise nothing changes.
   */
  lemma ConfirmReservationMeaning(t: Tables, orderId: Guids.Guid, saved: Option<string>, now: int)
    requires orderId in t.orders
    ensures var t' := AfterCommand(t, orderId, Some(MarkStockReserved), saved, now);
      && (t.orders[orderId].status == AwaitingStockReservation && FitsColumns(t.orders[orderId]) && saved.None? ==>
            t' == t.(orders := t.orders[orderId := t.orders[orderId].(status := StockReserved, updatedAt := Some(now))]))
      && (!(t.orders[orderId].status == AwaitingStockReservation && FitsColumns(t.orders[orderId]) && saved.None?) ==> t' == t)
  {
  }

  /** The row FailStockReservationAsync writes for an order that awaited its reservation. */
  function FailedRecord(r: OrderRecord, reason: string, now: int): (f: OrderRecord)
    ensures f.status == StockReservationFailed && f.notes == Some(FailureNotes(r.notes, reason))
    ensures f.customerId == r.customerId && f.customerEmail == r.customerEmail && f.createdAt == r.createdAt
  {
    r.(status := StockReservationFailed, notes := Some(FailureNotes(r.notes, reason)), updatedAt := Some(now))
  }

  /**
   * FailStockReservationAsync on an order that awaited its reservation records the
   * failure and its reason, unchanged, in the notes, when the row still fits its columns
   * and the save goes through; otherwise it rolls back and nothing changes.
   */
  lemma FailReservationRecordsReason(t: Tables, orderId: Guids.Guid, reason: string, saved: Option<string>, now: int)
    requires orderId in t.orders && t.orders[orderId].status == AwaitingStockReservation
    ensures var t' := AfterCommand(t, orderId, Some(MarkStockReservationFailed(reason)), saved, now);
      var f := FailedRecord(t.orders[orderId], reason, now);
      && (FitsColumns(f) && saved.None? ==> t' == t.(orders := t.orders[orderId := f]))
      && (!(FitsColumns(f) && saved.None?) ==> t' == t)
  {
  }

  /**
   * The notes column holds 1000 characters: a reason longer than 974 characters on an
   * order without notes makes the save fail, so FailStockReservationAsync answers with
   * the database's refusal and the order keeps awaiting its reservation.
   */
  lemma LongReasonIsRefused(t: Tables, orderId: Guids.Guid, reason: string, saved: Option<string>, now: int)
    requires orderId in t.orders && t.orders[orderId].status == AwaitingStockReservation && t.orders[orderId].notes.None?
    requires |reason| > 974 && reason[|reason| - 1] !in NoteTrimChars
    ensures AfterCommand(t, orderId, Some(MarkStockReservationFailed(reason)), saved, now) == t
    ensures Abort(MarkReservationFailed(Loaded(orderId, t.orders[orderId]), reason, now), saved) == Some(SaveRefused)
  {
    FailureNotesRecordReason(reason);
    assert !FitsColumns(FailedRecord(t.orders[orderId], reason, now));
    FailReservationRecordsReason(t, orderId, reason, saved, now);
  }

  /**
   * The tables after ConfirmOrderAsync: the order with its lines and events, ConfirmOrder,
   * then the events it appended are inserted with the order's key and the row is rewritten.
   * An exception, from the aggregate or from SaveChanges, leaves every table as it was:
   * SaveChanges writes its rows in one database transaction.
   */
  function AfterConfirm(t: Tables, orderId: Guids.Guid, eventId: Guids.Guid, saved: Option<string>, now: int): Tables
  {
    if orderId !in t.orders then t
    else
      var s := Included(t, orderId);
      var o := Confirm(s, eventId, now);
      if Abort(o, saved).Some? then t
      else t.(orders := t.orders[orderId := Stored(o.state)],
              outbox := t.outbox + Owned(Some(orderId), o.state.outboxEvents[|s.outboxEvents|..]))
  }

  /**
   * ConfirmOrderAsync on a StockReserved order whose stored lines exist and name Guids,
   * when the save goes through, confirms it and inserts exactly one OrderConfirmed row on
   * "order-events", owned by the order and carrying every stored line; the lines are
   * untouched. When the save fails nothing changes.
   */
  lemma ConfirmOrderAppendsConfirmation(t: Tables, orderId: Guids.Guid, eventId: Guids.Guid, saved: Option<string>, now: int)
    requires orderId in t.orders && t.orders[orderId].status == StockReserved
    requires |LinesOf(t.lines, orderId)| > 0
    requires forall l | l in LinesOf(t.lines, orderId) :: Guids.Parse(l.productId).Some?
    ensures !(saved.None? && FitsColumns(t.orders[orderId])) ==> AfterConfirm(t, orderId, eventId, saved, now) == t
    ensures saved.None? && FitsColumns(t.orders[orderId]) ==>
      var t' := AfterConfirm(t, orderId, eventId, saved, now);
      && orderId in t'.orders && t'.orders[orderId].status == Confirmed
      && t'.lines == t.lines
      && |t'.outbox| == |t.outbox| + 1 && t'.outbox[..|t.outbox|] == t.outbox
      && var row := t'.outbox[|t.outbox|];
      && row.orderId == Some(orderId)
      && row.event.eventType == OrderConfirmedType && row.event.exchangeName == OrderEvents
      && row.event.data.OrderConfirmedEvent? && row.event.data.orderId == orderId
      && |row.event.data.orderLines| == |LinesOf(t.lines, orderId)|
  {
    var s := Included(t, orderId);
    var stored := LinesOf(t.lines, orderId);
    forall i | 0 <= i < |s.orderLines| ensures Guids.Parse(s.orderLines[i].productId).Some? {
      assert s.orderLines[i].productId == stored[i].productId;
    }
    ConfirmEventCarriesLines(s, eventId, now);
    var o := Confirm(s, eventId, now);
    assert Stored(o.state) == t.orders[orderId].(status := Confirmed, updatedAt := Some(now));
    assert o.state.outboxEvents[|s.outboxEvents|..] == [o.state.outboxEvents[|s.outboxEvents|]];
  }

  /** ConfirmOrderAsync on an order that is not StockReserved fails and leaves every table as it was. */
  lemma ConfirmOrderNeedsReservation(t: Tables, orderId: Guids.Guid, eventId: Guids.Guid, saved: Option<string>, now: int)
    requires orderId in t.orders && t.orders[orderId].status != StockReserved
    ensures AfterConfirm(t, orderId, eventId, saved, now) == t
    ensures Confirm(Included(t, orderId), eventId, now).thrown
         == Some(ConfirmWhenNotReserved)
  {
  }

  // ---------------------------------------------------------------- order creation

  datatype CreateOrderLineRequest = CreateOrderLineRequest(productId: string, productName: string, quantity: Int32, unitPrice: Dec)

  datatype CreateOrderRequest = CreateOrderRequest(customerId: string, customerEmail: string, orderLines: seq<CreateOrderLineRequest>)

  datatype UpdateOrderRequest = UpdateOrderRequest(status: OrderStatus)

  /**
   * The foreach of CreateOrderAsync from outcome `o` on: AddOrderLine(decimal) for each
   * request line, the first exception leaving the loop. `lineIds` are the new lines'
   * Guid.NewGuid().
   */
  function AddAll(o: Outcome, requests: seq<CreateOrderLineRequest>, lineIds: seq<Guids.Guid>, now: int): (o': Outcome)
    requires |lineIds| == |requests|
    ensures o'.state.status == o.state.status && o'.state.outboxEvents == o.state.outboxEvents && o'.state.id == o.state.id
    ensures o.thrown.Some? ==> o' == o
    decreases |requests|
  {
    if o.thrown.Some? || requests == [] then o
    else
      var l := requests[0];
      AddAll(AddLineDecimal(o.state, l.productId, l.productName, l.unitPrice, l.quantity, lineIds[0], now),
             requests[1..], lineIds[1..], now)
  }

  /** The loop keeps the aggregate's invariant, line after line. */
  lemma {:induction false} AddAllKeepsValid(o: Outcome, requests: seq<CreateOrderLineRequest>, lineIds: seq<Guids.Guid>, now: int)
    requires |lineIds| == |requests| && Valid(o.state)
    ensures Valid(AddAll(o, requests, lineIds, now).state)
    decreases |requests|
  {
    if o.thrown.None? && requests != [] {
      var l := requests[0];
      var c := AddOrderLineDecimal(l.productId, l.productName, l.unitPrice, l.quantity, lineIds[0]);
      CommandsPreserveValid(o.state, c, now);
      AddAllKeepsValid(Apply(o.state, c, now), requests[1..], lineIds[1..], now);
    }
  }

  /** The StockReservationRequestedEvent items: Guid.Parse of every ProductId, None when one of them throws. */
  function ParsedItems(lines: seq<OrderLineRow>): (r: Option<seq<StockReservationRequestItem>>)
    ensures r.Some? <==> forall i | 0 <= i < |lines| :: Guids.Parse(lines[i].productId).Some?
    ensures r.Some? ==> |r.value| == |lines|
    ensures r.Some? ==> forall i | 0 <= i < |lines| ::
      r.value[i] == StockReservationRequestItem(Guids.Parse(lines[i].productId).value, lines[i].quantity)
  {
    if lines == [] then Some([])
    else match Guids.Parse(lines[0].productId)
      case None => None
      case Some(g) =>
        match ParsedItems(lines[1..])
        case None =>
          assert exists i | 0 <= i < |lines[1..]| :: Guids.Parse(lines[1..][i].productId).None?;
          None
        case Some(rest) =>
          assert forall i | 1 <= i < |lines| :: lines[i] == lines[1..][i - 1];
          Some([StockReservationRequestItem(g, lines[0].quantity)] + rest)
  }

  /** A created order and the StockReservationRequested row CreateOrderAsync adds by hand. */
  datatype Created = Created(order: OrderState, requestRow: OutboxRow)

  /**
   * CreateOrderAsync up to SaveChanges: build the order, request the reservation,
   * take the key (`orderKey`, generated when the order starts being tracked),
   * then build the explicit event. The first exception aborts.
   */
  function Creation(request: CreateOrderRequest, lineIds: seq<Guids.Guid>, orderKey: Guids.Guid,
                    reservationEventId: Guids.Guid, requestEventId: Guids.Guid, now: int): (r: Result<Created, Thrown>)
    requires |lineIds| == |request.orderLines|
    ensures r.Ok? ==> r.value.order.id == orderKey && r.value.order.status == AwaitingStockReservation
    ensures r.Ok? ==> Valid(r.value.order)
  {
    var start := NewOrder(request.customerId, request.customerEmail, None, now);
    var built := AddAll(Done(start), request.orderLines, lineIds, now);
    AddAllKeepsValid(Done(start), request.orderLines, lineIds, now);
    if built.thrown.Some? then Err(built.thrown.value)
    else
      var requested := RequestReservation(built.state, reservationEventId, now);
      if requested.thrown.Some? then Err(requested.thrown.value)
      else
        var order := requested.state.(id := orderKey);
        match ParsedItems(order.orderLines)
        case None => Err(GuidFormatError)
        case Some(items) =>
          var data := StockReservationRequestedEvent(orderKey, items, now);
          Ok(Created(order, NewRow(requestEventId, StockReservationRequestedType, data, StockEvents, now)))
  }

  /**
   * What SaveChanges inserts for a created order: its row, its lines (added by AddRangeAsync)
   * and the explicit event, without an OrderId. The aggregate's own event is not among them:
   * AddAsync marks the order alone as Added, so nothing adds that event to the context.
   */
  function Inserted(t: Tables, c: Created): (t': Tables)
    ensures t'.orders == t.orders[c.order.id := Stored(c.order)]
    ensures |t'.lines| == |t.lines| + |c.order.orderLines| && t'.lines[..|t.lines|] == t.lines
    ensures t'.outbox == t.outbox + [OutboxRecord(None, c.requestRow)]
  {
    t.(orders := t.orders[c.order.id := Stored(c.order)],
       lines := t.lines + LineRecords(c.order.orderLines, c.order.id),
       outbox := t.outbox + [OutboxRecord(None, c.requestRow)])
  }

  /** How the create transaction ends: the order and line rows must fit their columns. */
  function CreationSaved(c: Created, saved: Option<string>): (e: Option<string>)
    ensures e.None? <==> FitsColumns(Stored(c.order)) && LinesFitColumns(c.order.orderLines) && saved.None?
  {
    SaveOutcome(FitsColumns(Stored(c.order)) && LinesFitColumns(c.order.orderLines), saved)
  }

  /** Request lines whose quantities and prices the aggregate accepts, with pairwise distinct product ids. */
  predicate AcceptableLines(requests: seq<CreateOrderLineRequest>)
  {
    && (forall i | 0 <= i < |requests| :: requests[i].quantity > 0 && requests[i].unitPrice.units >= 0)
    && (forall i, j | 0 <= i < j < |requests| :: requests[i].productId != requests[j].productId)
  }

  /** The order's lines are the request lines, one for one and in order, each priced `new Money(unitPrice)` in TRY. */
  predicate MatchesRequests(lines: seq<OrderLineRow>, requests: seq<CreateOrderLineRequest>, lineIds: seq<Guids.Guid>)
  {
    && |lines| == |requests| == |lineIds|
    && forall i | 0 <= i < |lines| ::
         && lines[i].id == lineIds[i] && lines[i].productId == requests[i].productId
         && lines[i].productName == requests[i].productName && lines[i].quantity == requests[i].quantity
         && Create(requests[i].unitPrice, TRY) == Ok(lines[i].unitPrice)
  }

  /** A line built from the next request, with the next id, extends the match by one. */
  lemma MatchesSnoc(lines: seq<OrderLineRow>, requests: seq<CreateOrderLineRequest>, lineIds: seq<Guids.Guid>, k: nat, line: OrderLineRow)
    requires k < |requests| && |lineIds| == |requests|
    requires MatchesRequests(lines, requests[..k], lineIds[..k])
    requires line.id == lineIds[k] && line.productId == requests[k].productId
    requires line.productName == requests[k].productName && line.quantity == requests[k].quantity
    requires Create(requests[k].unitPrice, TRY) == Ok(line.unitPrice)
    ensures MatchesRequests(lines + [line], requests[..k + 1], lineIds[..k + 1])
  {
    forall i | 0 <= i < |lines|
      ensures (lines + [line])[i] == lines[i] && requests[..k + 1][i] == requests[..k][i] && lineIds[..k + 1][i] == lineIds[..k][i]
    {
    }
  }

  /**
   * With acceptable lines every AddOrderLine appends one line, so the loop never throws;
   * the first `k` request lines are already added.
   */
  lemma {:induction false} AddAllAppends(s: OrderState, requests: seq<CreateOrderLineRequest>, lineIds: seq<Guids.Guid>, k: nat, now: int)
    requires |lineIds| == |requests| && k <= |requests| && AcceptableLines(requests)
    requires s.status == Pending && Valid(s)
    requires MatchesRequests(s.orderLines, requests[..k], lineIds[..k]) && AllInCurrency(s.orderLines, TRY)
    ensures var o := AddAll(Done(s), requests[k..], lineIds[k..], now);
      && o.thrown.None? && o.state.status == Pending
      && MatchesRequests(o.state.orderLines, requests, lineIds)
      && AllInCurrency(o.state.orderLines, TRY)
    decreases |requests| - k
  {
    if k == |requests| {
      assert requests[..k] == requests && lineIds[..k] == lineIds && requests[k..] == [];
    } else {
      var next := AppendNext(s, requests, lineIds, k, now);
      AddAllAppends(next, requests, lineIds, k + 1, now);
    }
  }

  /** One turn of the loop: request line `k` is appended and the match grows by one. */
  lemma AppendNext(s: OrderState, requests: seq<CreateOrderLineRequest>, lineIds: seq<Guids.Guid>, k: nat, now: int)
    returns (next: OrderState)
    requires |lineIds| == |requests| && k < |requests| && AcceptableLines(requests)
    requires s.status == Pending && Valid(s)
    requires MatchesRequests(s.orderLines, requests[..k], lineIds[..k]) && AllInCurrency(s.orderLines, TRY)
    ensures next.status == Pending && Valid(next) && AllInCurrency(next.orderLines, TRY)
    ensures AddAll(Done(s), requests[k..], lineIds[k..], now) == AddAll(Done(next), requests[k + 1..], lineIds[k + 1..], now)
    ensures MatchesRequests(next.orderLines, requests[..k + 1], lineIds[..k + 1])
  {
    var l := requests[k];
    forall i | 0 <= i < |s.orderLines|
      ensures s.orderLines[i].productId != l.productId
    {
      assert s.orderLines[i].productId == requests[..k][i].productId == requests[i].productId;
    }
    AddRequestedLine(s, l, lineIds[k], now);
    var o := AddLineDecimal(s, l.productId, l.productName, l.unitPrice, l.quantity, lineIds[k], now);
    next := o.state;
    assert o == Done(next);
    assert requests[k..][0] == l && requests[k..][1..] == requests[k + 1..];
    assert lineIds[k..][0] == lineIds[k] && lineIds[k..][1..] == lineIds[k + 1..];
    MatchesSnoc(s.orderLines, requests, lineIds, k, next.orderLines[|s.orderLines|]);
  }

  /** One acceptable request line for a new product is appended, priced in TRY, and the total follows. */
  lemma AddRequestedLine(s: OrderState, l: CreateOrderLineRequest, lineId: Guids.Guid, now: int)
    requires s.status == Pending && Valid(s) && AllInCurrency(s.orderLines, TRY)
    requires l.quantity > 0 && l.unitPrice.units >= 0
    requires forall i | 0 <= i < |s.orderLines| :: s.orderLines[i].productId != l.productId
    ensures var o := AddLineDecimal(s, l.productId, l.productName, l.unitPrice, l.quantity, lineId, now);
      && o.thrown.None? && o.state.status == Pending && Valid(o.state)
      && o.state.orderLines == s.orderLines + [OrderLineRow(lineId, s.id, l.productId, l.productName,
                                                            Create(l.unitPrice, TRY).value, l.quantity, now, None)]
      && AllInCurrency(o.state.orderLines, TRY)
  {
    var price := Create(l.unitPrice, TRY).value;
    var line := NewLine(lineId, l.productId, l.productName, price, l.quantity, now).value.(orderId := s.id);
    var lines := s.orderLines + [line];
    assert AllInCurrency(lines, TRY);
    RecalculatedIsLineSum(lines);
    assert AddLineDecimal(s, l.productId, l.productName, l.unitPrice, l.quantity, lineId, now)
        == Recalculate(s.(orderLines := lines), now);
    CommandsPreserveValid(s, AddOrderLineDecimal(l.productId, l.productName, l.unitPrice, l.quantity, lineId), now);
  }

  /**
   * CreateOrderAsync with acceptable lines, at least one, whose product ids are Guids
   * succeeds: the order awaits its reservation, its lines are the request's, and its
   * total is the TRY sum of unit price times quantity.
   */
  lemma CreationSucceeds(request: CreateOrderRequest, lineIds: seq<Guids.Guid>, orderKey: Guids.Guid,
                         reservationEventId: Guids.Guid, requestEventId: Guids.Guid, now: int)
    requires |lineIds| == |request.orderLines| && |request.orderLines| > 0
    requires AcceptableLines(request.orderLines)
    requires forall i | 0 <= i < |request.orderLines| :: Guids.Parse(request.orderLines[i].productId).Some?
    ensures var r := Creation(request, lineIds, orderKey, reservationEventId, requestEventId, now);
      && r.Ok?
      && r.value.order.status == AwaitingStockReservation && r.value.order.id == orderKey
      && MatchesRequests(r.value.order.orderLines, request.orderLines, lineIds)
      && r.value.order.totalAmount.currency == TRY
      && r.value.order.totalAmount.cents == LinesCents(r.value.order.orderLines)
  {
    var start := NewOrder(request.customerId, request.customerEmail, None, now);
    assert request.orderLines[..0] == [] && lineIds[..0] == [];
    assert request.orderLines[0..] == request.orderLines && lineIds[0..] == lineIds;
    AddAllAppends(start, request.orderLines, lineIds, 0, now);
    AddAllKeepsValid(Done(start), request.orderLines, lineIds, now);
    var built := AddAll(Done(start), request.orderLines, lineIds, now).state;
    RecalculatedIsLineSum(built.orderLines);
  }

  /**
   * A created order adds exactly one StockReservationRequested row to the outbox, on
   * "stock-events" and without an OrderId, naming the key and the parsed product ids.
   * The aggregate's own StockReservationRequested event, built before the key existed
   * and so naming Guid.Empty, stays in memory and is never written.
   */
  lemma CreationRequestsOnce(t: Tables, request: CreateOrderRequest, lineIds: seq<Guids.Guid>, orderKey: Guids.Guid,
                             reservationEventId: Guids.Guid, requestEventId: Guids.Guid, now: int)
    requires |lineIds| == |request.orderLines|
    requires Creation(request, lineIds, orderKey, reservationEventId, requestEventId, now).Ok?
    ensures var c := Creation(request, lineIds, orderKey, reservationEventId, requestEventId, now).value;
      var t' := Inserted(t, c);
      && |t'.outbox| == |t.outbox| + 1 && t'.outbox[..|t.outbox|] == t.outbox
      && var row := t'.outbox[|t.outbox|];
      && row.orderId.None?
      && row.event.eventType == StockReservationRequestedType && row.event.exchangeName == StockEvents
      && row.event.data.StockReservationRequestedEvent? && row.event.data.orderId == orderKey
      && ParsedItems(c.order.orderLines) == Some(row.event.data.requestItems)
      && |c.order.outboxEvents| == 1
      && c.order.outboxEvents[0].data.ReservationRequestedByOrder? && c.order.outboxEvents[0].data.orderId == Guids.Empty
      && OutboxRecord(None, c.order.outboxEvents[0]) !in t'.outbox[|t.outbox|..]
  {
    var start := NewOrder(request.customerId, request.customerEmail, None, now);
    var built := AddAll(Done(start), request.orderLines, lineIds, now);
    assert built.state.outboxEvents == [] && built.state.id == Guids.Empty;
  }

  /** A request without lines fails: RequestStockReservation throws and nothing is created. */
  lemma CreationWithoutLinesFails(request: CreateOrderRequest, orderKey: Guids.Guid,
                                  reservationEventId: Guids.Guid, requestEventId: Guids.Guid, now: int)
    requires request.orderLines == []
    ensures Creation(request, [], orderKey, reservationEventId, requestEventId, now)
         == Err(RequestWithoutLines)
  {
  }

  /** A product id that is not a Guid fails the creation once the order has been built. */
  lemma CreationRejectsNonGuidProduct(request: CreateOrderRequest, lineIds: seq<Guids.Guid>, orderKey: Guids.Guid,
                                      reservationEventId: Guids.Guid, requestEventId: Guids.Guid, now: int, k: nat)
    requires |lineIds| == |request.orderLines| && AcceptableLines(request.orderLines)
    requires k < |request.orderLines| && Guids.Parse(request.orderLines[k].productId).None?
    ensures Creation(request, lineIds, orderKey, reservationEventId, requestEventId, now) == Err(GuidFormatError)
  {
    BuiltWithUnparsableProduct(request, lineIds, now, k);
    CreationFailsAtParse(request, lineIds, orderKey, reservationEventId, requestEventId, now);
  }

  /** Building the order from acceptable lines keeps the unparsable product id of line `k`. */
  lemma BuiltWithUnparsableProduct(request: CreateOrderRequest, lineIds: seq<Guids.Guid>, now: int, k: nat)
    requires |lineIds| == |request.orderLines| && AcceptableLines(request.orderLines)
    requires k < |request.orderLines| && Guids.Parse(request.orderLines[k].productId).None?
    ensures var built := AddAll(Done(NewOrder(request.customerId, request.customerEmail, None, now)), request.orderLines, lineIds, now);
      && built.thrown.None? && built.state.status == Pending && |built.state.orderLines| > 0
      && ParsedItems(built.state.orderLines).None?
  {
    var start := NewOrder(request.customerId, request.customerEmail, None, now);
    assert request.orderLines[..0] == [] && lineIds[..0] == [];
    assert request.orderLines[0..] == request.orderLines && lineIds[0..] == lineIds;
    AddAllAppends(start, request.orderLines, lineIds, 0, now);
    var built := AddAll(Done(start), request.orderLines, lineIds, now).state;
    assert built.orderLines[k].productId == request.orderLines[k].productId;
  }

  /** A built, pending order with lines whose product ids do not all parse fails at the explicit event. */
  lemma CreationFailsAtParse(request: CreateOrderRequest, lineIds: seq<Guids.Guid>, orderKey: Guids.Guid,
                             reservationEventId: Guids.Guid, requestEventId: Guids.Guid, now: int)
    requires |lineIds| == |request.orderLines|
    requires var built := AddAll(Done(NewOrder(request.customerId, request.customerEmail, None, now)), request.orderLines, lineIds, now);
      && built.thrown.None? && built.state.status == Pending && |built.state.orderLines| > 0
      && ParsedItems(built.state.orderLines).None?
    ensures Creation(request, lineIds, orderKey, reservationEventId, requestEventId, now) == Err(GuidFormatError)
  {
  }

  // ---------------------------------------------------------------- the service

  class OrderApplicationService {
    const db: OrderDatabase

    constructor (db: OrderDatabase)
      ensures this.db == db
    {
      this.db := db;
    }

    /** CreateOrderAsync's loop over the request lines: AddOrderLine for each, stopping at the first that throws. */
    method AddRequestLines(order: Order, requests: seq<CreateOrderLineRequest>, lineIds: seq<Guids.Guid>, now: int)
      returns (thrown: Option<Thrown>)
      requires |lineIds| == |requests|
      modifies order
      ensures var o := AddAll(Done(old(order.Snapshot())), requests, lineIds, now);
        thrown == o.thrown && (thrown.None? ==> order.Snapshot() == o.state)
    {
      ghost var start := order.Snapshot();
      thrown := None;
      var i := 0;
      while i < |requests|
        invariant 0 <= i <= |requests|
        invariant thrown.None?
        invariant AddAll(Done(order.Snapshot()), requests[i..], lineIds[i..], now) == AddAll(Done(start), requests, lineIds, now)
      {
        var l := requests[i];
        thrown := order.AddOrderLineDecimal(l.productId, l.productName, l.unitPrice, l.quantity, lineIds[i], now);
        assert requests[i..][1..] == requests[i + 1..] && lineIds[i..][1..] == lineIds[i + 1..];
        if thrown.Some? {
          return;
        }
        i := i + 1;
      }
      assert requests[i..] == [];
    }

    /** CreateOrderAsync. The ids and `orderKey` stand for the Guid.NewGuid() values the call draws; `now` for DateTime.UtcNow. */
    method CreateOrder(request: CreateOrderRequest, lineIds: seq<Guids.Guid>, orderKey: Guids.Guid,
                       reservationEventId: Guids.Guid, requestEventId: Guids.Guid, saved: Option<string>, now: int)
      returns (r: OperationResult<OrderDto>)
      requires |lineIds| == |request.orderLines|
      requires orderKey !in db.orders
      modifies db
      ensures var c := Creation(request, lineIds, orderKey, reservationEventId, requestEventId, now);
        if c.Err? then
          db.Content() == old(db.Content()) && r == Failure(CreateOrderError, c.error)
        else if CreationSaved(c.value, saved).Some? then
          db.Content() == old(db.Content()) && r == Aborted(CreateOrderError, CreationSaved(c.value, saved).value)
        else
          && db.Content() == Inserted(old(db.Content()), c.value)
          && r == SuccessWith(ToDto(c.value.order), CreateSucceeded, 201)
    {
      ghost var start := NewOrder(request.customerId, request.customerEmail, None, now);
      ghost var c := Creation(request, lineIds, orderKey, reservationEventId, requestEventId, now);
      ghost var built := AddAll(Done(start), request.orderLines, lineIds, now);
      var order := new Order(request.customerId, request.customerEmail, None, now);
      var thrown := AddRequestLines(order, request.orderLines, lineIds, now);
      if thrown.Some? {
        assert c == Err(thrown.value);
        return Failure(CreateOrderError, thrown.value);
      }
      ghost var requested := RequestReservation(built.state, reservationEventId, now);
      thrown := order.RequestStockReservation(reservationEventId, now);
      if thrown.Some? {
        assert c == Err(thrown.value);
        return Failure(CreateOrderError, thrown.value);
      }
      order.GenerateKey(orderKey);
      assert order.Snapshot() == requested.state.(id := orderKey);
      var items := ParsedItems(order.orderLines);
      if items.None? {
        assert c == Err(GuidFormatError);
        return Failure(CreateOrderError, GuidFormatError);
      }
      var requestEvent := new OutboxEvent(requestEventId, StockReservationRequestedType,
                                          StockReservationRequestedEvent(order.id, items.value, now), StockEvents, now);
      var created := Created(order.Snapshot(), requestEvent.Row());
      assert c == Ok(created);
      var failure := CreationSaved(created, saved);
      if failure.Some? {
        return Aborted(CreateOrderError, failure.value);
      }
      db.Insert(created);
      r := SuccessWith(ToDto(order.Snapshot()), CreateSucceeded, 201);
    }

    /** GetOrderByIdAsync: the order as loaded, without lines and with a zero total. */
    method GetOrderById(orderId: Guids.Guid) returns (r: OperationResult<OrderDto>)
      ensures orderId !in db.orders ==> r == NotFound(orderId)
      ensures orderId in db.orders ==> r == SuccessWith(ToDto(Loaded(orderId, db.orders[orderId])), GetSucceeded)
    {
      if orderId !in db.orders {
        return NotFound(orderId);
      }
      r := SuccessWith(ToDto(Loaded(orderId, db.orders[orderId])), GetSucceeded);
    }

    /**
     * The shared body of the per-order operations, from GetAsync to CommitTransactionAsync:
     * the outcome of the command (None when the order is absent) and the message of the
     * exception the transaction ends with.
     */
    method Transact(orderId: Guids.Guid, c: Option<Command>, saved: Option<string>, now: int)
      returns (o: Option<Outcome>, aborted: Option<string>)
      requires c.Some? ==> !c.value.EditsLines()
      modifies db
      ensures db.Content() == AfterCommand(old(db.Content()), orderId, c, saved, now)
      ensures o.None? <==> orderId !in old(db.orders)
      ensures o.Some? ==> o.value == Run(Loaded(orderId, old(db.orders)[orderId]), c, now)
      ensures o.Some? ==> o.value.state.orderLines == [] && aborted == Abort(o.value, saved)
    {
      if orderId !in db.orders {
        return None, None;
      }
      RunKeepsNoLines(orderId, db.orders[orderId], c, now);
      var order := new Order.Load(Loaded(orderId, db.orders[orderId]));
      var thrown := None;
      if c.Some? {
        thrown := order.Execute(c.value, now);
      }
      o := Some(Outcome(order.Snapshot(), thrown));
      aborted := Abort(o.value, saved);
      if aborted.None? {
        db.orders := db.orders[orderId := Stored(order.Snapshot())];
      }
    }

    /** UpdateOrderAsync: Status Confirmed confirms, Cancelled cancels, anything else only rewrites the row. */
    method UpdateOrder(orderId: Guids.Guid, request: UpdateOrderRequest, eventId: Guids.Guid, saved: Option<string>, now: int)
      returns (r: OperationResult<OrderDto>)
      modifies db
      ensures db.Content() == AfterCommand(old(db.Content()), orderId, StatusCommand(request.status, eventId), saved, now)
      ensures orderId !in old(db.orders) ==> r == NotFound(orderId)
      ensures orderId in old(db.orders) ==>
        r == Responded(orderId, old(db.orders)[orderId], StatusCommand(request.status, eventId), saved, now, UpdateError, UpdateSucceeded)
    {
      var o, aborted := Transact(orderId, StatusCommand(request.status, eventId), saved, now);
      if o.None? {
        return NotFound(orderId);
      }
      if aborted.Some? {
        return Aborted(UpdateError, aborted.value);
      }
      r := SuccessWith(ToDto(o.value.state), UpdateSucceeded);
    }

    /** UpdateOrderStatusAsync: the same switch, with its own messages. */
    method UpdateOrderStatus(orderId: Guids.Guid, status: OrderStatus, eventId: Guids.Guid, saved: Option<string>, now: int)
      returns (r: OperationResult<OrderDto>)
      modifies db
      ensures db.Content() == AfterCommand(old(db.Content()), orderId, StatusCommand(status, eventId), saved, now)
      ensures orderId !in old(db.orders) ==> r == NotFound(orderId)
      ensures orderId in old(db.orders) ==>
        r == Responded(orderId, old(db.orders)[orderId], StatusCommand(status, eventId), saved, now, UpdateStatusError, UpdateStatusSucceeded)
    {
      var o, aborted := Transact(orderId, StatusCommand(status, eventId), saved, now);
      if o.None? {
        return NotFound(orderId);
      }
      if aborted.Some? {
        return Aborted(UpdateStatusError, aborted.value);
      }
      r := SuccessWith(ToDto(o.value.state), UpdateStatusSucceeded);
    }

    /** CancelOrderAsync. */
    method CancelOrder(orderId: Guids.Guid, saved: Option<string>, now: int) returns (r: OperationResult<()>)
      modifies db
      ensures db.Content() == AfterCommand(old(db.Content()), orderId, Some(Command.CancelOrder), saved, now)
      ensures orderId !in old(db.orders) ==> r == NotFound(orderId)
      ensures orderId in old(db.orders) ==>
        r == Settled(Cancel(Loaded(orderId, old(db.orders)[orderId]), now), saved, CancelError, CancelSucceeded)
    {
      r := Settle(orderId, Some(Command.CancelOrder), saved, now, CancelError, CancelSucceeded);
    }

    /** ConfirmStockReservationAsync. */
    method ConfirmStockReservation(orderId: Guids.Guid, saved: Option<string>, now: int) returns (r: OperationResult<()>)
      modifies db
      ensures db.Content() == AfterCommand(old(db.Content()), orderId, Some(MarkStockReserved), saved, now)
      ensures orderId !in old(db.orders) ==> r == NotFound(orderId)
      ensures orderId in old(db.orders) ==>
        r == Settled(MarkReserved(Loaded(orderId, old(db.orders)[orderId]), now), saved,
                     ConfirmReservationError, ConfirmReservationSucceeded)
    {
      r := Settle(orderId, Some(MarkStockReserved), saved, now, ConfirmReservationError, ConfirmReservationSucceeded);
    }

    /** FailStockReservationAsync; the caller's default reason is "Stock not available". */
    method FailStockReservation(orderId: Guids.Guid, reason: string, saved: Option<string>, now: int) returns (r: OperationResult<()>)
      modifies db
      ensures db.Content() == AfterCommand(old(db.Content()), orderId, Some(MarkStockReservationFailed(reason)), saved, now)
      ensures orderId !in old(db.orders) ==> r == NotFound(orderId)
      ensures orderId in old(db.orders) ==>
        r == Settled(MarkReservationFailed(Loaded(orderId, old(db.orders)[orderId]), reason, now), saved,
                     FailReservationError, FailReservationSucceeded)
    {
      r := Settle(orderId, Some(MarkStockReservationFailed(reason)), saved, now, FailReservationError, FailReservationSucceeded);
    }

    /** The per-order operations without a value: NotFound, the catch block's reply, or success. */
    method Settle(orderId: Guids.Guid, c: Option<Command>, saved: Option<string>, now: int,
                  errorPrefix: string, successMessage: string) returns (r: OperationResult<()>)
      requires c.Some? ==> !c.value.EditsLines()
      modifies db
      ensures db.Content() == AfterCommand(old(db.Content()), orderId, c, saved, now)
      ensures orderId !in old(db.orders) ==> r == NotFound(orderId)
      ensures orderId in old(db.orders) ==>
        r == Settled(Run(Loaded(orderId, old(db.orders)[orderId]), c, now), saved, errorPrefix, successMessage)
    {
      var o, aborted := Transact(orderId, c, saved, now);
      if o.None? {
        return NotFound(orderId);
      }
      if aborted.Some? {
        return Aborted(errorPrefix, aborted.value);
      }
      r := Success(successMessage);
    }

    /**
     * ConfirmOrderAsync: the order with its lines and events, ConfirmOrder, then the
     * events it appended are added and saved. There is no explicit transaction: an
     * exception from the aggregate comes before SaveChanges, and SaveChanges writes all
     * its rows or none, so a failure writes nothing.
     */
    method ConfirmOrder(orderId: Guids.Guid, eventId: Guids.Guid, saved: Option<string>, now: int) returns (r: OperationResult<()>)
      modifies db
      ensures db.Content() == AfterConfirm(old(db.Content()), orderId, eventId, saved, now)
      ensures orderId !in old(db.orders) ==> r == NotFound(orderId)
      ensures orderId in old(db.orders) ==>
        r == Settled(Confirm(Included(old(db.Content()), orderId), eventId, now), saved, ConfirmOrderError, ConfirmOrderSucceeded)
    {
      if orderId !in db.orders {
        return NotFound(orderId);
      }
      ghost var s := Included(db.Content(), orderId);
      var order := new Order.Load(Included(db.Content(), orderId));
      var tracked := |order.outboxEvents|;
      var thrown := order.ConfirmOrder(eventId, now);
      if thrown.Some? {
        return Failure(ConfirmOrderError, thrown.value);
      }
      ConfirmEventCarriesLines(s, eventId, now);
      var failure := SaveOutcome(FitsColumns(Stored(order.Snapshot())), saved);
      if failure.Some? {
        return Aborted(ConfirmOrderError, failure.value);
      }
      var newOutboxEvents := order.outboxEvents[tracked..];
      db.outbox := db.outbox + Owned(Some(orderId), newOutboxEvents);
      db.orders := db.orders[orderId := Stored(order.Snapshot())];
      r := Success(ConfirmOrderSucceeded);
    }
  }
}
