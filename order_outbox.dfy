/**
 * The order service's OutboxEvent: one row of the OutboxEvents table, written
 * in the same transaction as the order change that produced it and later
 * marked processed or failed by the dispatcher.
 */
module OrderOutbox {
  import opened Wrappers
  import opened Int32s
  import Guids

  const StockEvents: string := "stock-events"
  const OrderEvents: string := "order-events"
  const StockReservationRequestedType: string := "StockReservationRequested"
  const OrderConfirmedType: string := "OrderConfirmed"
  const DefaultMaxRetries: Int32 := 3

  /** The anonymous `{ ProductId, Quantity }` item Order.RequestStockReservation serialises: the id stays a string. */
  datatype RequestedItem = RequestedItem(productId: string, quantity: Int32)

  /** Shared.Kernel's StockReservationRequestItem. */
  datatype StockReservationRequestItem = StockReservationRequestItem(productId: Guids.Guid, quantity: Int32)

  /** Shared.Kernel's OrderLineConfirmedEvent. */
  datatype OrderLineConfirmed = OrderLineConfirmed(productId: Guids.Guid, quantity: Int32)

  /** The Data column: the value whose JSON text the row carries. */
  datatype OutboxData =
    | ReservationRequestedByOrder(orderId: Guids.Guid, items: seq<RequestedItem>, occurredOn: int)
    | StockReservationRequestedEvent(orderId: Guids.Guid, requestItems: seq<StockReservationRequestItem>, requestedAt: int)
    | OrderConfirmedEvent(
        orderId: Guids.Guid, customerId: string, customerEmail: string, occurredOn: int, orderLines: seq<OrderLineConfirmed>)

  /** One OutboxEvents row; times are DateTime ticks. */
  datatype OutboxRow = OutboxRow(
    id: Guids.Guid,
    eventType: string,
    data: OutboxData,
    exchangeName: string,
    occurredOn: int,
    processed: bool,
    processedAt: Option<int>,
    error: Option<string>,
    retryCount: Int32,
    maxRetries: Int32,
    createdAt: int,
    updatedAt: Option<int>)

  predicate CanRetry(r: OutboxRow)
  {
    r.retryCount < r.maxRetries
  }

  predicate HasExceededMaxRetries(r: OutboxRow)
  {
    r.retryCount >= r.maxRetries
  }

  /** `new OutboxEvent(type, data, exchangeName, maxRetries)` at time `now`, with `id` its Guid.NewGuid(). */
  function NewRow(id: Guids.Guid, eventType: string, data: OutboxData, exchangeName: string, now: int, maxRetries: Int32 := DefaultMaxRetries): (r: OutboxRow)
    ensures !r.processed && r.retryCount == 0 && r.maxRetries == maxRetries && r.error == None
    ensures r.eventType == eventType && r.data == data && r.exchangeName == exchangeName && r.occurredOn == now
  {
    OutboxRow(id, eventType, data, exchangeName, now, false, None, None, 0, maxRetries, now, None)
  }

  /** The row after MarkAsProcessed at time `now`. */
  function Processed(r: OutboxRow, now: int): OutboxRow
  {
    r.(processed := true, processedAt := Some(now), error := None, updatedAt := Some(now))
  }

  /** The row after MarkAsFailed(error) at time `now`; `RetryCount++` is an unchecked int increment. */
  function Failed(r: OutboxRow, error: string, now: int): OutboxRow
  {
    r.(error := Some(error), retryCount := Wrap(r.retryCount + 1), updatedAt := Some(now))
  }

  /** MarkAsFailed counts exactly one more attempt (below int.MaxValue) and touches neither Processed nor the payload. */
  lemma FailedCountsOneAttempt(r: OutboxRow, error: string, now: int)
    requires r.retryCount < MaxInt32
    ensures Failed(r, error, now).retryCount == r.retryCount + 1
    ensures Failed(r, error, now).processed == r.processed && Failed(r, error, now).error == Some(error)
    ensures Failed(r, error, now).(retryCount := r.retryCount, error := r.error, updatedAt := r.updatedAt) == r
  {
  }

  /** The row after failing once for each message of `errors`, in order, at time `now`. */
  function FailedTimes(r: OutboxRow, errors: seq<string>, now: int): OutboxRow
    decreases |errors|
  {
    if errors == [] then r else FailedTimes(Failed(r, errors[0], now), errors[1..], now)
  }

  lemma {:induction false} FailedTimesCount(r: OutboxRow, errors: seq<string>, now: int)
    requires 0 <= r.retryCount && r.retryCount + |errors| <= MaxInt32
    ensures FailedTimes(r, errors, now).retryCount == r.retryCount + |errors|
    ensures FailedTimes(r, errors, now).maxRetries == r.maxRetries
    ensures FailedTimes(r, errors, now).processed == r.processed
    decreases |errors|
  {
    if errors != [] {
      FailedTimesCount(Failed(r, errors[0], now), errors[1..], now);
    }
  }

  /** A fresh event that fails MaxRetries times is exhausted: HasExceededMaxRetries, and CanRetry no longer. */
  lemma FreshEventExhausted(id: Guids.Guid, eventType: string, data: OutboxData, exchangeName: string, now: int,
                            maxRetries: Int32, errors: seq<string>)
    requires maxRetries >= 0 && |errors| == maxRetries
    ensures var r := FailedTimes(NewRow(id, eventType, data, exchangeName, now, maxRetries), errors, now);
      HasExceededMaxRetries(r) && !CanRetry(r) && !r.processed
  {
    FailedTimesCount(NewRow(id, eventType, data, exchangeName, now, maxRetries), errors, now);
  }

  /** The tracked OutboxEvent entity. */
  class OutboxEvent {
    var id: Guids.Guid
    var eventType: string
    var data: OutboxData
    var exchangeName: string
    var occurredOn: int
    var processed: bool
    var processedAt: Option<int>
    var error: Option<string>
    var retryCount: Int32
    var maxRetries: Int32
    var createdAt: int
    var updatedAt: Option<int>

    function Row(): OutboxRow
      reads this
    {
      OutboxRow(id, eventType, data, exchangeName, occurredOn, processed, processedAt, error, retryCount, maxRetries, createdAt, updatedAt)
    }

    constructor (id: Guids.Guid, eventType: string, data: OutboxData, exchangeName: string, now: int, maxRetries: Int32 := DefaultMaxRetries)
      ensures Row() == NewRow(id, eventType, data, exchangeName, now, maxRetries)
    {
      this.id := id;
      this.eventType := eventType;
      this.data := data;
      this.exchangeName := exchangeName;
      occurredOn := now;
      processed := false;
      processedAt := None;
      error := None;
      retryCount := 0;
      this.maxRetries := maxRetries;
      createdAt := now;
      updatedAt := None;
    }

    /** The entity as EF materialises it from a row. */
    constructor Load(row: OutboxRow)
      ensures Row() == row
    {
      id := row.id;
      eventType := row.eventType;
      data := row.data;
      exchangeName := row.exchangeName;
      occurredOn := row.occurredOn;
      processed := row.processed;
      processedAt := row.processedAt;
      error := row.error;
      retryCount := row.retryCount;
      maxRetries := row.maxRetries;
      createdAt := row.createdAt;
      updatedAt := row.updatedAt;
    }

    method MarkAsProcessed(now: int)
      modifies this
      ensures Row() == Processed(old(Row()), now)
    {
      processed := true;
      processedAt := Some(now);
      error := None;
      updatedAt := Some(now);
    }

    method MarkAsFailed(error: string, now: int)
      modifies this
      ensures Row() == Failed(old(Row()), error, now)
    {
      this.error := Some(error);
      retryCount := Wrap(retryCount + 1);
      updatedAt := Some(now);
    }

    function CanRetryNow(): (b: bool)
      reads this
      ensures b <==> CanRetry(Row())
      ensures b <==> !HasExceededMaxRetries(Row())
    {
      retryCount < maxRetries
    }

    function HasExceededMaxRetriesNow(): (b: bool)
      reads this
      ensures b <==> HasExceededMaxRetries(Row())
      ensures b <==> !CanRetry(Row())
    {
      retryCount >= maxRetries
    }
  }
}
