/**
 * The notification service's OutboxNotificationEvent: a row written with the
 * notification it announces and later marked processed, or failed with a
 * retry time that backs off by two minutes per failure.
 */
module NotificationOutbox {
  import opened Wrappers
  import opened Int32s
  import Guids

  const NotificationEvents: string := "notification-events"
  const SmsEventType: string := "notification.sms"
  const EmailEventType: string := "notification.email"
  const DefaultMaxRetries: Int32 := 3
  /** DateTime ticks (100 ns) in a minute. */
  const TicksPerMinute: int := 600_000_000

  /** The Data column: the SmsNotificationEvent or EmailNotificationEvent whose JSON text the row carries. */
  datatype NotificationEventData =
    | SmsNotificationEvent(notificationId: Guids.Guid, recipient: string, subject: string, content: string)
    | EmailNotificationEvent(notificationId: Guids.Guid, recipient: string, subject: string, content: string)

  /** One OutboxNotificationEvents row; times are DateTime ticks. */
  datatype OutboxNotificationRow = OutboxNotificationRow(
    id: Guids.Guid,
    eventType: string,
    data: NotificationEventData,
    exchangeName: string,
    occurredOn: int,
    processed: bool,
    processedAt: Option<int>,
    error: Option<string>,
    retryCount: Int32,
    maxRetries: Int32,
    nextTryAtUtc: Option<int>,
    createdAt: int,
    updatedAt: Option<int>)

  predicate CanRetry(r: OutboxNotificationRow)
  {
    r.retryCount < r.maxRetries
  }

  predicate HasExceededMaxRetries(r: OutboxNotificationRow)
  {
    r.retryCount >= r.maxRetries
  }

  /** `new OutboxNotificationEvent(type, data, exchangeName, maxRetries)` at time `now`, with `id` its Guid.NewGuid(). */
  function NewRow(id: Guids.Guid, eventType: string, data: NotificationEventData, exchangeName: string, now: int,
                  maxRetries: Int32 := DefaultMaxRetries): (r: OutboxNotificationRow)
    ensures !r.processed && r.retryCount == 0 && r.maxRetries == maxRetries && r.nextTryAtUtc == None && r.error == None
    ensures r.eventType == eventType && r.data == data && r.exchangeName == exchangeName && r.occurredOn == now
  {
    OutboxNotificationRow(id, eventType, data, exchangeName, now, false, None, None, 0, maxRetries, None, now, None)
  }

  /** The row after MarkAsProcessed at time `now`. */
  function Processed(r: OutboxNotificationRow, now: int): OutboxNotificationRow
  {
    r.(processed := true, processedAt := Some(now), error := None, updatedAt := Some(now))
  }

  /** The delay MarkAsFailed schedules after the `retryCount`-th failure: `2 * RetryCount` (an int product) times TicksPerMinute. */
  function BackoffTicks(retryCount: Int32): int
  {
    Wrap(2 * retryCount) * 600_000_000
  }

  /** The row after MarkAsFailed(error) at time `now`. */
  function Failed(r: OutboxNotificationRow, error: string, now: int): OutboxNotificationRow
  {
    var retryCount := Wrap(r.retryCount + 1);
    r.(error := Some(error), retryCount := retryCount, nextTryAtUtc := Some(now + BackoffTicks(retryCount)), updatedAt := Some(now))
  }

  /**
   * MarkAsFailed counts one more attempt, schedules the next try 2 × (new count)
   * minutes after `now`, and touches neither Processed nor the payload.
   */
  lemma FailedCountsOneAttempt(r: OutboxNotificationRow, error: string, now: int)
    requires 0 <= r.retryCount < MaxInt32 / 2
    ensures Failed(r, error, now).retryCount == r.retryCount + 1
    ensures Failed(r, error, now).nextTryAtUtc == Some(now + 2 * (r.retryCount + 1) * TicksPerMinute)
    ensures Failed(r, error, now).(retryCount := r.retryCount, error := r.error, nextTryAtUtc := r.nextTryAtUtc, updatedAt := r.updatedAt) == r
  {
  }

  /** Each further failure waits strictly longer than the one before it (while 2 × count fits in an int). */
  lemma BackoffStrictlyIncreases(r: OutboxNotificationRow, e1: string, t1: int, e2: string, t2: int)
    requires 0 <= r.retryCount && r.retryCount + 2 <= MaxInt32 / 2
    ensures var first := Failed(r, e1, t1);
      var second := Failed(first, e2, t2);
      0 < first.nextTryAtUtc.value - t1 < second.nextTryAtUtc.value - t2
  {
  }

  /** The tracked OutboxNotificationEvent entity. */
  class OutboxNotificationEvent {
    var id: Guids.Guid
    var eventType: string
    var data: NotificationEventData
    var exchangeName: string
    var occurredOn: int
    var processed: bool
    var processedAt: Option<int>
    var error: Option<string>
    var retryCount: Int32
    var maxRetries: Int32
    var nextTryAtUtc: Option<int>
    var createdAt: int
    var updatedAt: Option<int>

    function Row(): OutboxNotificationRow
      reads this
    {
      OutboxNotificationRow(id, eventType, data, exchangeName, occurredOn, processed, processedAt, error, retryCount, maxRetries,
                            nextTryAtUtc, createdAt, updatedAt)
    }

    constructor (id: Guids.Guid, eventType: string, data: NotificationEventData, exchangeName: string, now: int,
                 maxRetries: Int32 := DefaultMaxRetries)
      ensures Row() == NewRow(id, eventType, data, exchangeName, now, maxRetries)
    {
      this.id := id;
      this.eventType := eventType;
      this.data := data;
      this.exchangeName := exchangeName;
      occurredOn := now;
      processed := false;
      processedAt := None;
      error := None;
      retryCount := 0;
      this.maxRetries := maxRetries;
      nextTryAtUtc := None;
      createdAt := now;
      updatedAt := None;
    }

    /** The entity as EF materialises it from a row. */
    constructor Load(row: OutboxNotificationRow)
      ensures Row() == row
    {
      id := row.id;
      eventType := row.eventType;
      data := row.data;
      exchangeName := row.exchangeName;
      occurredOn := row.occurredOn;
      processed := row.processed;
      processedAt := row.processedAt;
      error := row.error;
      retryCount := row.retryCount;
      maxRetries := row.maxRetries;
      nextTryAtUtc := row.nextTryAtUtc;
      createdAt := row.createdAt;
      updatedAt := row.updatedAt;
    }

    method MarkAsProcessed(now: int)
      modifies this
      ensures Row() == Processed(old(Row()), now)
    {
      processed := true;
      processedAt := Some(now);
      error := None;
      updatedAt := Some(now);
    }

    method MarkAsFailed(error: string, now: int)
      modifies this
      ensures Row() == Failed(old(Row()), error, now)
    {
      this.error := Some(error);
      retryCount := Wrap(retryCount + 1);
      nextTryAtUtc := Some(now + BackoffTicks(retryCount));
      updatedAt := Some(now);
    }

    function CanRetryNow(): (b: bool)
      reads this
      ensures b <==> CanRetry(Row())
      ensures b <==> !HasExceededMaxRetries(Row())
    {
      retryCount < maxRetries
    }

    function HasExceededMaxRetriesNow(): (b: bool)
      reads this
      ensures b <==> HasExceededMaxRetries(Row())
      ensures b <==> !CanRetry(Row())
    {
      retryCount >= maxRetries
    }
  }
}
