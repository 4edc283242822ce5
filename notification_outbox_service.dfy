/**
 * One cycle of the notification process's outbox dispatcher
 * (OutboxNotificationService.ProcessOutboxEventsAsync): the same batch, marking
 * and transaction as the order dispatcher, with a single routable exchange,
 * "notification-events", and the event type as routing key. NextTryAtUtc, which
 * MarkAsFailed sets, plays no part in choosing the batch.
 *
 * `outcomes[k]` is None when publishing the k-th batch row returns and
 * Some(message) when it throws; `committed` says whether SaveChanges and Commit
 * went through.
 */
module NotificationOutboxDispatcher {
  import opened Wrappers
  import opened Int32s
  import opened NotificationOutbox
  import opened OutboxBatches
  import NotificationPersistence

  const UnknownExchange: string := "Unknown exchange name"

  /** A message handed to the broker. */
  datatype PublishedEvent = PublishedEvent(exchange: string, eventType: string, data: NotificationEventData, routingKey: string)

  predicate Routable(exchangeName: string)
  {
    exchangeName == NotificationEvents
  }

  /** What the batch query sees of each row: NextTryAtUtc is not among it. */
  function Candidates(rows: seq<OutboxNotificationRow>): (c: seq<Candidate>)
    ensures |c| == |rows|
    ensures forall j | 0 <= j < |rows| ::
      c[j].eligible == (!rows[j].processed && CanRetry(rows[j])) && c[j].occurredOn == rows[j].occurredOn
  {
    seq(|rows|, j requires 0 <= j < |rows| => Candidate(!rows[j].processed && CanRetry(rows[j]), rows[j].occurredOn))
  }

  /** A batch row after its turn in the loop. */
  function DispatchRow(r: OutboxNotificationRow, outcome: Option<string>, now: int): OutboxNotificationRow
  {
    if !Routable(r.exchangeName) then Failed(r, UnknownExchange, now)
    else match outcome
      case None => Processed(r, now)
      case Some(message) => Failed(r, message, now)
  }

  /** Each batch row as its turn in the loop leaves it. */
  function Marks(rows: seq<OutboxNotificationRow>, batch: seq<nat>, outcomes: seq<Option<string>>, now: int)
    : (m: seq<OutboxNotificationRow>)
    requires |outcomes| == |batch|
    requires forall k | 0 <= k < |batch| :: batch[k] < |rows|
    ensures |m| == |batch|
  {
    seq(|batch|, k requires 0 <= k < |batch| => DispatchRow(rows[batch[k]], outcomes[k], now))
  }

  /** The table once the rows of the batch have had their turn. */
  function Dispatched(rows: seq<OutboxNotificationRow>, batch: seq<nat>, outcomes: seq<Option<string>>, now: int)
    : (r: seq<OutboxNotificationRow>)
    requires |outcomes| == |batch|
    requires forall k | 0 <= k < |batch| :: batch[k] < |rows|
    ensures |r| == |rows|
  {
    Overwritten(rows, batch, Marks(rows, batch, outcomes, now))
  }

  /** The messages the cycle hands to the broker, in batch order. */
  function Publications(rows: seq<OutboxNotificationRow>, batch: seq<nat>, outcomes: seq<Option<string>>)
    : (p: seq<PublishedEvent>)
    requires |outcomes| == |batch|
    requires forall k | 0 <= k < |batch| :: batch[k] < |rows|
    ensures |p| <= |batch|
    ensures forall i | 0 <= i < |p| :: p[i].exchange == NotificationEvents && p[i].routingKey == p[i].eventType
    decreases |batch|
  {
    if batch == [] then []
    else
      var n := |batch| - 1;
      var r := rows[batch[n]];
      Publications(rows, batch[..n], outcomes[..n])
        + (if Routable(r.exchangeName) && outcomes[n].None? then [PublishedEvent(r.exchangeName, r.eventType, r.data, r.eventType)] else [])
  }

  /** One more turn of the loop leaves the next batch row dispatched with its outcome. */
  lemma {:induction false} DispatchStep(rows: seq<OutboxNotificationRow>, batch: seq<nat>, outcomes: seq<Option<string>>, now: int, i: nat)
    requires |outcomes| == |batch| && i < |batch|
    requires forall k | 0 <= k < |batch| :: batch[k] < |rows|
    ensures Dispatched(rows, batch[..i + 1], outcomes[..i + 1], now)
         == Dispatched(rows, batch[..i], outcomes[..i], now)[batch[i] := DispatchRow(rows[batch[i]], outcomes[i], now)]
  {
    var marks, prefix := Marks(rows, batch[..i + 1], outcomes[..i + 1], now), Marks(rows, batch[..i], outcomes[..i], now);
    forall k | 0 <= k < i
      ensures marks[k] == prefix[k]
    {
      assert batch[..i + 1][k] == batch[..i][k] && outcomes[..i + 1][k] == outcomes[..i][k];
    }
    assert marks[..i] == prefix;
    assert marks[i] == DispatchRow(rows[batch[i]], outcomes[i], now);
    assert batch[..i + 1][..i] == batch[..i];
    assert Overwritten(rows, batch[..i + 1], marks) == Overwritten(rows, batch[..i], prefix)[batch[i] := marks[i]];
  }

  /** One more turn of the loop publishes the next batch row if it went out. */
  lemma {:induction false} PublishStep(rows: seq<OutboxNotificationRow>, batch: seq<nat>, outcomes: seq<Option<string>>, i: nat)
    requires |outcomes| == |batch| && i < |batch|
    requires forall k | 0 <= k < |batch| :: batch[k] < |rows|
    ensures var r := rows[batch[i]];
      Publications(rows, batch[..i + 1], outcomes[..i + 1])
        == Publications(rows, batch[..i], outcomes[..i])
           + (if Routable(r.exchangeName) && outcomes[i].None? then [PublishedEvent(r.exchangeName, r.eventType, r.data, r.eventType)] else [])
  {
    assert batch[..i + 1][..i] == batch[..i] && outcomes[..i + 1][..i] == outcomes[..i];
    assert batch[..i + 1][i] == batch[i] && outcomes[..i + 1][i] == outcomes[i];
  }

  /** With distinct positions, each batch row ends up dispatched with its own outcome, and no other row changes. */
  lemma DispatchedEffect(rows: seq<OutboxNotificationRow>, batch: seq<nat>, outcomes: seq<Option<string>>, now: int)
    requires |outcomes| == |batch|
    requires forall k | 0 <= k < |batch| :: batch[k] < |rows|
    requires forall k, m | 0 <= k < m < |batch| :: batch[k] != batch[m]
    ensures forall k | 0 <= k < |batch| :: Dispatched(rows, batch, outcomes, now)[batch[k]] == DispatchRow(rows[batch[k]], outcomes[k], now)
    ensures forall j | 0 <= j < |rows| && j !in batch :: Dispatched(rows, batch, outcomes, now)[j] == rows[j]
  {
    OverwrittenEffect(rows, batch, Marks(rows, batch, outcomes, now));
  }

  /** One eligible row's turn: processed, or one more attempt with the next try scheduled. */
  lemma DispatchRowOutcome(before: OutboxNotificationRow, outcome: Option<string>, now: int)
    requires !before.processed && CanRetry(before)
    ensures var after := DispatchRow(before, outcome, now);
      && after.(processed := false, processedAt := None, error := None, retryCount := 0, nextTryAtUtc := None, updatedAt := None)
         == before.(processed := false, processedAt := None, error := None, retryCount := 0, nextTryAtUtc := None, updatedAt := None)
      && (after.processed <==> Routable(before.exchangeName) && outcome.None?)
      && (!after.processed ==> after.retryCount == before.retryCount + 1
                               && after.nextTryAtUtc == Some(now + BackoffTicks(before.retryCount + 1)))
      && (!Routable(before.exchangeName) ==> after.error == Some(UnknownExchange))
  {
  }

  /**
   * After a committed cycle every batch row is either processed or carries exactly
   * one more attempt with its next try 2 × (new count) minutes after the cycle,
   * and keeps its payload; rows outside the batch are unchanged.
   */
  lemma CommittedCycleOutcome(rows: seq<OutboxNotificationRow>, batch: seq<nat>, outcomes: seq<Option<string>>, now: int)
    requires IsOldestBatch(Candidates(rows), batch) && |outcomes| == |batch|
    ensures forall k | 0 <= k < |batch| ::
      var before := rows[batch[k]];
      var after := Dispatched(rows, batch, outcomes, now)[batch[k]];
      && after.(processed := false, processedAt := None, error := None, retryCount := 0, nextTryAtUtc := None, updatedAt := None)
         == before.(processed := false, processedAt := None, error := None, retryCount := 0, nextTryAtUtc := None, updatedAt := None)
      && (after.processed <==> Routable(before.exchangeName) && outcomes[k].None?)
      && (!after.processed ==> after.retryCount == before.retryCount + 1
                               && after.nextTryAtUtc == Some(now + BackoffTicks(before.retryCount + 1)))
      && (!Routable(before.exchangeName) ==> after.error == Some(UnknownExchange))
    ensures forall j | 0 <= j < |rows| && j !in batch :: Dispatched(rows, batch, outcomes, now)[j] == rows[j]
  {
    DispatchedEffect(rows, batch, outcomes, now);
    forall k | 0 <= k < |batch|
      ensures var before := rows[batch[k]];
        var after := Dispatched(rows, batch, outcomes, now)[batch[k]];
        && after.(processed := false, processedAt := None, error := None, retryCount := 0, nextTryAtUtc := None, updatedAt := None)
           == before.(processed := false, processedAt := None, error := None, retryCount := 0, nextTryAtUtc := None, updatedAt := None)
        && (after.processed <==> Routable(before.exchangeName) && outcomes[k].None?)
        && (!after.processed ==> after.retryCount == before.retryCount + 1
                                 && after.nextTryAtUtc == Some(now + BackoffTicks(before.retryCount + 1)))
        && (!Routable(before.exchangeName) ==> after.error == Some(UnknownExchange))
    {
      var before := rows[batch[k]];
      assert Dispatched(rows, batch, outcomes, now)[batch[k]] == DispatchRow(before, outcomes[k], now);
      DispatchRowOutcome(before, outcomes[k], now);
    }
  }

  /**
   * The batch ignores NextTryAtUtc: two tables that differ only in it yield the
   * same candidates, so a row whose next try lies in the future is picked all the same.
   */
  lemma BatchIgnoresNextTry(rows: seq<OutboxNotificationRow>, times: seq<Option<int>>)
    requires |times| == |rows|
    ensures Candidates(seq(|rows|, j requires 0 <= j < |rows| => rows[j].(nextTryAtUtc := times[j]))) == Candidates(rows)
  {
  }

  /** A row on any other exchange is never published and stays eligible exactly while its incremented count is below MaxRetries. */
  lemma UnknownExchangeRetriedUntilLimit(rows: seq<OutboxNotificationRow>, batch: seq<nat>, outcomes: seq<Option<string>>, now: int, k: nat)
    requires IsOldestBatch(Candidates(rows), batch) && |outcomes| == |batch|
    requires k < |batch| && !Routable(rows[batch[k]].exchangeName)
    ensures Candidates(Dispatched(rows, batch, outcomes, now))[batch[k]].eligible <==> rows[batch[k]].retryCount + 1 < rows[batch[k]].maxRetries
    ensures forall i | 0 <= i < |Publications(rows, batch, outcomes)| ::
      Publications(rows, batch, outcomes)[i].exchange != rows[batch[k]].exchangeName
  {
    DispatchedEffect(rows, batch, outcomes, now);
  }

  /** When no row is eligible the batch is empty: no row changes and nothing is published. */
  lemma EmptyBatchChangesNothing(rows: seq<OutboxNotificationRow>, batch: seq<nat>, outcomes: seq<Option<string>>, now: int)
    requires IsOldestBatch(Candidates(rows), batch) && |outcomes| == |batch|
    requires forall j | 0 <= j < |rows| :: rows[j].processed || !CanRetry(rows[j])
    ensures Dispatched(rows, batch, outcomes, now) == rows
    ensures Publications(rows, batch, outcomes) == []
  {
    EmptyBatchMeansNothingEligible(Candidates(rows), batch);
  }

  /** The background service of the notification process, publishing through the broker log `published`. */
  class OutboxNotificationService {
    const db: NotificationPersistence.NotificationDatabase
    var published: seq<PublishedEvent>

    constructor (db: NotificationPersistence.NotificationDatabase)
      ensures this.db == db && published == []
    {
      this.db := db;
      published := [];
    }

    /**
     * The body of the loop for one row: publish it with its event type as routing key
     * unless its exchange is unknown, then mark the tracked entity processed or failed.
     */
    method PublishAndMark(row: OutboxNotificationRow, outcome: Option<string>, now: int) returns (marked: OutboxNotificationRow)
      modifies this
      ensures marked == DispatchRow(row, outcome, now)
      ensures published == old(published)
        + (if Routable(row.exchangeName) && outcome.None? then [PublishedEvent(row.exchangeName, row.eventType, row.data, row.eventType)] else [])
    {
      var outboxEvent := new OutboxNotificationEvent.Load(row);
      if Routable(outboxEvent.exchangeName) {
        match outcome
        case None =>
          published := published + [PublishedEvent(outboxEvent.exchangeName, outboxEvent.eventType, outboxEvent.data, outboxEvent.eventType)];
          outboxEvent.MarkAsProcessed(now);
        case Some(message) =>
          outboxEvent.MarkAsFailed(message, now);
      } else {
        outboxEvent.MarkAsFailed(UnknownExchange, now);
      }
      marked := outboxEvent.Row();
    }

    /** The loop over the batch: the table as the marks leave it, which is saved only on commit. */
    method DispatchBatch(batch: seq<nat>, outcomes: seq<Option<string>>, now: int) returns (rows: seq<OutboxNotificationRow>)
      requires |outcomes| == |batch| && forall k | 0 <= k < |batch| :: batch[k] < |db.outbox|
      modifies this
      ensures rows == Dispatched(db.outbox, batch, outcomes, now)
      ensures published == old(published) + Publications(db.outbox, batch, outcomes)
    {
      rows := db.outbox;
      var i := 0;
      while i < |batch|
        invariant 0 <= i <= |batch|
        invariant rows == Dispatched(db.outbox, batch[..i], outcomes[..i], now)
        invariant published == old(published) + Publications(db.outbox, batch[..i], outcomes[..i])
      {
        DispatchStep(db.outbox, batch, outcomes, now, i);
        PublishStep(db.outbox, batch, outcomes, i);
        var marked := PublishAndMark(db.outbox[batch[i]], outcomes[i], now);
        rows := rows[batch[i] := marked];
        i := i + 1;
      }
      assert batch[..i] == batch && outcomes[..i] == outcomes;
    }

    /** ProcessOutboxEventsAsync; `batch` is the answer the database gives to the batch query. */
    method ProcessOutboxEvents(batch: seq<nat>, outcomes: seq<Option<string>>, committed: bool, now: int)
      requires IsOldestBatch(Candidates(db.outbox), batch) && |outcomes| == |batch|
      modifies this, db
      ensures db.notifications == old(db.notifications)
      ensures db.outbox == if committed then Dispatched(old(db.outbox), batch, outcomes, now) else old(db.outbox)
      ensures published == old(published) + Publications(old(db.outbox), batch, outcomes)
    {
      if batch == [] {
        return;
      }
      var rows := DispatchBatch(batch, outcomes, now);
      if committed {
        db.outbox := rows;
      }
    }
  }
}
