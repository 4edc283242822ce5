/**
 * One cycle of the order process's outbox dispatcher (OutboxService.ProcessOutboxEventsAsync):
 * read the oldest eligible rows, publish each through the publisher its exchange
 * name selects, mark it processed or failed, and save the marks in one transaction.
 *
 * The broker is an oracle: `outcomes[k]` is None when publishing the k-th batch row
 * returns and Some(message) when it throws with that message. `committed` says
 * whether SaveChanges and Commit went through; when they throw, the transaction
 * rolls back. Messages that reached the broker stay published either way.
 */
module OrderOutboxDispatcher {
  import opened Wrappers
  import opened Int32s
  import opened OrderOutbox
  import opened OutboxBatches
  import OrderService

  const UnknownExchange: string := "Unknown exchange name"

  /** A message handed to the broker: the publisher (named by its exchange), the event type and the payload. */
  datatype PublishedEvent = PublishedEvent(exchange: string, eventType: string, data: OutboxData)

  /** The exchanges that have a keyed publisher. */
  predicate Routable(exchangeName: string)
  {
    exchangeName == StockEvents || exchangeName == OrderEvents
  }

  /** What the batch query sees of each row of the table. */
  function Candidates(rows: seq<OrderService.OutboxRecord>): (c: seq<Candidate>)
    ensures |c| == |rows|
    ensures forall j | 0 <= j < |rows| ::
      c[j].eligible == (!rows[j].event.processed && CanRetry(rows[j].event)) && c[j].occurredOn == rows[j].event.occurredOn
  {
    seq(|rows|, j requires 0 <= j < |rows| => Candidate(!rows[j].event.processed && CanRetry(rows[j].event), rows[j].event.occurredOn))
  }

  /** A batch row after its turn in the loop. */
  function DispatchRow(r: OutboxRow, outcome: Option<string>, now: int): OutboxRow
  {
    if !Routable(r.exchangeName) then Failed(r, UnknownExchange, now)
    else match outcome
      case None => Processed(r, now)
      case Some(message) => Failed(r, message, now)
  }

  /** Each batch record as its turn in the loop leaves it. */
  function Marks(rows: seq<OrderService.OutboxRecord>, batch: seq<nat>, outcomes: seq<Option<string>>, now: int)
    : (m: seq<OrderService.OutboxRecord>)
    requires |outcomes| == |batch|
    requires forall k | 0 <= k < |batch| :: batch[k] < |rows|
    ensures |m| == |batch|
  {
    seq(|batch|, k requires 0 <= k < |batch| => rows[batch[k]].(event := DispatchRow(rows[batch[k]].event, outcomes[k], now)))
  }

  /** The table once the rows of the batch have had their turn, as the loop leaves it. */
  function Dispatched(rows: seq<OrderService.OutboxRecord>, batch: seq<nat>, outcomes: seq<Option<string>>, now: int)
    : (r: seq<OrderService.OutboxRecord>)
    requires |outcomes| == |batch|
    requires forall k | 0 <= k < |batch| :: batch[k] < |rows|
    ensures |r| == |rows|
  {
    Overwritten(rows, batch, Marks(rows, batch, outcomes, now))
  }

  /** The messages the cycle hands to the broker, in batch order. */
  function Publications(rows: seq<OrderService.OutboxRecord>, batch: seq<nat>, outcomes: seq<Option<string>>)
    : (p: seq<PublishedEvent>)
    requires |outcomes| == |batch|
    requires forall k | 0 <= k < |batch| :: batch[k] < |rows|
    ensures |p| <= |batch|
    ensures forall i | 0 <= i < |p| :: Routable(p[i].exchange)
    decreases |batch|
  {
    if batch == [] then []
    else
      var n := |batch| - 1;
      var r := rows[batch[n]].event;
      Publications(rows, batch[..n], outcomes[..n])
        + (if Routable(r.exchangeName) && outcomes[n].None? then [PublishedEvent(r.exchangeName, r.eventType, r.data)] else [])
  }

  /** One more turn of the loop leaves the next batch row dispatched with its outcome. */
  lemma {:induction false} DispatchStep(rows: seq<OrderService.OutboxRecord>, batch: seq<nat>, outcomes: seq<Option<string>>, now: int, i: nat)
    requires |outcomes| == |batch| && i < |batch|
    requires forall k | 0 <= k < |batch| :: batch[k] < |rows|
    ensures Dispatched(rows, batch[..i + 1], outcomes[..i + 1], now)
         == Dispatched(rows, batch[..i], outcomes[..i], now)[batch[i] := rows[batch[i]].(event := DispatchRow(rows[batch[i]].event, outcomes[i], now))]
  {
    var marks, prefix := Marks(rows, batch[..i + 1], outcomes[..i + 1], now), Marks(rows, batch[..i], outcomes[..i], now);
    forall k | 0 <= k < i
      ensures marks[k] == prefix[k]
    {
      assert batch[..i + 1][k] == batch[..i][k] && outcomes[..i + 1][k] == outcomes[..i][k];
    }
    assert marks[..i] == prefix;
    assert marks[i] == rows[batch[i]].(event := DispatchRow(rows[batch[i]].event, outcomes[i], now));
    assert batch[..i + 1][..i] == batch[..i];
    assert Overwritten(rows, batch[..i + 1], marks) == Overwritten(rows, batch[..i], prefix)[batch[i] := marks[i]];
  }

  /** One more turn of the loop publishes the next batch row if it went out. */
  lemma {:induction false} PublishStep(rows: seq<OrderService.OutboxRecord>, batch: seq<nat>, outcomes: seq<Option<string>>, i: nat)
    requires |outcomes| == |batch| && i < |batch|
    requires forall k | 0 <= k < |batch| :: batch[k] < |rows|
    ensures var r := rows[batch[i]].event;
      Publications(rows, batch[..i + 1], outcomes[..i + 1])
        == Publications(rows, batch[..i], outcomes[..i])
           + (if Routable(r.exchangeName) && outcomes[i].None? then [PublishedEvent(r.exchangeName, r.eventType, r.data)] else [])
  {
    assert batch[..i + 1][..i] == batch[..i] && outcomes[..i + 1][..i] == outcomes[..i];
    assert batch[..i + 1][i] == batch[i] && outcomes[..i + 1][i] == outcomes[i];
  }

  /** With distinct positions, each batch row ends up dispatched with its own outcome, and no other row changes. */
  lemma DispatchedEffect(rows: seq<OrderService.OutboxRecord>, batch: seq<nat>, outcomes: seq<Option<string>>, now: int)
    requires |outcomes| == |batch|
    requires forall k | 0 <= k < |batch| :: batch[k] < |rows|
    requires forall k, m | 0 <= k < m < |batch| :: batch[k] != batch[m]
    ensures forall k | 0 <= k < |batch| ::
      Dispatched(rows, batch, outcomes, now)[batch[k]] == rows[batch[k]].(event := DispatchRow(rows[batch[k]].event, outcomes[k], now))
    ensures forall j | 0 <= j < |rows| && j !in batch :: Dispatched(rows, batch, outcomes, now)[j] == rows[j]
  {
    OverwrittenEffect(rows, batch, Marks(rows, batch, outcomes, now));
  }

  /**
   * After a committed cycle every batch row is either processed or carries exactly
   * one more attempt, and keeps its payload, owner and limits; a row published
   * successfully is processed, and a row whose exchange has no publisher records
   * "Unknown exchange name".
   */
  lemma CommittedCycleOutcome(rows: seq<OrderService.OutboxRecord>, batch: seq<nat>, outcomes: seq<Option<string>>, now: int)
    requires IsOldestBatch(Candidates(rows), batch) && |outcomes| == |batch|
    ensures forall k | 0 <= k < |batch| ::
      var before := rows[batch[k]];
      var after := Dispatched(rows, batch, outcomes, now)[batch[k]];
      && after.orderId == before.orderId
      && after.event.(processed := false, processedAt := None, error := None, retryCount := 0, updatedAt := None)
         == before.event.(processed := false, processedAt := None, error := None, retryCount := 0, updatedAt := None)
      && (after.event.processed <==> Routable(before.event.exchangeName) && outcomes[k].None?)
      && (!after.event.processed ==> after.event.retryCount == before.event.retryCount + 1)
      && (!Routable(before.event.exchangeName) ==> after.event.error == Some(UnknownExchange))
    ensures forall j | 0 <= j < |rows| && j !in batch :: Dispatched(rows, batch, outcomes, now)[j] == rows[j]
  {
    DispatchedEffect(rows, batch, outcomes, now);
  }

  /**
   * A row whose exchange has no publisher is never published; it stays eligible for
   * the next cycle exactly while its incremented RetryCount is below MaxRetries.
   */
  lemma UnknownExchangeRetriedUntilLimit(rows: seq<OrderService.OutboxRecord>, batch: seq<nat>, outcomes: seq<Option<string>>, now: int, k: nat)
    requires IsOldestBatch(Candidates(rows), batch) && |outcomes| == |batch|
    requires k < |batch| && !Routable(rows[batch[k]].event.exchangeName)
    ensures var after := Dispatched(rows, batch, outcomes, now);
      Candidates(after)[batch[k]].eligible <==> rows[batch[k]].event.retryCount + 1 < rows[batch[k]].event.maxRetries
    ensures forall i | 0 <= i < |Publications(rows, batch, outcomes)| ::
      Publications(rows, batch, outcomes)[i].exchange != rows[batch[k]].event.exchangeName
  {
    DispatchedEffect(rows, batch, outcomes, now);
  }

  /** When no row is eligible the batch is empty: no row changes and nothing is published. */
  lemma EmptyBatchChangesNothing(rows: seq<OrderService.OutboxRecord>, batch: seq<nat>, outcomes: seq<Option<string>>, now: int)
    requires IsOldestBatch(Candidates(rows), batch) && |outcomes| == |batch|
    requires forall j | 0 <= j < |rows| :: rows[j].event.processed || !CanRetry(rows[j].event)
    ensures Dispatched(rows, batch, outcomes, now) == rows
    ensures Publications(rows, batch, outcomes) == []
  {
    EmptyBatchMeansNothingEligible(Candidates(rows), batch);
  }

  /** When the broker accepts everything and every exchange is routable, every batch row is published once, in batch order. */
  lemma {:induction false} BrokerUpPublishesBatch(rows: seq<OrderService.OutboxRecord>, batch: seq<nat>, outcomes: seq<Option<string>>)
    requires |outcomes| == |batch|
    requires forall k | 0 <= k < |batch| :: batch[k] < |rows|
    requires forall k | 0 <= k < |batch| :: outcomes[k].None? && Routable(rows[batch[k]].event.exchangeName)
    ensures Publications(rows, batch, outcomes) ==
      seq(|batch|, k requires 0 <= k < |batch| =>
        PublishedEvent(rows[batch[k]].event.exchangeName, rows[batch[k]].event.eventType, rows[batch[k]].event.data))
    decreases |batch|
  {
    if batch != [] {
      var n := |batch| - 1;
      BrokerUpPublishesBatch(rows, batch[..n], outcomes[..n]);
    }
  }

  /** The background service of the order process, publishing through the broker log `published`. */
  class OutboxService {
    const db: OrderService.OrderDatabase
    var published: seq<PublishedEvent>

    constructor (db: OrderService.OrderDatabase)
      ensures this.db == db && published == []
    {
      this.db := db;
      published := [];
    }

    /**
     * The body of the loop for one row: publish it through its exchange's publisher
     * unless that is unknown, then mark the tracked entity processed or failed.
     */
    method PublishAndMark(row: OutboxRow, outcome: Option<string>, now: int) returns (marked: OutboxRow)
      modifies this
      ensures marked == DispatchRow(row, outcome, now)
      ensures published == old(published)
        + (if Routable(row.exchangeName) && outcome.None? then [PublishedEvent(row.exchangeName, row.eventType, row.data)] else [])
    {
      var outboxEvent := new OutboxEvent.Load(row);
      if Routable(outboxEvent.exchangeName) {
        match outcome
        case None =>
          published := published + [PublishedEvent(outboxEvent.exchangeName, outboxEvent.eventType, outboxEvent.data)];
          outboxEvent.MarkAsProcessed(now);
        case Some(message) =>
          outboxEvent.MarkAsFailed(message, now);
      } else {
        outboxEvent.MarkAsFailed(UnknownExchange, now);
      }
      marked := outboxEvent.Row();
    }

    /** The loop over the batch: the table as the marks leave it, which is saved only on commit. */
    method DispatchBatch(batch: seq<nat>, outcomes: seq<Option<string>>, now: int) returns (rows: seq<OrderService.OutboxRecord>)
      requires |outcomes| == |batch| && forall k | 0 <= k < |batch| :: batch[k] < |db.outbox|
      modifies this
      ensures rows == Dispatched(db.outbox, batch, outcomes, now)
      ensures published == old(published) + Publications(db.outbox, batch, outcomes)
    {
      rows := db.outbox;
      var i := 0;
      while i < |batch|
        invariant 0 <= i <= |batch|
        invariant rows == Dispatched(db.outbox, batch[..i], outcomes[..i], now)
        invariant published == old(published) + Publications(db.outbox, batch[..i], outcomes[..i])
      {
        DispatchStep(db.outbox, batch, outcomes, now, i);
        PublishStep(db.outbox, batch, outcomes, i);
        var record := db.outbox[batch[i]];
        var marked := PublishAndMark(record.event, outcomes[i], now);
        rows := rows[batch[i] := record.(event := marked)];
        i := i + 1;
      }
      assert batch[..i] == batch && outcomes[..i] == outcomes;
    }

    /**
     * ProcessOutboxEventsAsync: `batch` is the answer the database gives to the batch
     * query. The orders and lines are untouched; the outbox table becomes the
     * dispatched table when the cycle commits and stays as it was when it rolls back.
     */
    method ProcessOutboxEvents(batch: seq<nat>, outcomes: seq<Option<string>>, committed: bool, now: int)
      requires IsOldestBatch(Candidates(db.outbox), batch) && |outcomes| == |batch|
      modifies this, db
      ensures db.orders == old(db.orders) && db.lines == old(db.lines)
      ensures db.outbox == if committed then Dispatched(old(db.outbox), batch, outcomes, now) else old(db.outbox)
      ensures published == old(published) + Publications(old(db.outbox), batch, outcomes)
    {
      if batch == [] {
        return;
      }
      var rows := DispatchBatch(batch, outcomes, now);
      if committed {
        db.outbox := rows;
      }
    }
  }
}
