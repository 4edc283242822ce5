/**
 * The order service's saga step: its StockEventHandler. A StockReserved reply
 * first moves the order to StockReserved and, only if that succeeded, confirms
 * it; a StockReservationFailed reply records the failure and its reason. A
 * message whose envelope or payload does not deserialise is dropped.
 */
module OrderSaga {
  import opened Wrappers
  import opened Int32s
  import opened OperationResults
  import opened OrderOutbox
  import opened OrderDomain
  import opened OrderService
  import StockSaga
  import StockService
  import Guids

  /**
   * The EventWrapper envelope as deserialised. `data` is None when the Data property is
   * null, Some(None) when its text deserialises to null, and Some(Some(p)) otherwise.
   */
  datatype EventWrapper<T> = EventWrapper(id: Guids.Guid, eventType: string, data: Option<Option<T>>, timestamp: int)

  datatype StockReservedItem = StockReservedItem(productId: string, quantity: Int32, reservedQuantity: Int32)

  datatype StockReservedEvent = StockReservedEvent(orderId: Guids.Guid, items: seq<StockReservedItem>, occurredOn: int)

  datatype StockReservationFailedItem = StockReservationFailedItem(
    productId: string, quantity: Int32, isSuccess: bool, failureReason: Option<string>)

  datatype StockReservationFailedEvent = StockReservationFailedEvent(
    orderId: Guids.Guid, reason: string, items: seq<StockReservationFailedItem>, occurredOn: int)

  /** The payload the handler goes on with: None when the envelope, its Data or the payload is null. */
  function Unwrap<T>(message: Option<EventWrapper<T>>): (p: Option<T>)
    ensures p.Some? <==> message.Some? && message.value.data.Some? && message.value.data.value.Some?
    ensures p.Some? ==> p.value == message.value.data.value.value
  {
    if message.Some? && message.value.data.Some? then message.value.data.value else None
  }

  /** The order is stored and awaits its reservation: the state both replies act on. */
  predicate Awaiting(t: Tables, orderId: Guids.Guid)
  {
    orderId in t.orders && t.orders[orderId].status == AwaitingStockReservation
  }

  /** ConfirmStockReservationAsync succeeds exactly for a stored order awaiting its reservation whose save goes through. */
  predicate ReservationConfirmed(t: Tables, orderId: Guids.Guid, saved: Option<string>)
  {
    Awaiting(t, orderId) && FitsColumns(t.orders[orderId]) && saved.None?
  }

  /**
   * The tables after HandleStockReservedAsync: ConfirmStockReservationAsync, then ConfirmOrderAsync
   * if it succeeded. `reserveSaved` and `confirmSaved` are the outcomes of the two saves.
   */
  function AfterReserved(t: Tables, message: Option<EventWrapper<StockReservedEvent>>, eventId: Guids.Guid,
                         reserveSaved: Option<string>, confirmSaved: Option<string>, now: int): Tables
  {
    match Unwrap(message)
    case None => t
    case Some(e) =>
      var t1 := AfterCommand(t, e.orderId, Some(MarkStockReserved), reserveSaved, now);
      if ReservationConfirmed(t, e.orderId, reserveSaved) then AfterConfirm(t1, e.orderId, eventId, confirmSaved, now) else t1
  }

  /** The tables after HandleStockReservationFailedAsync: FailStockReservationAsync with the payload's Reason. */
  function AfterReservationFailed(t: Tables, message: Option<EventWrapper<StockReservationFailedEvent>>,
                                  saved: Option<string>, now: int): Tables
  {
    match Unwrap(message)
    case None => t
    case Some(e) => AfterCommand(t, e.orderId, Some(MarkStockReservationFailed(e.reason)), saved, now)
  }

  /**
   * From AwaitingStockReservation, a StockReserved reply for an order whose stored lines
   * exist and name Guids ends, when both saves go through, with the order Confirmed and
   * exactly one new OrderConfirmed row on "order-events"; when the second save fails the
   * order stays StockReserved.
   */
  lemma ReservedReplyConfirmsOrder(t: Tables, e: StockReservedEvent, wrapperId: Guids.Guid, timestamp: int,
                                   eventId: Guids.Guid, reserveSaved: Option<string>, confirmSaved: Option<string>, now: int)
    requires ReservationConfirmed(t, e.orderId, reserveSaved)
    requires |LinesOf(t.lines, e.orderId)| > 0
    requires forall l | l in LinesOf(t.lines, e.orderId) :: Guids.Parse(l.productId).Some?
    ensures var t' := AfterReserved(t, Some(EventWrapper(wrapperId, "StockReserved", Some(Some(e)), timestamp)),
                                    eventId, reserveSaved, confirmSaved, now);
      && e.orderId in t'.orders && t'.lines == t.lines
      && (confirmSaved.Some? ==> t'.orders[e.orderId].status == StockReserved && t'.outbox == t.outbox)
      && (confirmSaved.None? ==>
            && t'.orders[e.orderId].status == Confirmed
            && |t'.outbox| == |t.outbox| + 1 && t'.outbox[..|t.outbox|] == t.outbox
            && t'.outbox[|t.outbox|].orderId == Some(e.orderId)
            && t'.outbox[|t.outbox|].event.eventType == OrderConfirmedType
            && t'.outbox[|t.outbox|].event.exchangeName == OrderEvents)
  {
    var t1 := AfterCommand(t, e.orderId, Some(MarkStockReserved), reserveSaved, now);
    ConfirmReservationMeaning(t, e.orderId, reserveSaved, now);
    assert t1.lines == t.lines && FitsColumns(t1.orders[e.orderId]);
    ConfirmOrderAppendsConfirmation(t1, e.orderId, eventId, confirmSaved, now);
  }

  /**
   * A StockReserved reply whose reservation does not commit changes nothing, and
   * ConfirmOrderAsync is not reached: the order no longer awaits its reservation (a
   * redelivery, or a reply after a failure or a cancellation), or the save failed.
   */
  lemma UnconfirmedReservedReplyChangesNothing(t: Tables, message: Option<EventWrapper<StockReservedEvent>>,
                                               eventId: Guids.Guid, reserveSaved: Option<string>, confirmSaved: Option<string>, now: int)
    requires Unwrap(message).Some? && !ReservationConfirmed(t, Unwrap(message).value.orderId, reserveSaved)
    ensures AfterReserved(t, message, eventId, reserveSaved, confirmSaved, now) == t
  {
    var id := Unwrap(message).value.orderId;
    if id in t.orders {
      ConfirmReservationMeaning(t, id, reserveSaved, now);
    }
  }

  /**
   * Once a StockReserved reply has been handled and its reservation committed (or the
   * order no longer awaited it), handling the same reply again changes nothing.
   */
  lemma ReservedReplyIdempotent(t: Tables, message: Option<EventWrapper<StockReservedEvent>>, eventId: Guids.Guid,
                                reserveSaved: Option<string>, confirmSaved: Option<string>, now: int,
                                laterEventId: Guids.Guid, laterReserveSaved: Option<string>, laterConfirmSaved: Option<string>, later: int)
    requires Unwrap(message).Some? ==>
      ReservationConfirmed(t, Unwrap(message).value.orderId, reserveSaved) || !Awaiting(t, Unwrap(message).value.orderId)
    ensures var t' := AfterReserved(t, message, eventId, reserveSaved, confirmSaved, now);
      AfterReserved(t', message, laterEventId, laterReserveSaved, laterConfirmSaved, later) == t'
  {
    var t' := AfterReserved(t, message, eventId, reserveSaved, confirmSaved, now);
    if Unwrap(message).Some? {
      var id := Unwrap(message).value.orderId;
      if ReservationConfirmed(t, id, reserveSaved) {
        ConfirmReservationMeaning(t, id, reserveSaved, now);
        var t1 := AfterCommand(t, id, Some(MarkStockReserved), reserveSaved, now);
        assert t1.orders[id].status == StockReserved;
        if Abort(Confirm(Included(t1, id), eventId, now), confirmSaved).None? {
          assert t'.orders[id].status == Confirmed;
        } else {
          assert t' == t1;
        }
      } else {
        UnconfirmedReservedReplyChangesNothing(t, message, eventId, reserveSaved, confirmSaved, now);
      }
      UnconfirmedReservedReplyChangesNothing(t', message, laterEventId, laterReserveSaved, laterConfirmSaved, later);
    }
  }

  /**
   * A StockReservationFailed reply for an awaiting order records the payload's reason in
   * the notes, unchanged, when the row still fits and the save goes through; otherwise the
   * order is left as it was, still awaiting its reservation.
   */
  lemma FailedReplyRecordsReason(t: Tables, e: StockReservationFailedEvent, wrapperId: Guids.Guid, timestamp: int,
                                 saved: Option<string>, now: int)
    requires Awaiting(t, e.orderId)
    ensures var t' := AfterReservationFailed(t, Some(EventWrapper(wrapperId, "StockReservationFailed", Some(Some(e)), timestamp)), saved, now);
      var f := FailedRecord(t.orders[e.orderId], e.reason, now);
      && (FitsColumns(f) && saved.None? ==>
            && e.orderId in t'.orders
            && t'.orders[e.orderId].status == StockReservationFailed
            && t'.orders[e.orderId].notes == Some(FailureNotes(t.orders[e.orderId].notes, e.reason))
            && t'.lines == t.lines && t'.outbox == t.outbox)
      && (!(FitsColumns(f) && saved.None?) ==> t' == t)
  {
    FailReservationRecordsReason(t, e.orderId, e.reason, saved, now);
  }

  /** A StockReservationFailed reply for an order that no longer awaits its reservation changes nothing. */
  lemma RedeliveredFailedReplyChangesNothing(t: Tables, message: Option<EventWrapper<StockReservationFailedEvent>>,
                                             saved: Option<string>, now: int)
    requires Unwrap(message).Some? && !Awaiting(t, Unwrap(message).value.orderId)
    ensures AfterReservationFailed(t, message, saved, now) == t
  {
  }

  /**
   * The reply as the order service receives it: the stock service's published event,
   * wrapped and read back field for field.
   */
  function Received(e: StockSaga.StockEvent, wrapperId: Guids.Guid, timestamp: int): (r: Result<EventWrapper<StockReservedEvent>, EventWrapper<StockReservationFailedEvent>>)
    ensures e.StockReserved? <==> r.Ok?
    ensures r.Ok? ==> var p := Unwrap(Some(r.value));
      p.Some? && p.value.orderId == e.orderId && |p.value.items| == |e.reservedItems|
    ensures r.Err? ==> var p := Unwrap(Some(r.error));
      p.Some? && p.value.orderId == e.orderId && p.value.reason == e.reason && |p.value.items| == |e.resultItems|
  {
    match e
    case StockReserved(orderId, items, occurredOn) =>
      var received := seq(|items|, i requires 0 <= i < |items| =>
        StockReservedItem(items[i].productId, items[i].quantity, items[i].reservedQuantity));
      Ok(EventWrapper(wrapperId, e.EventType(), Some(Some(StockReservedEvent(orderId, received, occurredOn))), timestamp))
    case StockReservationFailed(orderId, reason, items, occurredOn) =>
      var received := seq(|items|, i requires 0 <= i < |items| =>
        StockReservationFailedItem(items[i].productId, items[i].quantity, items[i].isSuccess, items[i].failureReason));
      Err(EventWrapper(wrapperId, e.EventType(), Some(Some(StockReservationFailedEvent(orderId, reason, received, occurredOn))), timestamp))
  }

  /**
   * The two handlers composed: when the stock side could not reserve every item of an
   * awaiting order, the reply it publishes leaves the order StockReservationFailed with
   * the "; "-joined failures of exactly the failed items in its notes, provided the notes
   * fit their 1000 characters and the save goes through; otherwise the order keeps
   * awaiting its reservation.
   */
  lemma FailedReservationReachesOrder(t: Tables, stocks: StockService.Store, request: StockSaga.StockReservationRequestedEvent,
                                      reserveSaves: seq<Option<string>>, wrapperId: Guids.Guid, timestamp: int,
                                      saved: Option<string>, now: int)
    requires Awaiting(t, request.orderId)
    requires !StockSaga.AllSucceeded(StockSaga.Results(stocks, request.items, reserveSaves))
    ensures var rs := StockSaga.Results(stocks, request.items, reserveSaves);
      var reply := StockSaga.StockReservationFailed(request.orderId, StockSaga.FailureReason(rs), StockSaga.ResultItems(rs), now);
      var t' := AfterReservationFailed(t, Some(Received(reply, wrapperId, timestamp).error), saved, now);
      var f := FailedRecord(t.orders[request.orderId], StockSaga.FailureReason(rs), now);
      && (FitsColumns(f) && saved.None? ==>
            && t'.orders[request.orderId].status == StockReservationFailed
            && t'.orders[request.orderId].notes == Some(FailureNotes(t.orders[request.orderId].notes, StockSaga.FailureReason(rs))))
      && (!(FitsColumns(f) && saved.None?) ==> t' == t)
  {
    var rs := StockSaga.Results(stocks, request.items, reserveSaves);
    var reply := StockSaga.StockReservationFailed(request.orderId, StockSaga.FailureReason(rs), StockSaga.ResultItems(rs), now);
    var m := Received(reply, wrapperId, timestamp).error;
    FailReservationRecordsReason(t, request.orderId, StockSaga.FailureReason(rs), saved, now);
  }

  class StockEventHandler {
    const orderService: OrderApplicationService

    constructor (orderService: OrderApplicationService)
      ensures this.orderService == orderService
    {
      this.orderService := orderService;
    }

    /**
     * HandleStockReservedAsync. The results it logs are returned: `reserved` from
     * ConfirmStockReservationAsync, `confirmed` from ConfirmOrderAsync, each None when
     * that call was not made. `eventId` stands for the OrderConfirmed event's new id,
     * `reserveSaved` and `confirmSaved` for the outcomes of the two saves.
     */
    method HandleStockReserved(message: Option<EventWrapper<StockReservedEvent>>, eventId: Guids.Guid,
                               reserveSaved: Option<string>, confirmSaved: Option<string>, now: int)
      returns (reserved: Option<OperationResult<()>>, confirmed: Option<OperationResult<()>>)
      modifies orderService.db
      ensures orderService.db.Content() == AfterReserved(old(orderService.db.Content()), message, eventId, reserveSaved, confirmSaved, now)
      ensures reserved.Some? <==> Unwrap(message).Some?
      ensures confirmed.Some? <==> Unwrap(message).Some? && ReservationConfirmed(old(orderService.db.Content()), Unwrap(message).value.orderId, reserveSaved)
      ensures reserved.Some? ==> (reserved.value.isSuccessful <==> confirmed.Some?)
    {
      var e := Unwrap(message);
      if e.None? {
        return None, None;
      }
      var orderId := e.value.orderId;
      ghost var t0 := orderService.db.Content();
      var result := orderService.ConfirmStockReservation(orderId, reserveSaved, now);
      reserved := Some(result);
      confirmed := None;
      if result.isSuccessful {
        var confirmResult := orderService.ConfirmOrder(orderId, eventId, confirmSaved, now);
        confirmed := Some(confirmResult);
      }
    }

    /** HandleStockReservationFailedAsync; the result it logs is returned, None when the message was dropped. */
    method HandleStockReservationFailed(message: Option<EventWrapper<StockReservationFailedEvent>>, saved: Option<string>, now: int)
      returns (failed: Option<OperationResult<()>>)
      modifies orderService.db
      ensures orderService.db.Content() == AfterReservationFailed(old(orderService.db.Content()), message, saved, now)
      ensures failed.Some? <==> Unwrap(message).Some?
      ensures failed.Some? ==>
        var id := Unwrap(message).value.orderId;
        (failed.value.isSuccessful <==>
          Awaiting(old(orderService.db.Content()), id)
          && FitsColumns(FailedRecord(old(orderService.db.orders)[id], Unwrap(message).value.reason, now)) && saved.None?)
    {
      var e := Unwrap(message);
      if e.None? {
        return None;
      }
      var result := orderService.FailStockReservation(e.value.orderId, e.value.reason, saved, now);
      failed := Some(result);
    }
  }
}
