# Event-driven e-commerce: order, stock and notification services

This project is a Dafny model of the domain logic in a .NET microservice
example. The example has three services, and they coordinate a stock
reservation saga through transactional outboxes and RabbitMQ:

- **Order service.** It keeps the `Order` aggregate and its `OrderLine`s. A
  new order is Pending. Asking for stock moves it to AwaitingStockReservation
  and writes a `StockReservationRequested` row to the order outbox. The stock
  service's reply moves it to StockReserved or StockReservationFailed.
  Confirming a reserved order writes an `OrderConfirmed` row. Orders are then
  shipped and delivered, or cancelled at any point before shipping. Amounts
  are `Money` values: non-negative decimals rounded half-to-even to two places,
  in TRY, USD or EUR.
- **Stock service.** It keeps one `Stock` row per product with a quantity and
  a reserved quantity. On `StockReservationRequested` it reserves every item.
  If all items succeed it publishes `StockReserved`. Otherwise it releases the
  items it did reserve and publishes `StockReservationFailed`, whose reason
  lists the failed items. On `OrderConfirmed` it turns each reservation into a
  deduction.
- **Notification service.** It stores SMS and e-mail `Notification`s. Each one
  is written together with an `OutboxNotificationEvent` row. The senders mark
  a notification Delivered at most once, and only on its own channel.
- **Outbox dispatchers.** These background loops take the oldest unprocessed
  rows that can still be retried, ten at a time. They publish each row to its
  exchange and mark it processed, or mark it failed (the notification outbox
  also sets a back-off time). Each batch is committed in one transaction.

The model follows the program's structure:

- Objects whose methods update fields are Dafny classes. These are the
  aggregates, the outbox entities, the database contexts and the application
  services.
- Each method of such a class is specified by a function on a snapshot of its
  state.
- The lifecycle, reservation accounting, outbox and round-trip properties are
  proved as lemmas about those functions.
- A thrown exception is an explicit `Thrown` value.
- C# `int` fields are 32-bit (`Int32`), with the wrap-around of `++` written
  out.
- `decimal` amounts are exact scaled integers. Money holds whole cents.
- Guids are 32 hexadecimal digits. Times are DateTime ticks, passed in as
  parameters.
- The outcome of each call the code cannot control is a parameter of the
  model:
  - `saved` is the outcome of `SaveChangesAsync` and the commit of each write
    of the order, stock and notification services; `saves` gives one per
    call of a loop in the stock handler.
  - The stock service keeps the scope's change tracker next to the table
    (`StockService.Store`). A stock write whose save fails still leaves its
    change on the tracked entity. Later calls in the same scope see that
    change, and the next save that goes through writes it.
  - Rows that overflow the order tables' varchar columns are refused whatever
    `saved` says.
  - `publishFault` and the dispatchers' `outcomes` stand for the broker's
    answer to each publication.
  - New Guids and the clock are parameters too.

| file | models |
|---|---|
| wrappers.dfy | Option/Result, C# exceptions as values, 32-bit integers |
| entity.dfy | `Entity`: identity equality, timestamps, domain events |
| guids.dfy | `Guid.Parse` / `Guid.ToString` on the 36-character "D" form |
| money.dfy | `decimal` rounding, `Currency`, `Money` and its operators |
| text.dfy | `string.Trim(chars)`, `IsNullOrWhiteSpace`, `string.Join` |
| operation_results.dfy | `OperationResult<T>` and `ErrorResult` |
| paging.dfy | `Paginate<T>` and its mapping |
| validation_exception.dfy | `ValidationException` and its message, one block per property error |
| validators.dfy | the FluentValidation rule sets of the requests |
| order.dfy | `Order` and `OrderLine` |
| order_outbox.dfy | the order service's `OutboxEvent` |
| order_service.dfy | `OrderApplicationService` over the orders table |
| order_saga.dfy | the order service's handler of the stock replies |
| outbox_batches.dfy | the batch query both dispatchers share |
| order_outbox_service.dfy | the order service's `OutboxService` loop body |
| stock.dfy | `Stock` |
| stock_service.dfy | `StockApplicationService` over the stocks table and the scope's tracked rows |
| stock_saga.dfy | the stock service's `StockEventHandler` |
| notification.dfy | `Notification` |
| notification_outbox.dfy | `OutboxNotificationEvent` |
| notification_service.dfy | `NotificationService` over the notifications table |
| notification_outbox_service.dfy | `OutboxNotificationService`'s loop body |
| notification_senders.dfy | `EmailSenderService` and `SmsSenderService` |

## Model

| member | source | states |
|---|---|---|
| Int32s.Wrap | src/Services/OrderService/OrderService.Domain/Entities/OutboxEvent.cs:43 | an unchecked `int` result agrees with the exact value when that value fits in 32 bits, and is always congruent to it modulo 2^32 |
| Entities.EqualsMeaning | src/Shared/Shared.Kernel/Domain/Entities/Entity.cs:27-42 | two distinct entity objects are equal exactly when they have the same runtime type and the same Id, and that Id is not the empty Guid |
| Entities.EqualsReflexive | src/Shared/Shared.Kernel/Domain/Entities/Entity.cs:27-42 | an entity equals itself under both `Equals` and `==`, even when its Id is still empty |
| Entities.EqualsSymmetric | src/Shared/Shared.Kernel/Domain/Entities/Entity.cs:27-42 | entity equality is symmetric |
| Entities.EqualsTransitive | src/Shared/Shared.Kernel/Domain/Entities/Entity.cs:27-42 | entity equality is transitive |
| Entities.OperatorAgreesWithEquals | src/Shared/Shared.Kernel/Domain/Entities/Entity.cs:49-57 | `==` agrees with `Equals` when the left operand is not null, and a null is never equal to a non-null entity |
| Entities.RemoveFirstCount | src/Shared/Shared.Kernel/Domain/Entities/Entity.cs:75-78 | removing a domain event takes out exactly one occurrence when there is one, and otherwise leaves the list unchanged |
| Entities.RemoveFirstCut | src/Shared/Shared.Kernel/Domain/Entities/Entity.cs:75-78 | the removal cuts out the first occurrence and keeps the other events in their order |
| Entities.Entity.constructor | src/Shared/Shared.Kernel/Domain/Entities/Entity.cs:12-15 | the parameterless constructor stamps CreatedAt with the current time; the entity has no UpdatedAt and no events |
| Entities.Entity.WithId | src/Shared/Shared.Kernel/Domain/Entities/Entity.cs:17-20 | the Id constructor sets the Id but leaves CreatedAt at default(DateTime), because its `base()` is object's constructor |
| Entities.Entity.SetUpdatedAt | src/Shared/Shared.Kernel/Domain/Entities/Entity.cs:22-25 | UpdatedAt becomes the current time; nothing else changes |
| Entities.Entity.AddDomainEvent | src/Shared/Shared.Kernel/Domain/Entities/Entity.cs:70-73 | the event is appended at the end; nothing else changes |
| Entities.Entity.RemoveDomainEvent | src/Shared/Shared.Kernel/Domain/Entities/Entity.cs:75-78 | the first equal event is removed; nothing else changes |
| Entities.Entity.ClearDomainEvents | src/Shared/Shared.Kernel/Domain/Entities/Entity.cs:85-88 | the event list becomes empty; nothing else changes |
| Entities.Entity.GetDomainEvents | src/Shared/Shared.Kernel/Domain/Entities/Entity.cs:80-83 | returns the pending events in the order they were added |
| Guids.Format | src/Services/StockService/StockService.Infrastructure/EventHandlers/StockEventHandler.cs:50 | `Guid.ToString()` is 36 characters, with dashes exactly at positions 8, 13, 18 and 23 |
| Guids.Parse | src/Services/StockService/StockService.Infrastructure/EventHandlers/StockEventHandler.cs:174 | `Guid.Parse` accepts exactly the well-formed "D" strings, and each hexadecimal digit read is the Guid's digit |
| Guids.ParseFormat | src/Services/StockService/StockService.Infrastructure/EventHandlers/StockEventHandler.cs:174 | parsing the text a Guid prints gives that Guid back, so the stock handler's string round trip loses nothing |
| Guids.FormatParse | src/Services/OrderService/OrderService.Persistence/Services/OrderApplicationService.cs:49 | every string `Guid.Parse` accepts is the printed form of its result, up to letter case |
| Guids.FormatInjective | src/Services/StockService/StockService.Infrastructure/EventHandlers/StockEventHandler.cs:50 | distinct Guids print differently |
| Decimals.RoundHalfEven | src/Services/OrderService/OrderService.Domain/ValueObjects/Money.cs:15 | `Math.Round(x, 2)` lands within half a unit of the exact value, and on a tie it lands on the even neighbour |
| Decimals.RoundHalfEvenUnique | src/Services/OrderService/OrderService.Domain/ValueObjects/Money.cs:15 | the rounding is the only integer with those two properties |
| Decimals.RoundExact | src/Services/OrderService/OrderService.Domain/ValueObjects/Money.cs:15 | an amount that is already exact is not changed by rounding |
| Monies.FromCode | src/Services/OrderService/OrderService.Domain/ValueObjects/Currency.cs:18-21 | a code is accepted exactly when it is TRY, USD or EUR; the currency found has that code; any other code throws ArgumentException with the code in its message |
| Monies.FromCodeOfCode | src/Services/OrderService/OrderService.Domain/ValueObjects/Currency.cs:18-23 | looking a currency up by its own code finds that currency |
| Monies.Create | src/Services/OrderService/OrderService.Domain/ValueObjects/Money.cs:10-17 | a negative amount throws ArgumentException; otherwise the amount is kept within half a cent, in the given currency |
| Monies.CreateExact | src/Services/OrderService/OrderService.Domain/ValueObjects/Money.cs:15 | an amount with at most two decimals is stored exactly |
| Monies.CreateWithCode | src/Services/OrderService/OrderService.Domain/ValueObjects/Money.cs:19-22 | the currency code is resolved first, and an invalid code throws before the amount is checked |
| Monies.Add | src/Services/OrderService/OrderService.Domain/ValueObjects/Money.cs:32-38 | adding works only within one currency, adds the cents exactly, and otherwise throws InvalidOperationException |
| Monies.Sub | src/Services/OrderService/OrderService.Domain/ValueObjects/Money.cs:40-46 | subtracting works within one currency and only when the result is not negative; a mismatch and a negative result throw different exceptions |
| Monies.SubUndoesAdd | src/Services/OrderService/OrderService.Domain/ValueObjects/Money.cs:32-46 | subtracting what was added gives the original amount back |
| Monies.Mul | src/Services/OrderService/OrderService.Domain/ValueObjects/Money.cs:48-56 | a product throws exactly when it is negative, and keeps the currency |
| Monies.MulByCount | src/Services/OrderService/OrderService.Domain/ValueObjects/Money.cs:48-56 | multiplying by a whole quantity multiplies the cents exactly, without rounding |
| Monies.Div | src/Services/OrderService/OrderService.Domain/ValueObjects/Money.cs:58-64 | a zero divisor throws DivideByZeroException; a negative quotient throws; otherwise the quotient is rounded half-to-even |
| Monies.DivUndoesMulByCount | src/Services/OrderService/OrderService.Domain/ValueObjects/Money.cs:48-64 | dividing by the whole quantity that was multiplied in gives the original amount back |
| Monies.Greater | src/Services/OrderService/OrderService.Domain/ValueObjects/Money.cs:66-72 | `>` compares amounts within one currency and throws across currencies |
| Monies.Less | src/Services/OrderService/OrderService.Domain/ValueObjects/Money.cs:74-80 | `<` compares amounts within one currency and throws across currencies |
| Monies.ComparisonsAgree | src/Services/OrderService/OrderService.Domain/ValueObjects/Money.cs:66-90 | within one currency `>=` and `<=` are the order on amounts, and `>=` is the negation of `<` |
| Monies.ComparisonsThrowOnMismatch | src/Services/OrderService/OrderService.Domain/ValueObjects/Money.cs:66-90 | across currencies all four comparisons throw, `>=` and `<=` included |
| Monies.ConvertTo | src/Services/OrderService/OrderService.Domain/ValueObjects/Money.cs:104-110 | converting to the same currency returns the amount unchanged; otherwise the result is in the target currency and a negative product throws |
| Monies.ConvertAtParity | src/Services/OrderService/OrderService.Domain/ValueObjects/Money.cs:104-110 | a rate of exactly one changes only the currency |
| Monies.SumOneCurrency | src/Services/OrderService/OrderService.Domain/Entities/Order.cs:204 | summing amounts of one currency adds their cents exactly, and one amount in another currency makes the sum throw |
| OrderDomain.NewLine | src/Services/OrderService/OrderService.Domain/Entities/OrderLine.cs:20-30 | a new line is refused with ArgumentException exactly when the quantity is not positive; otherwise it keeps the product, the price and the quantity |
| OrderDomain.UpdatedQuantity | src/Services/OrderService/OrderService.Domain/Entities/OrderLine.cs:44-51 | a quantity update is refused exactly when the new quantity is not positive; otherwise only the quantity and UpdatedAt change |
| OrderDomain.LineTotal | src/Services/OrderService/OrderService.Domain/Entities/OrderLine.cs:12 | a line total exists exactly when unit price times quantity is not negative, and is that product in the price's currency |
| OrderDomain.LineTotalIsMoneyTimesQuantity | src/Services/OrderService/OrderService.Domain/Entities/OrderLine.cs:12 | the line total is the Money `*` operator applied to the unit price and the quantity |
| OrderDomain.OrderLine.Load | src/Services/OrderService/OrderService.Domain/Entities/OrderLine.cs:16-18 | the line materialised from a row holds exactly that row |
| OrderDomain.OrderLine.TotalPrice | src/Services/OrderService/OrderService.Domain/Entities/OrderLine.cs:12 | a line with a positive quantity has a total, in its price's currency, of price times quantity |
| OrderDomain.OrderLine.UpdateQuantity | src/Services/OrderService/OrderService.Domain/Entities/OrderLine.cs:44-51 | a non-positive quantity throws and changes nothing; otherwise the line gets the new quantity and a new UpdatedAt |
| OrderDomain.OrderLine.UpdateUnitPrice | src/Services/OrderService/OrderService.Domain/Entities/OrderLine.cs:53-57 | the line gets the new price and UpdatedAt, and its total follows the new price |
| OrderDomain.OrderLine.UpdateUnitPriceDecimal | src/Services/OrderService/OrderService.Domain/Entities/OrderLine.cs:60-63 | a negative price throws before anything changes; otherwise the price becomes the rounded TRY Money |
| OrderDomain.OrderLine.SetOrderId | src/Services/OrderService/OrderService.Domain/Entities/OrderLine.cs:65-68 | only OrderId changes |
| OrderDomain.OrderLine.SetOrder | src/Services/OrderService/OrderService.Domain/Entities/OrderLine.cs:32-36 | only OrderId changes, to the order's Id |
| OrderDomain.LinesCents | src/Services/OrderService/OrderService.Domain/Entities/Order.cs:202-206 | the sum of unit price times quantity over the lines is not negative when no quantity is negative |
| OrderDomain.SumLinesIsSum | src/Services/OrderService/OrderService.Domain/Entities/Order.cs:202-206 | the aggregation adds the line totals exactly when every price is in the starting currency, and throws otherwise |
| OrderDomain.RecalculatedIsLineSum | src/Services/OrderService/OrderService.Domain/Entities/Order.cs:202-206 | RecalculateTotalAmount succeeds exactly when every price is in TRY, and then yields the TRY sum of unit price times quantity |
| OrderDomain.FindLine | src/Services/OrderService/OrderService.Domain/Entities/Order.cs:41 | the search finds the first line with the product, or reports that there is none |
| OrderDomain.RemoveAt | src/Services/OrderService/OrderService.Domain/Entities/Order.cs:121 | removing a line keeps the other lines in their order |
| OrderDomain.NewOrder | src/Services/OrderService/OrderService.Domain/Entities/Order.cs:24-31 | a new order is Pending with a zero TRY total, no lines, no events and no key yet, and it satisfies the aggregate invariant |
| OrderDomain.Recalculate | src/Services/OrderService/OrderService.Domain/Entities/Order.cs:202-206 | recalculation changes only TotalAmount and UpdatedAt; it throws, leaving the order as it was, exactly when the lines cannot be summed |
| OrderDomain.AddLine | src/Services/OrderService/OrderService.Domain/Entities/Order.cs:33-55 | adding a line never changes the status, the key or the outbox |
| OrderDomain.AddLineDecimal | src/Services/OrderService/OrderService.Domain/Entities/Order.cs:58-61 | the decimal overload never changes the status, the key or the outbox |
| OrderDomain.RequestedItems | src/Services/OrderService/OrderService.Domain/Entities/Order.cs:76-80 | the request carries one item per line, in line order, with the line's product and quantity |
| OrderDomain.RequestReservation | src/Services/OrderService/OrderService.Domain/Entities/Order.cs:63-92 | a reservation request succeeds exactly for a Pending order with lines, and moves it to AwaitingStockReservation; a failed request changes nothing; the lines, the total and the customer are kept |
| OrderDomain.MarkReserved | src/Services/OrderService/OrderService.Domain/Entities/Order.cs:94-101 | marking stock reserved succeeds exactly when the order is awaiting stock, and then changes only the status (to StockReserved) and UpdatedAt |
| OrderDomain.MarkReservationFailed | src/Services/OrderService/OrderService.Domain/Entities/Order.cs:103-111 | marking the reservation failed succeeds exactly when the order is awaiting stock; it moves the order to StockReservationFailed and adds no event |
| OrderDomain.RemoveLine | src/Services/OrderService/OrderService.Domain/Entities/Order.cs:113-124 | removing a line never changes the status or the outbox |
| OrderDomain.UpdateLineQuantity | src/Services/OrderService/OrderService.Domain/Entities/Order.cs:126-140 | a quantity update never changes the status or the outbox |
| OrderDomain.ConfirmedLines | src/Services/OrderService/OrderService.Domain/Entities/Order.cs:158-162 | the confirmation lines exist exactly when every ProductId parses as a Guid; there is then one per order line, carrying the parsed id and the quantity |
| OrderDomain.Confirm | src/Services/OrderService/OrderService.Domain/Entities/Order.cs:142-172 | confirmation succeeds exactly for a StockReserved order with lines whose ProductIds all parse; the only status change it can make is StockReserved to Confirmed; it never touches the lines |
| OrderDomain.Cancel | src/Services/OrderService/OrderService.Domain/Entities/Order.cs:174-181 | cancellation succeeds exactly when the order is neither Shipped nor Delivered, and then changes only the status and UpdatedAt |
| OrderDomain.Ship | src/Services/OrderService/OrderService.Domain/Entities/Order.cs:183-191 | shipping succeeds exactly for a Confirmed order, and then changes only the status and UpdatedAt |
| OrderDomain.Deliver | src/Services/OrderService/OrderService.Domain/Entities/Order.cs:193-200 | delivery succeeds exactly for a Shipped order, and then changes only the status and UpdatedAt |
| OrderDomain.LifecycleRespected | src/Services/OrderService/OrderService.Domain/Entities/Order.cs:33-200 | no command moves the status off the lifecycle graph (Pending to Awaiting to Reserved or Failed; Reserved to Confirmed to Shipped to Delivered; cancellation before shipping); line edits keep the status; only MarkAsDelivered reaches Delivered and only ConfirmOrder reaches Confirmed |
| OrderDomain.LineEditsLifecycle | src/Services/OrderService/OrderService.Domain/Entities/Order.cs:33-140 | the line edits keep the status |
| OrderDomain.FulfilmentLifecycle | src/Services/OrderService/OrderService.Domain/Entities/Order.cs:174-200 | cancel, ship and deliver each take one lifecycle step or none |
| OrderDomain.SagaLifecycle | src/Services/OrderService/OrderService.Domain/Entities/Order.cs:63-172 | the saga commands each take one lifecycle step or none |
| OrderDomain.AddLineKeepsStatus | src/Services/OrderService/OrderService.Domain/Entities/Order.cs:33-55 | AddOrderLine never changes the status or the outbox |
| OrderDomain.LinesFrozenAfterPending | src/Services/OrderService/OrderService.Domain/Entities/Order.cs:35-36 | once the order is no longer Pending, every line edit throws InvalidOperationException and changes nothing |
| OrderDomain.ThrowingCommandsChangeNothing | src/Services/OrderService/OrderService.Domain/Entities/Order.cs:33-200 | a command that throws leaves the order as it was, except where the code mutates before it throws: a line edit whose total cannot be summed keeps the edited lines, and ConfirmOrder keeps the Confirmed status when a ProductId is not a Guid |
| OrderDomain.NonLineCommandsKeepContent | src/Services/OrderService/OrderService.Domain/Entities/Order.cs:63-200 | the status commands keep the lines, the total, the key and the customer, and only append to the outbox |
| OrderDomain.RecalculateKeepsValid | src/Services/OrderService/OrderService.Domain/Entities/Order.cs:202-206 | recalculating makes the total current without touching the lines |
| OrderDomain.ReplaceLineKeepsInvariant | src/Services/OrderService/OrderService.Domain/Entities/Order.cs:44 | replacing a line by a positive-quantity line of the same product keeps the lines distinct by product and positive |
| OrderDomain.RemoveAtKeepsInvariant | src/Services/OrderService/OrderService.Domain/Entities/Order.cs:121 | dropping a line keeps the lines distinct by product and positive |
| OrderDomain.AppendLineKeepsInvariant | src/Services/OrderService/OrderService.Domain/Entities/Order.cs:48-51 | appending a line for a new product keeps the lines distinct by product and positive |
| OrderDomain.AddLineKeepsValid | src/Services/OrderService/OrderService.Domain/Entities/Order.cs:33-55 | AddOrderLine keeps the invariant: positive quantities, one line per product, a current total |
| OrderDomain.RemoveLineKeepsValid | src/Services/OrderService/OrderService.Domain/Entities/Order.cs:113-124 | RemoveOrderLine keeps the invariant |
| OrderDomain.UpdateLineKeepsValid | src/Services/OrderService/OrderService.Domain/Entities/Order.cs:126-140 | UpdateOrderLineQuantity keeps the invariant |
| OrderDomain.CommandsPreserveValid | src/Services/OrderService/OrderService.Domain/Entities/Order.cs:33-206 | every command, including one that throws, keeps the invariant: positive quantities, one line per product, and a total equal to the sum of the lines whenever that sum exists |
| OrderDomain.AddSameProductMerges | src/Services/OrderService/OrderService.Domain/Entities/Order.cs:41-45 | adding a product the order already holds adds to that line's quantity and keeps its price; no line is added and no other line changes |
| OrderDomain.LineEditsKeepTotal | src/Services/OrderService/OrderService.Domain/Entities/Order.cs:54 | after a successful line edit that changed the lines, every price is in TRY and TotalAmount is the sum of unit price times quantity |
| OrderDomain.OutboxAppendOnly | src/Services/OrderService/OrderService.Domain/Entities/Order.cs:90 | the outbox only grows, by at most one row, and only a RequestStockReservation or ConfirmOrder that did not throw adds to it |
| OrderDomain.LineEditsKeepOutbox | src/Services/OrderService/OrderService.Domain/Entities/Order.cs:33-140 | line edits never touch the outbox |
| OrderDomain.FulfilmentKeepsOutbox | src/Services/OrderService/OrderService.Domain/Entities/Order.cs:174-200 | cancel, ship and deliver never touch the outbox |
| OrderDomain.SagaOutbox | src/Services/OrderService/OrderService.Domain/Entities/Order.cs:63-172 | the saga commands append at most one row, and only when they succeed |
| OrderDomain.ReservationRequestCarriesLines | src/Services/OrderService/OrderService.Domain/Entities/Order.cs:63-92 | a successful request appends one unprocessed StockReservationRequested row to stock-events, carrying the order's id and every line's product and quantity in order |
| OrderDomain.ConfirmEventCarriesLines | src/Services/OrderService/OrderService.Domain/Entities/Order.cs:142-172 | a successful confirmation appends one OrderConfirmed row to order-events, carrying the order id, the customer e-mail and every line's parsed product id and quantity in order |
| OrderDomain.SagaRepliesApplyOnce | src/Services/OrderService/OrderService.Domain/Entities/Order.cs:94-111 | a redelivered StockReserved or StockReservationFailed reply finds the order no longer awaiting stock, throws, and changes nothing |
| OrderDomain.CancelBeforeShipping | src/Services/OrderService/OrderService.Domain/Entities/Order.cs:174-181 | cancellation succeeds exactly before shipping, and cancelling a cancelled order succeeds again |
| OrderDomain.FailureNotesRecordReason | src/Services/OrderService/OrderService.Domain/Entities/Order.cs:109 | on an order without notes, the failure note is "Stock reservation failed: " followed by the reason, once the leading " - " is trimmed |
| OrderDomain.Order.constructor | src/Services/OrderService/OrderService.Domain/Entities/Order.cs:24-31 | the new aggregate is NewOrder: Pending, zero TRY total, no lines, no events |
| OrderDomain.Order.Load | src/Services/OrderService/OrderService.Domain/Entities/Order.cs:20-22 | the aggregate materialised from a snapshot holds exactly that snapshot |
| OrderDomain.Order.GenerateKey | src/Services/OrderService/OrderService.Domain/Entities/Order.cs:20-31 | key generation changes only the Id |
| OrderDomain.Order.RecalculateTotalAmount | src/Services/OrderService/OrderService.Domain/Entities/Order.cs:202-206 | the new state and the exception are those of Recalculate |
| OrderDomain.Order.AddOrderLine | src/Services/OrderService/OrderService.Domain/Entities/Order.cs:33-55 | the new state and the exception are those of AddLine |
| OrderDomain.Order.AddOrderLineDecimal | src/Services/OrderService/OrderService.Domain/Entities/Order.cs:58-61 | the new state and the exception are those of AddLineDecimal |
| OrderDomain.Order.RequestStockReservation | src/Services/OrderService/OrderService.Domain/Entities/Order.cs:63-92 | the new state and the exception are those of RequestReservation |
| OrderDomain.Order.MarkStockReserved | src/Services/OrderService/OrderService.Domain/Entities/Order.cs:94-101 | the new state and the exception are those of MarkReserved |
| OrderDomain.Order.MarkStockReservationFailed | src/Services/OrderService/OrderService.Domain/Entities/Order.cs:103-111 | the new state and the exception are those of MarkReservationFailed |
| OrderDomain.Order.RemoveOrderLine | src/Services/OrderService/OrderService.Domain/Entities/Order.cs:113-124 | the new state and the exception are those of RemoveLine |
| OrderDomain.Order.UpdateOrderLineQuantity | src/Services/OrderService/OrderService.Domain/Entities/Order.cs:126-140 | the new state and the exception are those of UpdateLineQuantity |
| OrderDomain.Order.ConfirmOrder | src/Services/OrderService/OrderService.Domain/Entities/Order.cs:142-172 | the new state and the exception are those of Confirm |
| OrderDomain.Order.CancelOrder | src/Services/OrderService/OrderService.Domain/Entities/Order.cs:174-181 | the new state and the exception are those of Cancel |
| OrderDomain.Order.MarkAsShipped | src/Services/OrderService/OrderService.Domain/Entities/Order.cs:183-191 | the new state and the exception are those of Ship |
| OrderDomain.Order.MarkAsDelivered | src/Services/OrderService/OrderService.Domain/Entities/Order.cs:193-200 | the new state and the exception are those of Deliver |
| OrderDomain.Order.Execute | src/Services/OrderService/OrderService.Domain/Entities/Order.cs:33-200 | running any command on the aggregate gives the state and the exception that Apply gives |
| OrderOutbox.NewRow | src/Services/OrderService/OrderService.Domain/Entities/OutboxEvent.cs:21-30 | a new outbox event is unprocessed, has no error and no attempts, and carries the given type, payload, exchange, limit and creation time |
| OrderOutbox.FailedCountsOneAttempt | src/Services/OrderService/OrderService.Domain/Entities/OutboxEvent.cs:40-45 | MarkAsFailed records the error and counts exactly one more attempt; it changes neither Processed nor the payload |
| OrderOutbox.FailedTimesCount | src/Services/OrderService/OrderService.Domain/Entities/OutboxEvent.cs:40-45 | failing n times adds n to RetryCount and keeps MaxRetries and Processed |
| OrderOutbox.FreshEventExhausted | src/Services/OrderService/OrderService.Domain/Entities/OutboxEvent.cs:40-55 | a fresh event that fails MaxRetries times has exceeded its retries, can no longer be retried, and is still unprocessed |
| OrderOutbox.OutboxEvent.constructor | src/Services/OrderService/OrderService.Domain/Entities/OutboxEvent.cs:21-30 | the new entity is NewRow |
| OrderOutbox.OutboxEvent.Load | src/Services/OrderService/OrderService.Domain/Entities/OutboxEvent.cs:19 | the entity materialised from a row holds exactly that row |
| OrderOutbox.OutboxEvent.MarkAsProcessed | src/Services/OrderService/OrderService.Domain/Entities/OutboxEvent.cs:32-38 | the row becomes processed at the current time with no error |
| OrderOutbox.OutboxEvent.MarkAsFailed | src/Services/OrderService/OrderService.Domain/Entities/OutboxEvent.cs:40-45 | the row records the error and one more attempt, with `++` wrapping at int.MaxValue |
| OrderOutbox.OutboxEvent.CanRetryNow | src/Services/OrderService/OrderService.Domain/Entities/OutboxEvent.cs:47-50 | CanRetry holds exactly when RetryCount is below MaxRetries, and is the negation of HasExceededMaxRetries |
| OrderOutbox.OutboxEvent.HasExceededMaxRetriesNow | src/Services/OrderService/OrderService.Domain/Entities/OutboxEvent.cs:52-55 | HasExceededMaxRetries is the negation of CanRetry |
| NotificationOutbox.NewRow | src/Services/NotificationService/NotificationService.Domain/Entities/OutboxNotificationEvent.cs:24-33 | a new outbox row is unprocessed, has no error, no attempts and no next-try time, and carries the given type, payload, exchange and limit |
| NotificationOutbox.FailedCountsOneAttempt | src/Services/NotificationService/NotificationService.Domain/Entities/OutboxNotificationEvent.cs:43-49 | MarkAsFailed counts exactly one more attempt and schedules the next try 2 × (new count) minutes after now; nothing else changes but the error and UpdatedAt |
| NotificationOutbox.BackoffStrictlyIncreases | src/Services/NotificationService/NotificationService.Domain/Entities/OutboxNotificationEvent.cs:43-49 | each further failure waits strictly longer than the one before it |
| NotificationOutbox.OutboxNotificationEvent.constructor | src/Services/NotificationService/NotificationService.Domain/Entities/OutboxNotificationEvent.cs:24-33 | the new entity is NewRow |
| NotificationOutbox.OutboxNotificationEvent.Load | src/Services/NotificationService/NotificationService.Domain/Entities/OutboxNotificationEvent.cs:19-22 | the entity materialised from a row holds exactly that row |
| NotificationOutbox.OutboxNotificationEvent.MarkAsProcessed | src/Services/NotificationService/NotificationService.Domain/Entities/OutboxNotificationEvent.cs:35-41 | the row becomes processed at the current time with no error |
| NotificationOutbox.OutboxNotificationEvent.MarkAsFailed | src/Services/NotificationService/NotificationService.Domain/Entities/OutboxNotificationEvent.cs:43-49 | the row records the error and one more attempt, and its next try is set from the new count |
| NotificationOutbox.OutboxNotificationEvent.CanRetryNow | src/Services/NotificationService/NotificationService.Domain/Entities/OutboxNotificationEvent.cs:51-54 | CanRetry holds exactly when RetryCount is below MaxRetries, and is the negation of HasExceededMaxRetries |
| NotificationOutbox.OutboxNotificationEvent.HasExceededMaxRetriesNow | src/Services/NotificationService/NotificationService.Domain/Entities/OutboxNotificationEvent.cs:56-59 | HasExceededMaxRetries is the negation of CanRetry |
| OutboxBatches.EmptyBatchMeansNothingEligible | src/Services/OrderService/OrderService.Persistence/BackgroundServices/OutboxService.cs:54-64 | the query returns no rows exactly when no row is unprocessed with retries left |
| OutboxBatches.FirstEligible | src/Services/OrderService/OrderService.Persistence/BackgroundServices/OutboxService.cs:54-58 | the first n eligible rows from a position are eligible, in table order, and no eligible row is skipped before them |
| OutboxBatches.ChronologicalTableBatch | src/Services/OrderService/OrderService.Persistence/BackgroundServices/OutboxService.cs:54-58 | when rows are written in clock order, the first ten eligible rows are a valid answer to the oldest-first batch query |
| OutboxBatches.Overwritten | src/Services/OrderService/OrderService.Persistence/BackgroundServices/OutboxService.cs:68-101 | overwriting batch positions keeps the table's length |
| OutboxBatches.OverwrittenEffect | src/Services/OrderService/OrderService.Persistence/BackgroundServices/OutboxService.cs:68-101 | with distinct positions, each listed row becomes its own mark and every other row is left alone |
| OrderOutboxDispatcher.Candidates | src/Services/OrderService/OrderService.Persistence/BackgroundServices/OutboxService.cs:55 | the query sees a row as eligible exactly when it is unprocessed and RetryCount is below MaxRetries |
| OrderOutboxDispatcher.Marks | src/Services/OrderService/OrderService.Persistence/BackgroundServices/OutboxService.cs:68-101 | there is one mark per batch row |
| OrderOutboxDispatcher.Dispatched | src/Services/OrderService/OrderService.Persistence/BackgroundServices/OutboxService.cs:68-101 | dispatching keeps the outbox table's length |
| OrderOutboxDispatcher.Publications | src/Services/OrderService/OrderService.Persistence/BackgroundServices/OutboxService.cs:72-93 | at most one message per batch row reaches the broker, and only through stock-events or order-events |
| OrderOutboxDispatcher.DispatchStep | src/Services/OrderService/OrderService.Persistence/BackgroundServices/OutboxService.cs:68-101 | one more turn of the loop marks the next batch row with its own outcome |
| OrderOutboxDispatcher.PublishStep | src/Services/OrderService/OrderService.Persistence/BackgroundServices/OutboxService.cs:87-93 | one more turn of the loop publishes the next batch row exactly when its exchange is known and the publish returned |
| OrderOutboxDispatcher.DispatchedEffect | src/Services/OrderService/OrderService.Persistence/BackgroundServices/OutboxService.cs:68-101 | each batch row is marked with its own outcome, and no other row changes |
| OrderOutboxDispatcher.CommittedCycleOutcome | src/Services/OrderService/OrderService.Persistence/BackgroundServices/OutboxService.cs:68-105 | after a committed cycle each batch row is processed exactly when it was published, and otherwise carries exactly one more attempt; an unknown exchange is recorded as "Unknown exchange name"; payload, owner and limits are kept; rows outside the batch are unchanged |
| OrderOutboxDispatcher.UnknownExchangeRetriedUntilLimit | src/Services/OrderService/OrderService.Persistence/BackgroundServices/OutboxService.cs:80-84 | a row on an unknown exchange is never published, and stays eligible exactly while its new count is below MaxRetries |
| OrderOutboxDispatcher.EmptyBatchChangesNothing | src/Services/OrderService/OrderService.Persistence/BackgroundServices/OutboxService.cs:60-64 | when no row is eligible, the cycle changes no row and publishes nothing |
| OrderOutboxDispatcher.BrokerUpPublishesBatch | src/Services/OrderService/OrderService.Persistence/BackgroundServices/OutboxService.cs:68-101 | when every publish returns and every exchange is known, each batch row is published once, in batch order |
| OrderOutboxDispatcher.OutboxService.constructor | src/Services/OrderService/OrderService.Persistence/BackgroundServices/OutboxService.cs:16-20 | the dispatcher starts with an empty broker log |
| OrderOutboxDispatcher.OutboxService.PublishAndMark | src/Services/OrderService/OrderService.Persistence/BackgroundServices/OutboxService.cs:70-100 | one row's turn publishes it when its exchange is known and the publish returns, and marks it as DispatchRow says |
| OrderOutboxDispatcher.OutboxService.DispatchBatch | src/Services/OrderService/OrderService.Persistence/BackgroundServices/OutboxService.cs:68-101 | the loop leaves the table as Dispatched and the broker log extended by Publications |
| OrderOutboxDispatcher.OutboxService.ProcessOutboxEvents | src/Services/OrderService/OrderService.Persistence/BackgroundServices/OutboxService.cs:43-112 | orders and lines are untouched; the outbox becomes the dispatched table on commit and stays as it was on rollback; the messages sent are Publications either way |
| NotificationOutboxDispatcher.Candidates | src/Services/NotificationService/NotificationService.Persistence/BackgroundServices/OutboxNotificationService.cs:60-64 | the query sees a row as eligible exactly when it is unprocessed with retries left; NextTryAtUtc plays no part |
| NotificationOutboxDispatcher.Marks | src/Services/NotificationService/NotificationService.Persistence/BackgroundServices/OutboxNotificationService.cs:74-104 | there is one mark per batch row |
| NotificationOutboxDispatcher.Dispatched | src/Services/NotificationService/NotificationService.Persistence/BackgroundServices/OutboxNotificationService.cs:74-104 | dispatching keeps the outbox table's length |
| NotificationOutboxDispatcher.Publications | src/Services/NotificationService/NotificationService.Persistence/BackgroundServices/OutboxNotificationService.cs:78-96 | at most one message per batch row reaches the broker, only on notification-events, with the event type as routing key |
| NotificationOutboxDispatcher.DispatchStep | src/Services/NotificationService/NotificationService.Persistence/BackgroundServices/OutboxNotificationService.cs:74-104 | one more turn of the loop marks the next batch row with its own outcome |
| NotificationOutboxDispatcher.PublishStep | src/Services/NotificationService/NotificationService.Persistence/BackgroundServices/OutboxNotificationService.cs:90-96 | one more turn of the loop publishes the next batch row exactly when its exchange is known and the publish returned |
| NotificationOutboxDispatcher.DispatchedEffect | src/Services/NotificationService/NotificationService.Persistence/BackgroundServices/OutboxNotificationService.cs:74-104 | each batch row is marked with its own outcome, and no other row changes |
| NotificationOutboxDispatcher.DispatchRowOutcome | src/Services/NotificationService/NotificationService.Persistence/BackgroundServices/OutboxNotificationService.cs:78-103 | an eligible row's turn either processes it or counts one more attempt and schedules its next try |
| NotificationOutboxDispatcher.CommittedCycleOutcome | src/Services/NotificationService/NotificationService.Persistence/BackgroundServices/OutboxNotificationService.cs:74-108 | after a committed cycle each batch row is processed exactly when it was published, and otherwise carries one more attempt with its next try 2 × (new count) minutes later; payloads are kept; other rows are unchanged |
| NotificationOutboxDispatcher.BatchIgnoresNextTry | src/Services/NotificationService/NotificationService.Persistence/BackgroundServices/OutboxNotificationService.cs:60-64 | tables that differ only in NextTryAtUtc give the same batch, so the back-off time does not delay a retry |
| NotificationOutboxDispatcher.UnknownExchangeRetriedUntilLimit | src/Services/NotificationService/NotificationService.Persistence/BackgroundServices/OutboxNotificationService.cs:83-87 | a row on another exchange is never published, and stays eligible exactly while its new count is below MaxRetries |
| NotificationOutboxDispatcher.EmptyBatchChangesNothing | src/Services/NotificationService/NotificationService.Persistence/BackgroundServices/OutboxNotificationService.cs:66-70 | when no row is eligible, the cycle changes no row and publishes nothing |
| NotificationOutboxDispatcher.OutboxNotificationService.constructor | src/Services/NotificationService/NotificationService.Persistence/BackgroundServices/OutboxNotificationService.cs:45-56 | the dispatcher starts with an empty broker log |
| NotificationOutboxDispatcher.OutboxNotificationService.PublishAndMark | src/Services/NotificationService/NotificationService.Persistence/BackgroundServices/OutboxNotificationService.cs:76-103 | one row's turn publishes it with its type as routing key when its exchange is known and the publish returns, and marks it as DispatchRow says |
| NotificationOutboxDispatcher.OutboxNotificationService.DispatchBatch | src/Services/NotificationService/NotificationService.Persistence/BackgroundServices/OutboxNotificationService.cs:74-104 | the loop leaves the table as Dispatched and the broker log extended by Publications |
| NotificationOutboxDispatcher.OutboxNotificationService.ProcessOutboxEvents | src/Services/NotificationService/NotificationService.Persistence/BackgroundServices/OutboxNotificationService.cs:45-115 | notifications are untouched; the outbox becomes the dispatched table on commit and stays as it was on rollback; the messages sent are Publications either way |
| OrderService.OrderDatabase.constructor | src/Services/OrderService/OrderService.Persistence/Contexts/OrderContext.cs:13-15 | the order database starts with empty Orders, OrderLines and OutboxEvents tables |
| OrderService.OrderDatabase.Insert | src/Services/OrderService/OrderService.Persistence/Services/OrderApplicationService.cs:36-60 | SaveChanges after a creation adds the order row, its lines under the order's key and the explicit StockReservationRequested event with no owner; the aggregate's own in-memory event is not added |
| OrderService.Loaded | src/Services/OrderService/OrderService.Persistence/Services/OrderApplicationService.cs:78 | an order loaded without Include has its id and row but no lines, no events and a zero TRY total, and saving it back writes the same row |
| OrderService.LinesOf | src/Services/OrderService/OrderService.Persistence/Services/OrderApplicationService.cs:331 | Include(OrderLines) yields exactly the line rows whose OrderId is the order's, and no others |
| OrderService.LoadedLine | src/Services/OrderService/OrderService.Persistence/Services/OrderApplicationService.cs:331 | a materialised line keeps its id, product and quantity, while its ignored UnitPrice is zero |
| OrderService.LoadedLines | src/Services/OrderService/OrderService.Persistence/Services/OrderApplicationService.cs:331 | the included lines are the stored line rows materialised one for one, in table order |
| OrderService.EventsOf | src/Services/OrderService/OrderService.Persistence/Services/OrderApplicationService.cs:331 | Include(OutboxEvents) yields exactly the events of the outbox rows owned by the order |
| OrderService.Included | src/Services/OrderService/OrderService.Persistence/Services/OrderApplicationService.cs:331 | the aggregate ConfirmOrderAsync loads keeps the stored status, and its lines are the order's stored lines |
| OrderService.LineRecords | src/Services/OrderService/OrderService.Persistence/Services/OrderApplicationService.cs:42 | each new line becomes one row holding its own fields under the order's key, in order |
| OrderService.Owned | src/Services/OrderService/OrderService.Persistence/Services/OrderApplicationService.cs:56-58 | each outbox row carries its event unchanged and the given owner |
| OrderService.ToLineDto | src/Services/OrderService/OrderService.Persistence/Services/OrderApplicationService.cs:259-271 | the line dto repeats the line's id as its OrderId, and gives the unit price and unit price times quantity as decimals with two places |
| OrderService.ToDto | src/Services/OrderService/OrderService.Persistence/Services/OrderApplicationService.cs:246-257 | the order dto keeps the id and status, gives the total as a two-place decimal and maps every line in order |
| OrderService.StatusCommand | src/Services/OrderService/OrderService.Persistence/Services/OrderApplicationService.cs:164-168 | only Confirmed and Cancelled select a command, and neither edits lines |
| OrderService.RunKeepsNoLines | src/Services/OrderService/OrderService.Persistence/Services/OrderApplicationService.cs:159-170 | a status command on an order loaded without lines keeps it without lines and keeps its id |
| OrderService.ConfirmThroughStatusUpdateFails | src/Services/OrderService/OrderService.Persistence/Services/OrderApplicationService.cs:184-217 | a status update to Confirmed always throws, because the order is loaded without lines, so the transaction rolls back and no table changes |
| OrderService.OtherStatusLeavesOrder | src/Services/OrderService/OrderService.Persistence/Services/OrderApplicationService.cs:164-171 | a status other than Confirmed or Cancelled selects no command and leaves every table as it was |
| OrderService.SaveOutcome | src/Services/OrderService/OrderService.Persistence/Contexts/OrderContext.cs:26-39 | a save commits exactly when the rows fit their varchar columns and the database reports nothing; a row that does not fit is refused with the DbUpdateException message |
| OrderService.Abort | src/Services/OrderService/OrderService.Persistence/Services/OrderApplicationService.cs:274-298 | a per-order transaction commits exactly when the aggregate does not throw, the rewritten row fits its columns and the save commits; an aggregate exception is reported first |
| OrderService.Settled | src/Services/OrderService/OrderService.Persistence/Services/OrderApplicationService.cs:274-298 | the reply succeeds exactly when the transaction commits; otherwise it is the 500 reply with the prefix and the exception's message |
| OrderService.Responded | src/Services/OrderService/OrderService.Persistence/Services/OrderApplicationService.cs:152-182 | the reply succeeds exactly when the transaction commits, and then carries the dto of the order as the command left it |
| OrderService.FailedRecord | src/Services/OrderService/OrderService.Domain/Entities/Order.cs:103-111 | the failed row is StockReservationFailed with the trimmed reason appended to the notes, and keeps the customer and the creation time |
| OrderService.LongReasonIsRefused | src/Services/OrderService/OrderService.Persistence/Contexts/OrderContext.cs:38-39 | a reason longer than 974 characters on an order without notes overflows the 1000-character notes column, so the save is refused and the order keeps awaiting its reservation |
| OrderService.ConfirmReservationMeaning | src/Services/OrderService/OrderService.Persistence/Services/OrderApplicationService.cs:274-298 | confirming the reservation sets the order StockReserved, stamped now, exactly when it awaited its reservation, its row fits its columns and the save commits; otherwise nothing changes |
| OrderService.FailReservationRecordsReason | src/Services/OrderService/OrderService.Persistence/Services/OrderApplicationService.cs:300-324 | failing the reservation of an awaiting order writes StockReservationFailed and the reason into its notes exactly when that row fits its columns (notes at most 1000 characters) and the save commits; otherwise nothing changes; lines and outbox stay as they were |
| OrderService.ConfirmOrderAppendsConfirmation | src/Services/OrderService/OrderService.Persistence/Services/OrderApplicationService.cs:326-357 | confirming a StockReserved order with Guid-named lines, when its row fits and the save commits, marks it Confirmed and appends exactly one OrderConfirmed row on order-events, owned by the order and listing every stored line; a failed save changes nothing |
| OrderService.ConfirmOrderNeedsReservation | src/Services/OrderService/OrderService.Persistence/Services/OrderApplicationService.cs:326-357 | confirming an order that is not StockReserved throws the aggregate's exception and leaves every table as it was |
| OrderService.AddAll | src/Services/OrderService/OrderService.Persistence/Services/OrderApplicationService.cs:29-32 | the line loop keeps the status, the events and the id; once a line has thrown, no later line is added |
| OrderService.AddAllKeepsValid | src/Services/OrderService/OrderService.Persistence/Services/OrderApplicationService.cs:29-32 | the line loop keeps the aggregate's invariant: positive quantities, distinct products, and a total equal to the sum of the lines |
| OrderService.ParsedItems | src/Services/OrderService/OrderService.Persistence/Services/OrderApplicationService.cs:47-51 | the reservation items exist exactly when every product id is a Guid; there is then one item per line, with the parsed id and the quantity |
| OrderService.Creation | src/Services/OrderService/OrderService.Persistence/Services/OrderApplicationService.cs:21-71 | a successful creation yields an order under the drawn key that awaits its stock reservation and keeps its invariant |
| OrderService.AddAllAppends | src/Services/OrderService/OrderService.Persistence/Services/OrderApplicationService.cs:29-32 | with positive quantities, non-negative prices and distinct products the loop never throws and appends one TRY line per request line |
| OrderService.CreationSucceeds | src/Services/OrderService/OrderService.Persistence/Services/OrderApplicationService.cs:21-63 | a creation with at least one acceptable line and Guid product ids succeeds; the order awaits its reservation, its lines are the request's, and its total is the TRY sum of price times quantity |
| OrderService.Inserted | src/Services/OrderService/OrderService.Persistence/Services/OrderApplicationService.cs:36-60 | the create transaction adds the order row, appends its lines after the existing ones, and appends exactly one unowned outbox row, the explicit event |
| OrderService.CreationSaved | src/Services/OrderService/OrderService.Persistence/Contexts/OrderContext.cs:26-82 | the create transaction commits exactly when the order row and every line row fit their varchar columns and the database reports nothing |
| OrderService.CreationRequestsOnce | src/Services/OrderService/OrderService.Persistence/Services/OrderApplicationService.cs:34-58 | a created order adds exactly one outbox row: the explicit StockReservationRequested on stock-events, with no owner, naming the key and the parsed items; the aggregate's own event, which names Guid.Empty, is not written |
| OrderService.CreationWithoutLinesFails | src/Services/OrderService/OrderService.Persistence/Services/OrderApplicationService.cs:34 | a request without lines fails with RequestStockReservation's exception |
| OrderService.CreationRejectsNonGuidProduct | src/Services/OrderService/OrderService.Persistence/Services/OrderApplicationService.cs:49 | a product id that Guid.Parse refuses fails the whole creation with a FormatException |
| OrderService.OrderApplicationService.constructor | src/Services/OrderService/OrderService.Persistence/Services/OrderApplicationService.cs:16-19 | the service works on the given database |
| OrderService.OrderApplicationService.AddRequestLines | src/Services/OrderService/OrderService.Persistence/Services/OrderApplicationService.cs:29-32 | the loop calls AddOrderLine on each request line, stops at the first exception, and otherwise leaves the order as AddAll says |
| OrderService.OrderApplicationService.CreateOrder | src/Services/OrderService/OrderService.Persistence/Services/OrderApplicationService.cs:21-71 | on an aggregate exception, a row that does not fit its columns or a failed save, no table changes and the reply is the 500 "Error creating order: " message; otherwise the tables become Inserted's and the reply is 201 with the order dto |
| OrderService.OrderApplicationService.GetOrderById | src/Services/OrderService/OrderService.Persistence/Services/OrderApplicationService.cs:73-90 | an unknown id gives the 404 reply; a known one gives the order dto as loaded, without lines |
| OrderService.OrderApplicationService.Transact | src/Services/OrderService/OrderService.Persistence/Services/OrderApplicationService.cs:158-172 | an absent order changes nothing; otherwise the tables become AfterCommand's and the outcome is the command run on the loaded order |
| OrderService.OrderApplicationService.UpdateOrder | src/Services/OrderService/OrderService.Persistence/Services/OrderApplicationService.cs:152-182 | the tables become AfterCommand's for the status's command; the reply is 404, the 500 error, or "Order updated successfully" with the dto |
| OrderService.OrderApplicationService.UpdateOrderStatus | src/Services/OrderService/OrderService.Persistence/Services/OrderApplicationService.cs:184-218 | as UpdateOrder, with "Error updating order status: " and "Order status updated successfully" |
| OrderService.OrderApplicationService.CancelOrder | src/Services/OrderService/OrderService.Persistence/Services/OrderApplicationService.cs:220-244 | the tables become AfterCommand's for CancelOrder; the reply is 404, the aggregate's exception as a 500 error, or "Order cancelled successfully" |
| OrderService.OrderApplicationService.ConfirmStockReservation | src/Services/OrderService/OrderService.Persistence/Services/OrderApplicationService.cs:274-298 | the tables become AfterCommand's for MarkStockReserved; the reply is 404, success exactly when the aggregate and the save both go through, and otherwise the 500 error with the exception's message |
| OrderService.OrderApplicationService.FailStockReservation | src/Services/OrderService/OrderService.Persistence/Services/OrderApplicationService.cs:300-324 | the tables become AfterCommand's for MarkStockReservationFailed(reason); the reply is 404, success exactly when the aggregate and the save both go through, and otherwise the 500 error with the exception's message |
| OrderService.OrderApplicationService.ConfirmOrder | src/Services/OrderService/OrderService.Persistence/Services/OrderApplicationService.cs:326-357 | the tables become AfterConfirm's: the included order is confirmed and only the events it appended are inserted; the reply succeeds exactly when neither the aggregate nor the save throws |
| OrderService.OrderApplicationService.Settle | src/Services/OrderService/OrderService.Persistence/Services/OrderApplicationService.cs:274-324 | an absent order gives 404 and no change; otherwise the tables become AfterCommand's and the reply is Settled's |
| OrderSaga.Unwrap | src/Services/OrderService/OrderService.Infrastructure/EventHandlers/StockEventHandler.cs:17-29 | the handler goes on exactly when the envelope, its Data and the payload are all present, and then with that payload |
| OrderSaga.ReservedReplyConfirmsOrder | src/Services/OrderService/OrderService.Infrastructure/EventHandlers/StockEventHandler.cs:34-43 | a StockReserved reply for an awaiting order whose stored lines exist and name Guids, when both saves commit, leaves it Confirmed with exactly one new OrderConfirmed row on order-events, owned by the order; when only the confirmation's save fails it stays StockReserved with no new row; the lines are untouched |
| OrderSaga.UnconfirmedReservedReplyChangesNothing | src/Services/OrderService/OrderService.Infrastructure/EventHandlers/StockEventHandler.cs:34-52 | a StockReserved reply whose reservation does not commit (the order no longer awaits it, its row does not fit, or the save fails) changes no table |
| OrderSaga.ReservedReplyIdempotent | src/Services/OrderService/OrderService.Infrastructure/EventHandlers/StockEventHandler.cs:11-59 | once a first StockReserved reply has committed its reservation, or found the order not awaiting one, handling it a second time changes nothing more |
| OrderSaga.FailedReplyRecordsReason | src/Services/OrderService/OrderService.Infrastructure/EventHandlers/StockEventHandler.cs:83-91 | a StockReservationFailed reply for an awaiting order sets StockReservationFailed and writes the payload's reason into the notes exactly when the row fits its columns and the save commits; otherwise no table changes |
| OrderSaga.RedeliveredFailedReplyChangesNothing | src/Services/OrderService/OrderService.Infrastructure/EventHandlers/StockEventHandler.cs:83-96 | a StockReservationFailed reply for an order that no longer awaits its reservation changes no table |
| OrderSaga.Received | src/Services/OrderService/OrderService.Infrastructure/EventHandlers/StockEventHandler.cs:114-141 | a published stock event reads back as a StockReserved or a StockReservationFailed payload according to its kind, with the same order id, the same reason and as many items |
| OrderSaga.FailedReservationReachesOrder | src/Services/OrderService/OrderService.Infrastructure/EventHandlers/StockEventHandler.cs:61-103 | when the stock side cannot reserve every item of an awaiting order, whichever of its saves failed, its reply leaves the order StockReservationFailed with the joined failures in its notes if that row fits and the save commits, and otherwise awaiting as before |
| OrderSaga.StockEventHandler.constructor | src/Services/OrderService/OrderService.Infrastructure/EventHandlers/StockEventHandler.cs:9 | the handler works through the given order service |
| OrderSaga.StockEventHandler.HandleStockReserved | src/Services/OrderService/OrderService.Infrastructure/EventHandlers/StockEventHandler.cs:11-59 | the tables become AfterReserved's; ConfirmStockReservationAsync is called exactly when the message unwraps, and ConfirmOrderAsync exactly when that call succeeded |
| OrderSaga.StockEventHandler.HandleStockReservationFailed | src/Services/OrderService/OrderService.Infrastructure/EventHandlers/StockEventHandler.cs:61-103 | the tables become AfterReservationFailed's; FailStockReservationAsync is called exactly when the message unwraps, and it succeeds exactly when the order awaited its reservation, the failed row fits its columns and the save commits |
| StockDomain.Available | src/Services/StockService/StockService.Domain/Entities/Stock.cs:11 | on a consistent row the available quantity is on-hand minus reserved, and never negative |
| StockDomain.CanReserveMeaning | src/Services/StockService/StockService.Domain/Entities/Stock.cs:28-31 | on a consistent row a reservation is allowed exactly when reserved plus the request stays within on-hand |
| StockDomain.ReserveKeepsConsistent | src/Services/StockService/StockService.Domain/Entities/Stock.cs:33-41 | a non-negative reservation that is allowed keeps the row consistent, adds exactly the request to the reserved quantity and takes it from the available quantity |
| StockDomain.ReleaseUndoesReserve | src/Services/StockService/StockService.Domain/Entities/Stock.cs:33-51 | releasing what was just reserved is allowed and gives back the exact row |
| StockDomain.ReleaseKeepsConsistent | src/Services/StockService/StockService.Domain/Entities/Stock.cs:43-51 | a release of at most the reserved quantity keeps the row consistent and lowers the reserved quantity by exactly that much |
| StockDomain.ConfirmKeepsConsistent | src/Services/StockService/StockService.Domain/Entities/Stock.cs:53-63 | confirming at most the reserved quantity keeps the row consistent, takes the units from on-hand and from reserved, and leaves the available quantity unchanged |
| StockDomain.NegativeReserveBreaksConsistency | src/Services/StockService/StockService.Domain/Entities/Stock.cs:33-41 | ReserveStock does not check the sign: a negative request is accepted and leaves a negative reserved quantity |
| StockDomain.Stock.constructor | src/Services/StockService/StockService.Domain/Entities/Stock.cs:19-26 | a new stock has the given product and quantity and nothing reserved |
| StockDomain.Stock.Load | src/Services/StockService/StockService.Domain/Entities/Stock.cs:5-9 | the entity holds exactly the stored row |
| StockDomain.Stock.AvailableQuantity | src/Services/StockService/StockService.Domain/Entities/Stock.cs:11 | the property is Available of the entity's row |
| StockDomain.Stock.CanReserveNow | src/Services/StockService/StockService.Domain/Entities/Stock.cs:28-31 | CanReserve compares the request with the available quantity |
| StockDomain.Stock.ReserveStock | src/Services/StockService/StockService.Domain/Entities/Stock.cs:33-41 | the call succeeds exactly when the request fits in the available quantity, and only then adds it to the reserved quantity |
| StockDomain.Stock.ReleaseReservation | src/Services/StockService/StockService.Domain/Entities/Stock.cs:43-51 | the call succeeds exactly when the reserved quantity covers the request, and only then takes it off the reserved quantity |
| StockDomain.Stock.ConfirmReservation | src/Services/StockService/StockService.Domain/Entities/Stock.cs:53-63 | the call succeeds exactly when the reserved quantity covers the request, and only then takes it off both on-hand and reserved |
| StockDomain.Stock.UpdateQuantity | src/Services/StockService/StockService.Domain/Entities/Stock.cs:65-72 | a quantity below the reserved amount throws and changes nothing; any other quantity replaces on-hand and nothing else |
| StockService.ProductOfStock | src/Services/StockService/StockService.Persistence/Services/StockApplicationService.cs:52 | the product key found for a stock id holds the row with that id |
| StockService.SaveKeepsCoherent | src/Shared/Shared.Kernel/Persistence/Repositories/EfRepositoryBase.cs:72-82 | adding or updating a row under its own product id, with the stock id it already had or a fresh one, keeps both the stored and the tracked table keyed by product with distinct stock ids, whatever the save outcome |
| StockService.CommitWritesTracked | src/Shared/Shared.Kernel/Persistence/Repositories/UnitOfWork.cs:83-90 | a failed save leaves the database as it was but the tracked row changed, exactly as a committed save would have changed it; a save that goes through writes every tracked row, including the changes of earlier failed saves in the scope |
| StockService.OnlyThatRow | src/Services/StockService/StockService.Persistence/Services/StockApplicationService.cs:231-329 | reserving, releasing and confirming, whatever their save outcome, add no row and never touch another product's tracked row; in a scope with nothing pending they also leave every other stored row alone |
| StockService.TableOperationsKeepConsistency | src/Services/StockService/StockService.Persistence/Services/StockApplicationService.cs:231-329 | with non-negative amounts, reserving, releasing and confirming keep every stored and every tracked row consistent, as ValidateStockAsync checks it, whatever their save outcome |
| StockService.StockApplicationService.constructor | src/Services/StockService/StockService.Persistence/Services/StockApplicationService.cs:13-15 | a new scope starts with nothing tracked apart from the table as stored, each row under its own product id |
| StockService.StockApplicationService.FindByStockId | src/Services/StockService/StockService.Persistence/Services/StockApplicationService.cs:52 | the lookup by stock id finds a row exactly when a stored row has that id, returns its product key, and GetAsync hands back the tracked instance of that row |
| StockService.StockApplicationService.CreateStock | src/Services/StockService/StockService.Persistence/Services/StockApplicationService.cs:17-45 | an existing product gives 409 and no change; otherwise a row with the request's quantity and nothing reserved is added to the tracked rows; a committed save writes it and replies 201 with it, a failed one leaves it pending and replies 500 "Error creating stock: " |
| StockService.StockApplicationService.GetStockById | src/Services/StockService/StockService.Persistence/Services/StockApplicationService.cs:47-64 | an unknown stock id gives 404 "Stock not found"; a known one gives the dto of that row's tracked values |
| StockService.StockApplicationService.GetStockByProductId | src/Services/StockService/StockService.Persistence/Services/StockApplicationService.cs:66-83 | an unknown product gives 404 "Stock not found for this product"; a known one gives the dto of its tracked values |
| StockService.StockApplicationService.ApplyQuantity | src/Services/StockService/StockService.Persistence/Services/StockApplicationService.cs:147-163 | a quantity below the tracked reserved amount gives 400 with the entity's message and no change; otherwise on-hand is replaced in that tracked row alone, written to the database when the save goes through, and a failed save gives the 500 error with the operation's prefix |
| StockService.StockApplicationService.UpdateStock | src/Services/StockService/StockService.Persistence/Services/StockApplicationService.cs:135-165 | an unknown stock id gives 404; otherwise the request's quantity is applied as ApplyQuantity says, with "Error updating stock: " and "Stock updated successfully" |
| StockService.StockApplicationService.UpdateStockQuantity | src/Services/StockService/StockService.Persistence/Services/StockApplicationService.cs:167-197 | an unknown stock id gives 404; otherwise the new quantity is applied, with "Error updating stock quantity: " and "Stock quantity updated successfully" |
| StockService.StockApplicationService.AddStockQuantity | src/Services/StockService/StockService.Persistence/Services/StockApplicationService.cs:199-229 | an unknown stock id gives 404; otherwise tracked on-hand plus the amount, in 32-bit wrap-around, is applied, with "Error adding stock quantity: " and "Stock quantity added successfully" |
| StockService.StockApplicationService.ReserveStock | src/Services/StockService/StockService.Persistence/Services/StockApplicationService.cs:231-271 | the store becomes ReserveIn's, so a failed save leaves the reservation on the tracked row; the reply is 404 for an unknown product, 400 "Insufficient stock available" when the request does not fit the tracked row, 500 "Error reserving stock: " when the save fails, and otherwise a reservation dto for the request |
| StockService.StockApplicationService.ReleaseReservation | src/Services/StockService/StockService.Persistence/Services/StockApplicationService.cs:273-300 | the store becomes ReleaseIn's; the reply is 404 for an unknown product, 400 when the tracked reserved quantity does not cover the request, 500 "Error releasing reservation: " when the save fails, and success otherwise |
| StockService.StockApplicationService.ConfirmReservation | src/Services/StockService/StockService.Persistence/Services/StockApplicationService.cs:302-329 | the store becomes ConfirmIn's; the reply is 404 for an unknown product, 400 when the tracked reserved quantity does not cover the request, 500 "Error confirming reservation: " when the save fails, and success otherwise |
| StockService.StockApplicationService.CheckStockAvailability | src/Services/StockService/StockService.Persistence/Services/StockApplicationService.cs:331-348 | the check succeeds exactly for a stored product, and then answers whether its tracked row admits the quantity |
| StockService.StockApplicationService.GetAvailableQuantity | src/Services/StockService/StockService.Persistence/Services/StockApplicationService.cs:350-366 | a stored product gives the available quantity of its tracked row, on-hand minus reserved when the row is consistent; an unknown one gives 404 |
| StockService.StockApplicationService.ValidateStock | src/Services/StockService/StockService.Persistence/Services/StockApplicationService.cs:368-388 | a known stock id gives whether its tracked row is consistent (nothing negative, no more reserved than on hand); an unknown one gives 404 |
| StockSaga.Results | src/Services/StockService/StockService.Infrastructure/EventHandlers/StockEventHandler.cs:31-70 | the first loop records one result per item, each judged on the tracked rows the earlier items left, failed saves included (RepeatedProductSeesTrackedRow) |
| StockSaga.SuccessfulOnly | src/Services/StockService/StockService.Infrastructure/EventHandlers/StockEventHandler.cs:168 | the filter keeps only successful results and never adds one |
| StockSaga.ReservedItems | src/Services/StockService/StockService.Infrastructure/EventHandlers/StockEventHandler.cs:94-99 | the StockReserved payload has one item per successful result |
| StockSaga.ResultItems | src/Services/StockService/StockService.Infrastructure/EventHandlers/StockEventHandler.cs:116-122 | the StockReservationFailed payload has one item per result, failed ones included |
| StockSaga.FailedDescriptions | src/Services/StockService/StockService.Infrastructure/EventHandlers/StockEventHandler.cs:109-110 | the failure reason joins one description per failed result: with the successful ones they account for every result |
| StockSaga.ReserveFailure | src/Services/StockService/StockService.Persistence/Services/StockApplicationService.cs:238-269 | the failure reason of an item not reserved: "Stock not found for this product", "Insufficient stock available" judged on the tracked row, or "Error reserving stock: " and the save's message when the item fits but its save failed |
| StockSaga.ResultsMatchItems | src/Services/StockService/StockService.Infrastructure/EventHandlers/StockEventHandler.cs:48-68 | result i names item i's product in Guid string form and its quantity, and a successful one reserved the whole quantity |
| StockSaga.SuccessfulOnlyAll | src/Services/StockService/StockService.Infrastructure/EventHandlers/StockEventHandler.cs:94 | when every result succeeded, the filter keeps them all |
| StockSaga.SuccessSurvivesFilter | src/Services/StockService/StockService.Infrastructure/EventHandlers/StockEventHandler.cs:168 | a successful result anywhere in the list leaves the filtered list non-empty |
| StockSaga.StockReservedListsEveryItem | src/Services/StockService/StockService.Infrastructure/EventHandlers/StockEventHandler.cs:72-101 | when every item is reserved, the StockReserved payload lists every item in order, with ReservedQuantity equal to Quantity |
| StockSaga.FilterKeepsRelease | src/Services/StockService/StockService.Infrastructure/EventHandlers/StockEventHandler.cs:166-175 | when every release commits, releasing only the successful results releases exactly what releasing them all would; the units held per product and releasability are the same |
| StockSaga.FilterKeepsReleaseResults | src/Services/StockService/StockService.Infrastructure/EventHandlers/StockEventHandler.cs:166-175 | when every release commits, releasing only the successful results leaves the same store as releasing every result |
| StockSaga.FilterKeepsReserved | src/Services/StockService/StockService.Infrastructure/EventHandlers/StockEventHandler.cs:168 | the filter keeps the units the results hold on each product |
| StockSaga.ReleasablePrefix | src/Services/StockService/StockService.Infrastructure/EventHandlers/StockEventHandler.cs:168-175 | every prefix of a releasable result list is releasable |
| StockSaga.FilterKeepsReleasable | src/Services/StockService/StockService.Infrastructure/EventHandlers/StockEventHandler.cs:168-175 | the filtered list of a releasable result list is releasable |
| StockSaga.CleanSavesCommit | src/Services/StockService/StockService.Infrastructure/EventHandlers/StockEventHandler.cs:166-183 | a list of save outcomes that all commit releases exactly what an empty list does |
| StockSaga.CleanSavesStrandNothing | src/Services/StockService/StockService.Infrastructure/EventHandlers/StockEventHandler.cs:41-69 | when every reservation save commits, no item is stranded |
| StockSaga.CleanReservesKeepInSync | src/Services/StockService/StockService.Infrastructure/EventHandlers/StockEventHandler.cs:41-69 | reservations whose saves all commit leave the database equal to the tracked rows |
| StockSaga.CleanReleasesKeepInSync | src/Services/StockService/StockService.Infrastructure/EventHandlers/StockEventHandler.cs:166-183 | releases whose saves all commit leave the database equal to the tracked rows |
| StockSaga.ReservedSnoc | src/Services/StockService/StockService.Infrastructure/EventHandlers/StockEventHandler.cs:48-54 | one more result adds its quantity to the units held on its product exactly when it succeeded |
| StockSaga.ReserveOneMore | src/Services/StockService/StockService.Infrastructure/EventHandlers/StockEventHandler.cs:41-69 | one more turn of the first loop applies that item's reservation to the store and appends its result |
| StockSaga.AllSucceededSnoc | src/Services/StockService/StockService.Infrastructure/EventHandlers/StockEventHandler.cs:27-61 | the all-reserved flag stays true after one more result exactly when that result succeeded |
| StockSaga.UnitsSnoc | src/Services/StockService/StockService.Infrastructure/EventHandlers/StockEventHandler.cs:41-69 | one more item adds its quantity to the units asked of its product |
| StockSaga.ReleasableSnoc | src/Services/StockService/StockService.Infrastructure/EventHandlers/StockEventHandler.cs:174 | a result naming a product of the table with a non-negative quantity keeps every successful result releasable |
| StockSaga.ReserveStepAccount | src/Services/StockService/StockService.Infrastructure/EventHandlers/StockEventHandler.cs:41-69 | reserving one more item, whatever its save outcome, keeps the accounting: the tracked row gains the quantity exactly when the reservation was admitted, and that quantity is held by its result or, when the save failed, stranded |
| StockSaga.ReserveAccount | src/Services/StockService/StockService.Infrastructure/EventHandlers/StockEventHandler.cs:31-70 | reserving the items, whichever saves fail, keeps every tracked row consistent and unchanged except its reserved quantity, which grows by what the successful results hold on it plus what the stranded items ask of it |
| StockSaga.ReleaseStepAccount | src/Services/StockService/StockService.Infrastructure/EventHandlers/StockEventHandler.cs:172-176 | releasing one more successful result takes exactly its quantity off the tracked row it names, whatever its save outcome |
| StockSaga.ReleaseStepRow | src/Services/StockService/StockService.Infrastructure/EventHandlers/StockEventHandler.cs:172-176 | after one more release, each tracked row is its starting row with exactly the released units taken off |
| StockSaga.ReleaseAccount | src/Services/StockService/StockService.Infrastructure/EventHandlers/StockEventHandler.cs:166-183 | releasing the results, whichever saves fail, lowers each tracked reserved quantity by exactly what they hold on it and changes nothing else |
| StockSaga.CommittedReleaseWritesAll | src/Services/StockService/StockService.Infrastructure/EventHandlers/StockEventHandler.cs:166-183 | when every release commits and the last result succeeded, the database ends equal to the tracked rows |
| StockSaga.StrandedUnitsNonNegative | src/Services/StockService/StockService.Infrastructure/EventHandlers/StockEventHandler.cs:41-69 | stranded items ask for no negative amount when the request asks for none |
| StockSaga.CompensationAccount | src/Services/StockService/StockService.Infrastructure/EventHandlers/StockEventHandler.cs:72-80 | after reserving and releasing, every tracked row is back to its start except for the units of the stranded items |
| StockSaga.ReleaseRestoresTable | src/Services/StockService/StockService.Infrastructure/EventHandlers/StockEventHandler.cs:72-80 | compensation: the successful reservations are given back on every tracked row, but the units of items whose reservation save failed stay reserved; when every release commits and some item succeeded, the database receives those tracked rows; when every save commits, the store is exactly as it was, even when a product repeats |
| StockSaga.LeakRun | src/Services/StockService/StockService.Infrastructure/EventHandlers/StockEventHandler.cs:31-70 | in the leak example, a is reserved, b's save fails and its 3 units are stranded, and x is not found |
| StockSaga.StrandedUnitsWritten | src/Services/StockService/StockService.Infrastructure/EventHandlers/StockEventHandler.cs:72-80 | when every release commits and some item was reserved, the database after compensation holds the starting rows with the stranded units still reserved |
| StockSaga.FailedSaveLeaksReservation | src/Services/StockService/StockService.Infrastructure/EventHandlers/StockEventHandler.cs:72-80 | a concrete leak: 2 of a, 3 of b and 1 of a missing product, with only b's save failing; releasing a writes b's tracked reservation, so 3 units of b stay reserved in the database for a refused order |
| StockSaga.RepeatedProductSeesTrackedRow | src/Services/StockService/StockService.Infrastructure/EventHandlers/StockEventHandler.cs:41-69 | two requests for 6 of a product holding 10: the first save fails, yet the second is refused with "Insufficient stock available" because the tracked row still holds the first reservation |
| StockSaga.ConfirmTrackedKeepsAvailable | src/Services/StockService/StockService.Infrastructure/EventHandlers/StockEventHandler.cs:142-157 | confirming non-negative lines, whichever confirmations fail to save, keeps every tracked row consistent with its available quantity unchanged |
| StockSaga.ConfirmStoredWasTracked | src/Services/StockService/StockService.Infrastructure/EventHandlers/StockEventHandler.cs:142-157 | from a scope with nothing pending, the database after the confirmations holds the tracked rows of some point of the loop |
| StockSaga.ConfirmAllKeepsAvailable | src/Services/StockService/StockService.Infrastructure/EventHandlers/StockEventHandler.cs:142-157 | confirming non-negative lines, whichever confirmations fail to save, keeps every tracked row, and from a scope with nothing pending every stored row, consistent with its available quantity unchanged |
| StockSaga.ConfirmCommitWritesEarlier | src/Services/StockService/StockService.Infrastructure/EventHandlers/StockEventHandler.cs:142-157 | which confirmations fail to save does not change the tracked rows; when the last line is confirmed and its save commits, the database receives every tracked change, earlier failed confirmations included |
| StockSaga.FailedConfirmWrittenByNextSave | src/Services/StockService/StockService.Infrastructure/EventHandlers/StockEventHandler.cs:142-157 | a concrete case: confirming 2 of a and 3 of b, each holding 10 with 5 reserved, with the first save failing, leaves both deductions in the database |
| StockSaga.StockEventHandler.constructor | src/Services/StockService/StockService.Infrastructure/EventHandlers/StockEventHandler.cs:9-13 | the handler starts with nothing published |
| StockSaga.StockEventHandler.HandleStockReservationRequested | src/Services/StockService/StockService.Infrastructure/EventHandlers/StockEventHandler.cs:14-128 | a null event changes nothing; when every item is reserved the store keeps the reservations and StockReserved is published; otherwise the successful ones are released and StockReservationFailed is published with the joined failures and every result; in both cases the store, tracked rows included, is that of the two loops over one scope; a publish that throws is rethrown, delivers nothing and keeps the stock changes |
| StockSaga.StockEventHandler.ReserveItems | src/Services/StockService/StockService.Infrastructure/EventHandlers/StockEventHandler.cs:27-70 | the loop reserves every item in order in one scope without stopping at a failure; the store is ReserveAll's, the results are Results' and the flag says whether all succeeded |
| StockSaga.StockEventHandler.ReserveItem | src/Services/StockService/StockService.Infrastructure/EventHandlers/StockEventHandler.cs:33-69 | one item is reserved as ReserveStockAsync does, and the result entry records success, or the failure message, the save's 500 message included |
| StockSaga.StockEventHandler.ReleaseSuccessfulReservations | src/Services/StockService/StockService.Infrastructure/EventHandlers/StockEventHandler.cs:166-183 | each successful result is released with its own quantity, in order, in the same scope, so a failed release stays on the tracked row for the next save |
| StockSaga.StockEventHandler.HandleOrderConfirmed | src/Services/StockService/StockService.Infrastructure/EventHandlers/StockEventHandler.cs:130-164 | a null event changes nothing; otherwise each line's reservation is confirmed in order in one scope, past any failure, and a failed confirmation is written by the next save that goes through |
| NotificationDomain.EmailRow | src/Services/NotificationService/NotificationService.Domain/Entities/Notification.cs:34-35 | a new e-mail notification is Created on the Email channel with the recipient, subject and body, no text, no attempts, no error and no send time |
| NotificationDomain.SmsRow | src/Services/NotificationService/NotificationService.Domain/Entities/Notification.cs:37-38 | a new SMS notification is Created on the Sms channel with the recipient and text, no subject or body, no attempts, no error and no send time |
| NotificationDomain.MarksIgnorePriorStatus | src/Services/NotificationService/NotificationService.Domain/Entities/Notification.cs:40-72 | every status method reaches its target status from any status, keeps identity, channel, recipient and content, and stamps UpdatedAt |
| NotificationDomain.AttemptBookkeeping | src/Services/NotificationService/NotificationService.Domain/Entities/Notification.cs:52-72 | only MarkFailed counts an attempt, by exactly one; MarkFailed and MarkUndeliverable record the error; only MarkDelivered stamps the send time |
| NotificationDomain.IncrementAttemptOnlyCounts | src/Services/NotificationService/NotificationService.Domain/Entities/Notification.cs:74-78 | IncrementAttempt raises AttemptCount by one and changes nothing but UpdatedAt |
| NotificationDomain.Notification.Load | src/Services/NotificationService/NotificationService.Domain/Entities/Notification.cs:20-23 | the entity holds exactly the stored row |
| NotificationDomain.Notification.Email | src/Services/NotificationService/NotificationService.Domain/Entities/Notification.cs:34-35 | the factory builds the entity whose row is EmailRow's |
| NotificationDomain.Notification.Sms | src/Services/NotificationService/NotificationService.Domain/Entities/Notification.cs:37-38 | the factory builds the entity whose row is SmsRow's |
| NotificationDomain.Notification.MarkCreated | src/Services/NotificationService/NotificationService.Domain/Entities/Notification.cs:40-44 | the row becomes Created and is stamped now |
| NotificationDomain.Notification.MarkQueued | src/Services/NotificationService/NotificationService.Domain/Entities/Notification.cs:46-50 | the row becomes Queued and is stamped now |
| NotificationDomain.Notification.MarkDelivered | src/Services/NotificationService/NotificationService.Domain/Entities/Notification.cs:52-57 | the row becomes Delivered with its send time and UpdatedAt set to now |
| NotificationDomain.Notification.MarkUndeliverable | src/Services/NotificationService/NotificationService.Domain/Entities/Notification.cs:59-64 | the row becomes Undeliverable with the error recorded |
| NotificationDomain.Notification.MarkFailed | src/Services/NotificationService/NotificationService.Domain/Entities/Notification.cs:66-72 | the row becomes Failed with the error recorded and one more attempt |
| NotificationDomain.Notification.IncrementAttempt | src/Services/NotificationService/NotificationService.Domain/Entities/Notification.cs:74-78 | the row gains one attempt and is stamped now |
| NotificationPersistence.NotificationDatabase.constructor | src/Services/NotificationService/NotificationService.Persistence/Contexts/NotificationContext.cs:9-10 | the notification database starts with no notifications and an empty outbox |
| NotificationPersistence.MapToDtoLosesNothing | src/Services/NotificationService/NotificationService.Persistence/Services/NotificationService.cs:194-211 | MapToDto copies every column: two notifications have the same dto exactly when they are the same row |
| NotificationPersistence.CreateSmsAnnouncesNotification | src/Services/NotificationService/NotificationService.Persistence/Services/NotificationService.cs:23-43 | a committed SMS creation adds one Created SMS notification with the request's text, and appends one fresh notification.sms row on notification-events announcing it with an empty subject; the reply is 201 with its dto |
| NotificationPersistence.CreateEmailAnnouncesNotification | src/Services/NotificationService/NotificationService.Persistence/Services/NotificationService.cs:54-74 | a committed e-mail creation adds one Created e-mail notification and appends one fresh notification.email row on notification-events carrying the subject and body; the reply is 201 |
| NotificationPersistence.NotFound | src/Services/NotificationService/NotificationService.Persistence/Services/NotificationService.cs:91 | an unknown notification gives a 404 failure, worded "Order with ID … not found" as the source words it |
| NotificationPersistence.Lookup | src/Services/NotificationService/NotificationService.Persistence/Services/NotificationService.cs:85-100 | the lookup succeeds exactly for a stored notification, with its dto and status 200; otherwise 404 without data |
| NotificationPersistence.StatusApplied | src/Services/NotificationService/NotificationService.Persistence/Services/NotificationService.cs:150-167 | the switch gives the notification the requested status and leaves its identity, channel, recipient and content alone |
| NotificationPersistence.StatusUpdateMeaning | src/Services/NotificationService/NotificationService.Persistence/Services/NotificationService.cs:141-182 | the status update succeeds exactly when the notification exists and the save reports rows; it then holds the requested status, nothing else in the table changes; otherwise the table is unchanged, with 404 for an unknown id and 500 for a save that reports nothing or throws |
| NotificationPersistence.EmptyQueryMatchesAll | src/Services/NotificationService/NotificationService.Persistence/Services/NotificationService.cs:184-192 | a query with no filter, or an empty recipient, admits every notification |
| NotificationPersistence.DroppingFiltersWidens | src/Services/NotificationService/NotificationService.Persistence/Services/NotificationService.cs:184-192 | removing any one filter never excludes a notification the query admitted |
| NotificationPersistence.DateBoundsInclusive | src/Services/NotificationService/NotificationService.Persistence/Services/NotificationService.cs:190-191 | both date bounds are inclusive: a notification is admitted exactly when its CreatedAt lies between them |
| NotificationPersistence.NotificationService.constructor | src/Services/NotificationService/NotificationService.Persistence/Services/NotificationService.cs:17-21 | the service works on the given database |
| NotificationPersistence.NotificationService.Create | src/Services/NotificationService/NotificationService.Persistence/Services/NotificationService.cs:29-50 | on a committed save the tables gain the notification and one fresh outbox row; on a failed one nothing changes; the reply is CreationReply's |
| NotificationPersistence.NotificationService.CreateSms | src/Services/NotificationService/NotificationService.Persistence/Services/NotificationService.cs:23-52 | as Create, for the SMS notification built from the request and its notification.sms payload |
| NotificationPersistence.NotificationService.CreateEmail | src/Services/NotificationService/NotificationService.Persistence/Services/NotificationService.cs:54-83 | as Create, for the e-mail notification built from the request and its notification.email payload |
| NotificationPersistence.NotificationService.GetNotificationById | src/Services/NotificationService/NotificationService.Persistence/Services/NotificationService.cs:85-100 | the reply is Lookup's on the current table |
| NotificationPersistence.NotificationService.UpdateNotificationStatus | src/Services/NotificationService/NotificationService.Persistence/Services/NotificationService.cs:141-182 | the notifications table becomes StatusUpdated's, the outbox is untouched, and the reply is StatusReply's |
| NotificationSenders.SendMeaning | src/Services/NotificationService/NotificationService.Infrastructure/Services/EmailSenderService.cs:17-55 | a send succeeds exactly when the notification exists on the sender's channel, is not yet Delivered, and the status update saves; it is then Delivered with its send time stamped and its content unchanged; a send that fails changes nothing |
| NotificationSenders.SecondSendFails | src/Services/NotificationService/NotificationService.Infrastructure/Services/EmailSenderService.cs:49 | once a send has succeeded, every later send of that notification fails with "Notification not found or invalid type" and changes nothing |
| NotificationSenders.WrongChannelRefused | src/Services/NotificationService/NotificationService.Infrastructure/Services/SmsSenderService.cs:50 | a sender refuses a notification of the other channel and leaves the table as it was |
| NotificationSenders.Send | src/Services/NotificationService/NotificationService.Infrastructure/Services/EmailSenderService.cs:21-37 | the notifications table becomes AfterSend's, the outbox is untouched, and the reply is SendReply's |
| NotificationSenders.EmailSenderService.constructor | src/Services/NotificationService/NotificationService.Infrastructure/Services/EmailSenderService.cs:11-15 | the sender works through the given notification service |
| NotificationSenders.EmailSenderService.SendNotification | src/Services/NotificationService/NotificationService.Infrastructure/Services/EmailSenderService.cs:17-45 | the e-mail send on the Email channel, replying "EMAIL sent successfully" on success |
| NotificationSenders.SmsSenderService.constructor | src/Services/NotificationService/NotificationService.Infrastructure/Services/SmsSenderService.cs:12-16 | the sender works through the given notification service |
| NotificationSenders.SmsSenderService.SendNotification | src/Services/NotificationService/NotificationService.Infrastructure/Services/SmsSenderService.cs:18-46 | the SMS send on the Sms channel, replying "SMS sent successfully" on success |
| OperationResults.CreateError | src/Shared/Shared.Kernel/Application/OperationResults/ErrorResult.cs:21-29 | the error list starts with the given message, gets the exception's message appended only when there is an exception, and keeps the isShow flag |
| OperationResults.FailMessage | src/Shared/Shared.Kernel/Application/OperationResults/OperationResult.cs:46-55 | a result made from a failure message is unsuccessful, reports that message, keeps the status code, and its error list is exactly that message |
| OperationResults.FailWithMessage | src/Shared/Shared.Kernel/Application/OperationResults/OperationResult.cs:10-22 | a failure built from an ErrorResult reports its own message when it has one, and otherwise the first error, or "" when the list is empty |
| OperationResults.SuccessMessage | src/Shared/Shared.Kernel/Application/OperationResults/OperationResult.cs:73-81 | a success reports the message it was given, even an empty one, with or without data |
| ValidationErrors.Entries | src/Shared/Shared.Kernel/Common/Exceptions/ValidationException.cs:34-36 | there is one block per property error, in order, and each is that property's block |
| ValidationErrors.FromErrors | src/Shared/Shared.Kernel/Common/Exceptions/ValidationException.cs:25-30 | the exception keeps the error list, and its message starts with "Validation failed: " |
| ValidationErrors.FromMessage | src/Shared/Shared.Kernel/Common/Exceptions/ValidationException.cs:7-23 | the message-only constructors carry no property errors; a given message is kept, and the parameterless one or a null message carries the runtime's default "Exception of type … was thrown." text |
| ValidationErrors.BuildErrorMessageSnoc | src/Shared/Shared.Kernel/Common/Exceptions/ValidationException.cs:32-38 | one more property error appends exactly its block (new line, " -- ", property, ": ", its messages one per line, none when null) to the message |
| ValidationErrors.BuildErrorMessageEmpty | src/Shared/Shared.Kernel/Common/Exceptions/ValidationException.cs:37 | with no errors the message is the bare "Validation failed: " |
| Paging.PageCount | src/Shared/Shared.Kernel/Application/OperationResults/Paging/IPaginate.cs:30 | with a positive size, Pages is the least number of pages that hold Count items: zero exactly when there are no items |
| Paging.Skip | src/Shared/Shared.Kernel/Application/OperationResults/Paging/IPaginate.cs:44 | skipping drops the first n items, clamped to the list, and a negative n drops none |
| Paging.Take | src/Shared/Shared.Kernel/Application/OperationResults/Paging/IPaginate.cs:44 | taking keeps the first n items, clamped to the list, and a negative n keeps none |
| Paging.Create | src/Shared/Shared.Kernel/Application/OperationResults/Paging/IPaginate.cs:17-48 | throws ArgumentException with the From/Index message exactly when From > Index; otherwise it records position, size and the total count, and its items are the converted page at offset (Index - From) * Size, computed in 32-bit wrap-around |
| Paging.PageSlice | src/Shared/Shared.Kernel/Application/OperationResults/Paging/IPaginate.cs:44 | with a positive size and k·size within int, the page holds the source slice from k·size to k·size + size, each cut to the source, where k = Index - From |
| Paging.HasNextIffMore | src/Shared/Shared.Kernel/Application/OperationResults/Paging/IPaginate.cs:76 | while Index - From + 1 fits in int, HasNext holds exactly when some source item lies beyond the current page |
| Paging.HasPreviousIffPast | src/Shared/Shared.Kernel/Application/OperationResults/Paging/IPaginate.cs:74 | while Index - From fits in int, HasPrevious holds exactly when Index is past From |
| Paging.FarPageWrapsToStart | src/Shared/Shared.Kernel/Application/OperationResults/Paging/IPaginate.cs:44 | page 21474837 of size 100 wraps to a negative offset, so on a five-item source it holds all five items instead of none |
| Paging.MinFromHasNoPrevious | src/Shared/Shared.Kernel/Application/OperationResults/Paging/IPaginate.cs:74 | with From = int.MinValue, Index - From wraps negative, so a page past From has no previous page |
| Paging.Empty | src/Shared/Shared.Kernel/Application/OperationResults/Paging/IPaginate.cs:81-84 | the empty page has no items, counts and sizes of zero, and neither a previous nor a next page |
| Paging.From | src/Shared/Shared.Kernel/Application/OperationResults/Paging/IPaginate.cs:51-60 | the new page keeps Index, Size, From, Count and Pages, and its items are the converter applied to the old items |
| Paging.MapItems | src/Shared/Shared.Kernel/Application/OperationResults/Paging/IPaginate.cs:101 | the mapped list has the same length and each item is the mapper applied to the item at the same position |
| Paging.Map | src/Shared/Shared.Kernel/Application/OperationResults/Paging/IPaginate.cs:98-102 | mapping keeps the page's position and counts and maps each item in place |
| Paging.MapCompose | src/Shared/Shared.Kernel/Application/OperationResults/Paging/IPaginate.cs:98-102 | mapping twice equals mapping once with the composed function |
| Paging.MapAsync | src/Shared/Shared.Kernel/Application/OperationResults/Paging/IPaginate.cs:107-118 | the item-by-item loop builds the same page as Map |
| Text.JoinSnoc | src/Services/StockService/StockService.Infrastructure/EventHandlers/StockEventHandler.cs:110 | joining one more part appends exactly the separator and that part |
| Text.TrimStartSlice | src/Services/OrderService/OrderService.Domain/Entities/Order.cs:109 | trimming the start drops the leading run of trim characters and nothing more |
| Text.TrimEndSlice | src/Services/OrderService/OrderService.Domain/Entities/Order.cs:109 | trimming the end drops the trailing run of trim characters and nothing more |
| Text.TrimIsSlice | src/Services/OrderService/OrderService.Domain/Entities/Order.cs:109 | Trim gives the middle slice of the string: only trim characters lie outside it, and it neither starts nor ends with one |
| Text.TrimStartDropsPrefix | src/Services/OrderService/OrderService.Domain/Entities/Order.cs:109 | a prefix of trim characters in front of a kept character is removed entirely |
| Text.TrimEndKeeps | src/Services/OrderService/OrderService.Domain/Entities/Order.cs:109 | a string that ends in a kept character loses nothing at its end |
| Text.Utf16Length | src/Services/OrderService/OrderService.Application/Validations/CreateOrderRequestValidator.cs:13 | string.Length counts at least one and at most two code units per character |
| Text.Utf16LengthCountsPairs | src/Services/OrderService/OrderService.Application/Validations/CreateOrderLineRequestValidator.cs:13 | string.Length equals the character count exactly when no character lies beyond U+FFFF |
| Validators.ValidPriceIsExactMoney | src/Services/OrderService/OrderService.Application/Validations/CreateOrderLineRequestValidator.cs:28-34 | a price the validator admits becomes TRY Money with no rounding, strictly between 0 and 1,000,000 |
| Validators.ValidRequestLinesAcceptable | src/Services/OrderService/OrderService.Application/Validations/CreateOrderRequestValidator.cs:24-37 | an admitted order request has at least one line, positive quantities, non-negative prices and pairwise distinct product ids, so order creation merges no lines |
| Validators.ValidatorAdmitsNonGuidProduct | src/Services/OrderService/OrderService.Application/Validations/CreateOrderLineRequestValidator.cs:10-14 | the validator admits a product id that Guid.Parse refuses, so order creation can still fail on it |
| Validators.StockQuantityBounds | src/Services/StockService/StockService.Application/Validations/CreateStockRequestValidator.cs:10-18 | for every quantity, creating a stock of a non-empty product or setting a stock's quantity is admitted exactly when the quantity is between 0 and 1,000,000; Guid.Empty is never admitted |
| Validators.ValidReserveKeepsConsistent | src/Services/StockService/StockService.Application/Validations/ReserveStockRequestValidator.cs:10-22 | an admitted reservation asks for a positive amount, so when it fits it raises the reserved quantity and keeps the stock row consistent |
| Validators.StockQueryFilters | src/Services/StockService/StockService.Application/Validations/StockQueryParametersValidator.cs:10-33 | absent quantity filters impose nothing, and present ones are admitted exactly when 0 ≤ min ≤ max |
| Validators.ValidRecipientShape | src/Services/NotificationService/NotificationService.Application/Validators/NotificationSmsCreateModelValidator.cs:10-17 | an admitted recipient is an optional '+', a digit 1-9 and further ASCII digits, 8 to 15 digits in all, possibly followed by one line feed |
| Validators.PhonePatternAcceptsExample | src/Services/NotificationService/NotificationService.Application/Validators/NotificationSmsCreateModelValidator.cs:17-18 | the number in the validator's own example message matches the pattern |
| Validators.LeadingZeroRefused | src/Services/NotificationService/NotificationService.Application/Validators/NotificationSmsCreateModelValidator.cs:17 | any number whose first digit, after an optional '+', is zero is refused |
| Validators.NonDigitRefused | src/Services/NotificationService/NotificationService.Application/Validators/NotificationSmsCreateModelValidator.cs:17 | any character other than an ASCII digit is refused, except a leading '+' and a final line feed |

## Left out

- I/O is outside the model. This covers RabbitMQ publishing and consuming, JSON serialisation, the logger, console output, HTTP controllers and the hosted-service timers. What the model keeps of them is their outcome, as parameters: `saved`/`saves` for each save and commit, `publishFault` and `outcomes` for each publication, new Guids and the clock.
- Concurrency is outside the model. Every handler and dispatcher cycle runs alone against the tables, so the saga properties are sequential.
- The list queries are not modelled: `GetOrdersAsync`, `GetOrdersByCustomerIdAsync`, `GetOrdersByStatusAsync`, `GetStocksAsync`, `GetAvailableStocksAsync`, `GetNotificationsByRecipientAsync` and `GetNotificationsAsync`. They are read-only projections through the generic repository. Only the notification `Build` filter that `GetNotificationsAsync` uses is modelled.
- The e-mail request validator and the order and notification query-parameter validators are not part of this model. The query-parameter validators read `DateTime.UtcNow`.
- The e-mail and SMS senders' catch branch is not reachable in the model. Nothing inside their try block throws there. In the source that branch replies Fail with the success text ("EMAIL sent successfully").
- The null-argument guards of the constructors, and null request objects, are not modelled. Every reference in the model is non-null.
- Stock `CreatedAt`/`UpdatedAt` are not columns of `StockRow`. No stock property depends on them.
- `ReserveStockAsync`'s "Failed to reserve stock" branch is omitted. It is unreachable, because `ReserveStock` fails only when `CanReserve` is false, and the service has already checked that.
- The ORM's column mapping ignores `TotalAmount` and `OrderLine.UnitPrice`. The model keeps both in the tables, as the tracked entities hold them. What a fresh database load returns for those two columns is not modelled.
- A JSON payload that fails to deserialise is modelled as an absent message. The exception text the deserialiser would log is not kept.
- `Guid.Parse` is modelled on the 36-character "D" form only. The other accepted formats (N, B, P, X, surrounding white space) are not part of this model.
- The phone pattern's `\d` is read as the ASCII digits. .NET's `\d` also admits other Unicode decimal digits.
- Times are unbounded tick counts. DateTime's range and its overflow on `AddMinutes` are not modelled.
- `OrderBy(OccurredOn)` is modelled through `IsOldestBatch`: a batch is any choice of the oldest eligible rows, and among rows with equal timestamps it accepts any order, as the database may return them in any order. Which of the tied rows the database picks is not modelled.
- Monies.Div: the .NET `decimal` quotient is first rounded to 28 significant digits, then to two places by `Money`'s constructor. The model divides exactly and rounds once.
- Monies.Mul: a product beyond `decimal`'s 96-bit range throws OverflowException in .NET. The model's integers are unbounded.
- Paging.Create: requires a non-zero page size. With size 0 the source computes `Pages` from a division by zero in `double` and converts the infinity or NaN to `int`.
- Paging.PageCount: requires a non-zero size, for the same reason.
- OrderService.OrderApplicationService.CreateOrder: requires that the new order's Guid is not already a key of the orders table. `Guid.NewGuid()` gives that with overwhelming probability, but it is not a guarantee.
- NotificationPersistence.NotificationService.CreateSms: requires that the new notification's Guid is not already in the table, as for orders.
- NotificationPersistence.NotificationService.CreateEmail: requires that the new notification's Guid is not already in the table, as for orders.
- StockService.StockApplicationService.CreateStock: requires that the new stock's Guid is not the id of an existing row, as for orders.
- StockService.Store: `saved` = Some stands for `SaveChangesAsync` throwing. A commit that fails after a successful `SaveChangesAsync` is not modelled: there the tracker has already accepted the change while the database rolls it back.
- StockService.StockApplicationService.CreateStock: a second create of the same product in a scope whose first create failed would leave two Added entities, and the next save would fail on the unique product index. The model keeps one tracked row per product, the later one. No caller makes two creates in one scope.
- Paging.Empty: `Paginate<T>`, the type whose parameterless constructor `Empty` calls, is not part of this model. The page is taken with every number at its default 0 and no items.
- Guids.Parse: every refused string gives one FormatException text, "Unrecognized Guid format.". .NET picks the text by the kind of failure, for example an invalid character or a misplaced dash in a 36-character string. Those per-kind texts are not part of this model, so the 500 reply of a creation with such a product id carries the generic text.
- The length rules of the validators count UTF-16 code units (`Text.Utf16Length`), as `string.Length` does. The varchar limits of the order tables count characters, as PostgreSQL does. How .NET's regex engine treats the two halves of a surrogate pair is not modelled.
- StockService.StockApplicationService.ApplyQuantity: an `InvalidOperationException` thrown by the database during the save (rather than by the entity) would reach the first catch block and give a 400 reply with its bare message. The model gives every save failure the 500 reply with the operation's prefix.
- Paging.PageSlice: holds only while (Index - From) * Size fits in `int`. Past that the offset wraps; `FarPageWrapsToStart` shows the result.
- Paging.HasNextIffMore: holds only while Index - From + 1 fits in `int`. HasPreviousIffPast likewise needs Index - From to fit; `MinFromHasNoPrevious` shows the wrap.
- Paging.Create: `Count` is the length of the source as an unbounded number. A source longer than `int.MaxValue` items, which .NET cannot hold in the array `ToArray` builds, is not modelled.
- OrderSaga.ReservedReplyIdempotent: requires that the first reply's reservation committed, or that the order was not awaiting one. After a first reply whose save failed, a second delivery can still confirm the order, which is what redelivery is for.
