/**
 * StockApplicationService: the stock service's operations over its Stocks
 * table. The table is keyed by ProductId, which carries a unique index.
 *
 * One DI scope (one HTTP request, or one consumed message) shares one
 * StockContext between all its calls, and that context tracks every entity
 * it has loaded or added. A write changes the tracked entity, marks it
 * Modified (or Added) and calls SaveChangesAsync in a transaction of its own.
 * `saved` is that save's outcome: None when the save and the commit go
 * through, Some(message) when SaveChangesAsync throws. The catch block then
 * rolls the database transaction back and replies "<prefix><message>" with
 * status 500 (the prefixes are the constants below), but the entity stays
 * Modified with its new values: the next save of the scope that goes through
 * writes it, and a later query for that row returns the tracked instance.
 * `Store` holds both sides. The stock rows have no length-limited columns, so
 * no input of these operations makes a save fail by itself: a fault is the
 * database's.
 */
module StockService {
  import opened Wrappers
  import opened Int32s
  import opened OperationResults
  import opened StockDomain
  import Guids

  const ConfirmFailed: string := "Failed to confirm reservation"
  const ReleaseFailed: string := "Failed to release reservation"
  const ReserveFailed: string := "Failed to reserve stock"
  const InsufficientStock: string := "Insufficient stock available"
  const ConfirmSucceeded: string := "Reservation confirmed successfully"
  const ReleaseSucceeded: string := "Reservation released successfully"
  const AlreadyExists: string := "Stock already exists for this product"
  const CreateSucceeded: string := "Stock created successfully"
  const StockNotFound: string := "Stock not found"
  const AddSucceeded: string := "Stock quantity added successfully"
  const QuantityUpdateSucceeded: string := "Stock quantity updated successfully"
  const ReserveSucceeded: string := "Stock reserved successfully"
  const UpdateSucceeded: string := "Stock updated successfully"
  const CreateStockError: string := "Error creating stock: "
  const UpdateError: string := "Error updating stock: "
  const QuantityUpdateError: string := "Error updating stock quantity: "
  const AddError: string := "Error adding stock quantity: "
  const ReserveError: string := "Error reserving stock: "
  const ReleaseError: string := "Error releasing reservation: "
  const ConfirmError: string := "Error confirming reservation: "

  type StockTable = map<Guids.Guid, StockRow>

  datatype StockDto = StockDto(id: Guids.Guid, productId: Guids.Guid, quantity: Int32, reservedQuantity: Int32, availableQuantity: Int32)

  datatype CreateStockRequest = CreateStockRequest(productId: Guids.Guid, quantity: Int32)

  datatype UpdateStockRequest = UpdateStockRequest(quantity: Int32)

  datatype ReserveStockRequest = ReserveStockRequest(productId: Guids.Guid, quantity: Int32, orderId: Guids.Guid)

  datatype StockReservationDto = StockReservationDto(
    id: Guids.Guid, productId: Guids.Guid, orderId: Guids.Guid, reservedQuantity: Int32, reservationDate: int, isConfirmed: bool)

  function ToDto(s: StockRow): StockDto
  {
    StockDto(s.id, s.productId, s.quantity, s.reservedQuantity, Available(s))
  }

  /**
   * The Stocks table of one scope: `stored` is what the database holds,
   * `tracked` what the scope's entities hold. A row the scope has not changed
   * is the same on both sides; a row added by a failed save is tracked but not
   * stored.
   */
  datatype Store = Store(stored: StockTable, tracked: StockTable)
  {
    /**
     * GetAsync by product id: the query runs against the database, and a row
     * it finds comes back as the scope's tracked instance, with the values the
     * scope gave it.
     */
    function Find(p: Guids.Guid): Option<StockRow>
    {
      if p in stored && p in tracked then Some(tracked[p]) else None
    }

    /**
     * UpdateAsync or AddAsync of `row` under `p`, then SaveChangesAsync with
     * outcome `saved`: the tracked entity holds `row` either way, and a save
     * that goes through writes every tracked change of the scope.
     */
    function Save(p: Guids.Guid, row: StockRow, saved: Option<string>): Store
    {
      var t := tracked[p := row];
      Store(if saved.None? then t else stored, t)
    }
  }

  /** Nothing is waiting to be written: a new scope, or one whose last change was saved. */
  predicate InSync(s: Store)
  {
    s.stored == s.tracked
  }

  /** No row is waiting to be inserted: the scope tracks exactly the stored products. */
  predicate NoneAdded(s: Store)
  {
    s.stored.Keys == s.tracked.Keys
  }

  /** Every row sits under its own product id, and no two rows share a stock id. */
  ghost predicate WellKeyed(t: StockTable)
  {
    && (forall p | p in t :: t[p].productId == p)
    && (forall p, p' | p in t && p' in t && p != p' :: t[p].id != t[p'].id)
  }

  /** Both sides are well keyed, every stored row is tracked, and a tracked row keeps its stock id. */
  ghost predicate Coherent(s: Store)
  {
    && WellKeyed(s.stored) && WellKeyed(s.tracked)
    && s.stored.Keys <= s.tracked.Keys
    && forall p | p in s.stored :: s.tracked[p].id == s.stored[p].id
  }

  /** Every row passes ValidateStockAsync. */
  ghost predicate AllConsistent(t: StockTable)
  {
    forall p | p in t :: Consistent(t[p])
  }

  predicate HasStockId(t: StockTable, stockId: Guids.Guid)
  {
    exists p | p in t :: t[p].id == stockId
  }

  /** The product whose row has this stock id. */
  ghost function ProductOfStock(t: StockTable, stockId: Guids.Guid): (p: Guids.Guid)
    requires HasStockId(t, stockId)
    ensures p in t && t[p].id == stockId
  {
    var p :| p in t && t[p].id == stockId; p
  }

  /** Saving a row under its own product id, keeping the stock id of a stored row or taking one no other row has, keeps a store coherent. */
  lemma SaveKeepsCoherent(s: Store, p: Guids.Guid, row: StockRow, saved: Option<string>)
    requires Coherent(s) && row.productId == p
    requires p in s.stored ==> row.id == s.tracked[p].id
    requires forall k | k in s.tracked && k != p :: s.tracked[k].id != row.id
    ensures Coherent(s.Save(p, row, saved))
  {
  }

  /** ReserveStockAsync finds the product and its tracked values admit the request. */
  predicate CanReserveIn(s: Store, productId: Guids.Guid, quantity: Int32)
  {
    s.Find(productId).Some? && CanReserve(s.Find(productId).value, quantity)
  }

  /** ReleaseReservationAsync and ConfirmReservationAsync find the product and its tracked reserved quantity covers the request. */
  predicate CoversIn(s: Store, productId: Guids.Guid, quantity: Int32)
  {
    s.Find(productId).Some? && CoversReservation(s.Find(productId).value, quantity)
  }

  /** The store after ReserveStockAsync for (productId, quantity), whose save had outcome `saved`. */
  function ReserveIn(s: Store, productId: Guids.Guid, quantity: Int32, saved: Option<string>): Store
  {
    if CanReserveIn(s, productId, quantity) then s.Save(productId, Reserve(s.tracked[productId], quantity), saved) else s
  }

  /** The store after ReleaseReservationAsync. */
  function ReleaseIn(s: Store, productId: Guids.Guid, quantity: Int32, saved: Option<string>): Store
  {
    if CoversIn(s, productId, quantity) then s.Save(productId, Release(s.tracked[productId], quantity), saved) else s
  }

  /** The store after ConfirmReservationAsync. */
  function ConfirmIn(s: Store, productId: Guids.Guid, quantity: Int32, saved: Option<string>): Store
  {
    if CoversIn(s, productId, quantity) then s.Save(productId, Confirm(s.tracked[productId], quantity), saved) else s
  }

  /**
   * A failed save still changes the scope: each of the three leaves the same
   * tracked table whatever its save outcome, writes nothing to the database
   * when the save fails, and otherwise either changes nothing or writes every
   * tracked row, the changes of earlier failed saves included.
   */
  lemma CommitWritesTracked(s: Store, productId: Guids.Guid, quantity: Int32, saved: Option<string>)
    ensures ReserveIn(s, productId, quantity, saved).tracked == ReserveIn(s, productId, quantity, None).tracked
    ensures ReleaseIn(s, productId, quantity, saved).tracked == ReleaseIn(s, productId, quantity, None).tracked
    ensures ConfirmIn(s, productId, quantity, saved).tracked == ConfirmIn(s, productId, quantity, None).tracked
    ensures saved.Some? ==> ReserveIn(s, productId, quantity, saved).stored == s.stored
    ensures saved.Some? ==> ReleaseIn(s, productId, quantity, saved).stored == s.stored
    ensures saved.Some? ==> ConfirmIn(s, productId, quantity, saved).stored == s.stored
    ensures ReserveIn(s, productId, quantity, None) == s || InSync(ReserveIn(s, productId, quantity, None))
    ensures ReleaseIn(s, productId, quantity, None) == s || InSync(ReleaseIn(s, productId, quantity, None))
    ensures ConfirmIn(s, productId, quantity, None) == s || InSync(ConfirmIn(s, productId, quantity, None))
  {
  }

  /** None of the three adds a row, touches another product's tracked row, or writes one the scope has not changed. */
  lemma OnlyThatRow(s: Store, productId: Guids.Guid, quantity: Int32, saved: Option<string>, other: Guids.Guid)
    requires NoneAdded(s) && other != productId
    ensures NoneAdded(ReserveIn(s, productId, quantity, saved)) && ReserveIn(s, productId, quantity, saved).tracked.Keys == s.tracked.Keys
    ensures NoneAdded(ReleaseIn(s, productId, quantity, saved)) && ReleaseIn(s, productId, quantity, saved).tracked.Keys == s.tracked.Keys
    ensures NoneAdded(ConfirmIn(s, productId, quantity, saved)) && ConfirmIn(s, productId, quantity, saved).tracked.Keys == s.tracked.Keys
    ensures other in s.tracked ==> ReserveIn(s, productId, quantity, saved).tracked[other] == s.tracked[other]
    ensures other in s.tracked ==> ReleaseIn(s, productId, quantity, saved).tracked[other] == s.tracked[other]
    ensures other in s.tracked ==> ConfirmIn(s, productId, quantity, saved).tracked[other] == s.tracked[other]
    ensures InSync(s) ==> other in s.stored ==> ReserveIn(s, productId, quantity, saved).stored[other] == s.stored[other]
    ensures InSync(s) ==> other in s.stored ==> ReleaseIn(s, productId, quantity, saved).stored[other] == s.stored[other]
    ensures InSync(s) ==> other in s.stored ==> ConfirmIn(s, productId, quantity, saved).stored[other] == s.stored[other]
  {
  }

  /** With non-negative amounts every operation keeps all rows valid, on both sides. */
  lemma TableOperationsKeepConsistency(s: Store, productId: Guids.Guid, quantity: Int32, saved: Option<string>)
    requires AllConsistent(s.stored) && AllConsistent(s.tracked) && quantity >= 0
    ensures AllConsistent(ReserveIn(s, productId, quantity, saved).stored) && AllConsistent(ReserveIn(s, productId, quantity, saved).tracked)
    ensures AllConsistent(ReleaseIn(s, productId, quantity, saved).stored) && AllConsistent(ReleaseIn(s, productId, quantity, saved).tracked)
    ensures AllConsistent(ConfirmIn(s, productId, quantity, saved).stored) && AllConsistent(ConfirmIn(s, productId, quantity, saved).tracked)
  {
    if CanReserveIn(s, productId, quantity) { ReserveKeepsConsistent(s.tracked[productId], quantity); }
    if CoversIn(s, productId, quantity) {
      ReleaseKeepsConsistent(s.tracked[productId], quantity);
      ConfirmKeepsConsistent(s.tracked[productId], quantity);
    }
  }

  const NotFoundForProduct: string := "Stock not found for this product"

  class StockApplicationService {
    /** The Stocks table and what this scope's change tracker holds of it. */
    var store: Store

    ghost predicate Valid()
      reads this
    {
      Coherent(store)
    }

    /** The service of a new scope: its context tracks nothing yet, so it sees the database as it is. */
    constructor (stocks: StockTable)
      requires WellKeyed(stocks)
      ensures Valid() && store == Store(stocks, stocks)
    {
      store := Store(stocks, stocks);
    }

    /** GetAsync(s => s.Id == stockId): the product key of the stored row with that id, if any. */
    method FindByStockId(stockId: Guids.Guid) returns (p: Option<Guids.Guid>)
      requires Valid()
      ensures p.None? <==> !HasStockId(store.stored, stockId)
      ensures p.Some? ==> p.value in store.stored && store.stored[p.value].id == stockId && p.value == ProductOfStock(store.stored, stockId)
      ensures p.Some? ==> store.Find(p.value) == Some(store.tracked[p.value])
    {
      if !(exists k | k in store.stored :: store.stored[k].id == stockId) {
        return None;
      }
      var k :| k in store.stored && store.stored[k].id == stockId;
      return Some(k);
    }

    method CreateStock(request: CreateStockRequest, stockId: Guids.Guid, saved: Option<string>) returns (r: OperationResult<StockDto>)
      requires Valid()
      requires forall p | p in store.tracked :: store.tracked[p].id != stockId
      modifies this
      ensures Valid()
      ensures request.productId in old(store.stored) ==>
        store == old(store) && r == Fail(AlreadyExists, statusCode := 409)
      ensures request.productId !in old(store.stored) ==>
        var row := StockRow(stockId, request.productId, request.quantity, 0);
        && store == old(store).Save(request.productId, row, saved)
        && r == (if saved.None? then SuccessWith(ToDto(row), CreateSucceeded, 201) else Aborted(CreateStockError, saved.value))
      ensures request.productId !in old(store.stored) && saved.None? ==> request.productId in store.stored && InSync(store)
    {
      if request.productId in store.stored {
        return Fail(AlreadyExists, statusCode := 409);
      }
      var stock := new Stock(stockId, request.productId, request.quantity);
      SaveKeepsCoherent(store, request.productId, stock.Row(), saved);
      store := store.Save(request.productId, stock.Row(), saved);
      if saved.Some? {
        return Aborted(CreateStockError, saved.value);
      }
      r := SuccessWith(ToDto(stock.Row()), CreateSucceeded, 201);
    }

    method GetStockById(stockId: Guids.Guid) returns (r: OperationResult<StockDto>)
      requires Valid()
      ensures !HasStockId(store.stored, stockId) ==> r == Fail(StockNotFound, statusCode := 404)
      ensures HasStockId(store.stored, stockId) ==> r == SuccessWith(ToDto(store.tracked[ProductOfStock(store.stored, stockId)]))
    {
      var p := FindByStockId(stockId);
      if p.None? {
        return Fail(StockNotFound, statusCode := 404);
      }
      r := SuccessWith(ToDto(store.tracked[p.value]));
    }

    method GetStockByProductId(productId: Guids.Guid) returns (r: OperationResult<StockDto>)
      ensures store.Find(productId).None? ==> r == Fail(NotFoundForProduct, statusCode := 404)
      ensures store.Find(productId).Some? ==> r == SuccessWith(ToDto(store.Find(productId).value))
    {
      var found := store.Find(productId);
      if found.None? {
        return Fail(NotFoundForProduct, statusCode := 404);
      }
      r := SuccessWith(ToDto(found.value));
    }

    /** The shared body of the three quantity updates, after the row has been found and the new quantity computed. */
    method ApplyQuantity(p: Guids.Guid, newQuantity: Int32, success: string, errorPrefix: string, saved: Option<string>)
      returns (r: OperationResult<StockDto>)
      requires Valid() && p in store.stored
      modifies this
      ensures Valid()
      ensures newQuantity < old(store.tracked)[p].reservedQuantity ==>
        store == old(store) && r == Fail(BelowReserved, statusCode := 400)
      ensures newQuantity >= old(store.tracked)[p].reservedQuantity ==>
        var row := old(store.tracked)[p].(quantity := newQuantity);
        && store == old(store).Save(p, row, saved)
        && r == (if saved.None? then SuccessWith(ToDto(row), success) else Aborted(errorPrefix, saved.value))
    {
      var stock := new Stock.Load(store.tracked[p]);
      var thrown := stock.UpdateQuantity(newQuantity);
      if thrown {
        return Fail(BelowReserved, statusCode := 400);
      }
      SaveKeepsCoherent(store, p, stock.Row(), saved);
      store := store.Save(p, stock.Row(), saved);
      if saved.Some? {
        return Aborted(errorPrefix, saved.value);
      }
      r := SuccessWith(ToDto(stock.Row()), success);
    }

    /** UpdateStockAsync: the whole-stock update, which only sets the quantity. */
    method UpdateStock(stockId: Guids.Guid, request: UpdateStockRequest, saved: Option<string>) returns (r: OperationResult<StockDto>)
      requires Valid()
      modifies this
      ensures Valid()
      ensures !HasStockId(old(store.stored), stockId) ==> store == old(store) && r == Fail(StockNotFound, statusCode := 404)
      ensures HasStockId(old(store.stored), stockId) ==>
        var p := ProductOfStock(old(store.stored), stockId); var row := old(store.tracked)[p];
        if request.quantity < row.reservedQuantity then
          store == old(store) && r == Fail(BelowReserved, statusCode := 400)
        else
          && store == old(store).Save(p, row.(quantity := request.quantity), saved)
          && r == (if saved.None? then SuccessWith(ToDto(row.(quantity := request.quantity)), UpdateSucceeded)
                   else Aborted(UpdateError, saved.value))
    {
      var p := FindByStockId(stockId);
      if p.None? {
        return Fail(StockNotFound, statusCode := 404);
      }
      r := ApplyQuantity(p.value, request.quantity, UpdateSucceeded, UpdateError, saved);
    }

    method UpdateStockQuantity(stockId: Guids.Guid, newQuantity: Int32, saved: Option<string>) returns (r: OperationResult<StockDto>)
      requires Valid()
      modifies this
      ensures Valid()
      ensures !HasStockId(old(store.stored), stockId) ==> store == old(store) && r == Fail(StockNotFound, statusCode := 404)
      ensures HasStockId(old(store.stored), stockId) ==>
        var p := ProductOfStock(old(store.stored), stockId); var row := old(store.tracked)[p];
        if newQuantity < row.reservedQuantity then
          store == old(store) && r == Fail(BelowReserved, statusCode := 400)
        else
          && store == old(store).Save(p, row.(quantity := newQuantity), saved)
          && r == (if saved.None? then SuccessWith(ToDto(row.(quantity := newQuantity)), QuantityUpdateSucceeded)
                   else Aborted(QuantityUpdateError, saved.value))
    {
      var p := FindByStockId(stockId);
      if p.None? {
        return Fail(StockNotFound, statusCode := 404);
      }
      r := ApplyQuantity(p.value, newQuantity, QuantityUpdateSucceeded, QuantityUpdateError, saved);
    }

    /** AddStockQuantityAsync: UpdateQuantity(Quantity + quantity), the sum in unchecked int. */
    method AddStockQuantity(stockId: Guids.Guid, quantity: Int32, saved: Option<string>) returns (r: OperationResult<StockDto>)
      requires Valid()
      modifies this
      ensures Valid()
      ensures !HasStockId(old(store.stored), stockId) ==> store == old(store) && r == Fail(StockNotFound, statusCode := 404)
      ensures HasStockId(old(store.stored), stockId) ==>
        var p := ProductOfStock(old(store.stored), stockId); var row := old(store.tracked)[p];
        var n := Wrap(row.quantity + quantity);
        if n < row.reservedQuantity then
          store == old(store) && r == Fail(BelowReserved, statusCode := 400)
        else
          && store == old(store).Save(p, row.(quantity := n), saved)
          && r == (if saved.None? then SuccessWith(ToDto(row.(quantity := n)), AddSucceeded) else Aborted(AddError, saved.value))
    {
      var p := FindByStockId(stockId);
      if p.None? {
        return Fail(StockNotFound, statusCode := 404);
      }
      r := ApplyQuantity(p.value, Wrap(store.tracked[p.value].quantity + quantity), AddSucceeded, AddError, saved);
    }

    /**
     * ReserveStockAsync. The source's third failure ("Failed to reserve stock")
     * cannot happen: ReserveStock returns exactly CanReserve, checked just before.
     */
    method ReserveStock(request: ReserveStockRequest, reservationId: Guids.Guid, saved: Option<string>, now: int) returns (r: OperationResult<StockReservationDto>)
      requires Valid()
      modifies this
      ensures Valid()
      ensures store == ReserveIn(old(store), request.productId, request.quantity, saved)
      ensures old(store).Find(request.productId).None? ==> r == Fail(NotFoundForProduct, statusCode := 404)
      ensures old(store).Find(request.productId).Some? && !CanReserveIn(old(store), request.productId, request.quantity) ==>
        r == Fail(InsufficientStock, statusCode := 400)
      ensures CanReserveIn(old(store), request.productId, request.quantity) && saved.Some? ==>
        r == Aborted(ReserveError, saved.value)
      ensures CanReserveIn(old(store), request.productId, request.quantity) && saved.None? ==>
        r == SuccessWith(StockReservationDto(reservationId, request.productId, request.orderId, request.quantity, now, false),
                         ReserveSucceeded)
    {
      var found := store.Find(request.productId);
      if found.None? {
        return Fail(NotFoundForProduct, statusCode := 404);
      }
      var stock := new Stock.Load(found.value);
      if !stock.CanReserveNow(request.quantity) {
        return Fail(InsufficientStock, statusCode := 400);
      }
      var reserved := stock.ReserveStock(request.quantity);
      SaveKeepsCoherent(store, request.productId, stock.Row(), saved);
      store := store.Save(request.productId, stock.Row(), saved);
      if saved.Some? {
        return Aborted(ReserveError, saved.value);
      }
      r := SuccessWith(StockReservationDto(reservationId, request.productId, request.orderId, request.quantity, now, false),
                       ReserveSucceeded);
    }

    /** ReleaseReservationAsync; the order id is accepted and not used. */
    method ReleaseReservation(productId: Guids.Guid, orderId: Guids.Guid, quantity: Int32, saved: Option<string>) returns (r: OperationResult<()>)
      requires Valid()
      modifies this
      ensures Valid()
      ensures store == ReleaseIn(old(store), productId, quantity, saved)
      ensures old(store).Find(productId).None? ==> r == Fail(NotFoundForProduct, statusCode := 404)
      ensures old(store).Find(productId).Some? && !CoversIn(old(store), productId, quantity) ==>
        r == Fail(ReleaseFailed, statusCode := 400)
      ensures CoversIn(old(store), productId, quantity) && saved.Some? ==> r == Aborted(ReleaseError, saved.value)
      ensures CoversIn(old(store), productId, quantity) && saved.None? ==> r == Success(ReleaseSucceeded)
    {
      var found := store.Find(productId);
      if found.None? {
        return Fail(NotFoundForProduct, statusCode := 404);
      }
      var stock := new Stock.Load(found.value);
      var released := stock.ReleaseReservation(quantity);
      if !released {
        return Fail(ReleaseFailed, statusCode := 400);
      }
      SaveKeepsCoherent(store, productId, stock.Row(), saved);
      store := store.Save(productId, stock.Row(), saved);
      if saved.Some? {
        return Aborted(ReleaseError, saved.value);
      }
      r := Success(ReleaseSucceeded);
    }

    /** ConfirmReservationAsync; the order id is accepted and not used. */
    method ConfirmReservation(productId: Guids.Guid, orderId: Guids.Guid, quantity: Int32, saved: Option<string>) returns (r: OperationResult<()>)
      requires Valid()
      modifies this
      ensures Valid()
      ensures store == ConfirmIn(old(store), productId, quantity, saved)
      ensures old(store).Find(productId).None? ==> r == Fail(NotFoundForProduct, statusCode := 404)
      ensures old(store).Find(productId).Some? && !CoversIn(old(store), productId, quantity) ==>
        r == Fail(ConfirmFailed, statusCode := 400)
      ensures CoversIn(old(store), productId, quantity) && saved.Some? ==> r == Aborted(ConfirmError, saved.value)
      ensures CoversIn(old(store), productId, quantity) && saved.None? ==> r == Success(ConfirmSucceeded)
    {
      var found := store.Find(productId);
      if found.None? {
        return Fail(NotFoundForProduct, statusCode := 404);
      }
      var stock := new Stock.Load(found.value);
      var confirmed := stock.ConfirmReservation(quantity);
      if !confirmed {
        return Fail(ConfirmFailed, statusCode := 400);
      }
      SaveKeepsCoherent(store, productId, stock.Row(), saved);
      store := store.Save(productId, stock.Row(), saved);
      if saved.Some? {
        return Aborted(ConfirmError, saved.value);
      }
      r := Success(ConfirmSucceeded);
    }

    method CheckStockAvailability(productId: Guids.Guid, requiredQuantity: Int32) returns (r: OperationResult<bool>)
      ensures r.isSuccessful <==> store.Find(productId).Some?
      ensures store.Find(productId).None? ==> r == Fail(NotFoundForProduct, statusCode := 404)
      ensures store.Find(productId).Some? ==> r == SuccessWith(CanReserve(store.Find(productId).value, requiredQuantity))
    {
      var found := store.Find(productId);
      if found.None? {
        return Fail(NotFoundForProduct, statusCode := 404);
      }
      var stock := new Stock.Load(found.value);
      var isAvailable := stock.CanReserveNow(requiredQuantity);
      r := SuccessWith(isAvailable);
    }

    method GetAvailableQuantity(productId: Guids.Guid) returns (r: OperationResult<Int32>)
      ensures store.Find(productId).None? ==> r == Fail(NotFoundForProduct, statusCode := 404)
      ensures store.Find(productId).Some? ==> r == SuccessWith(Available(store.Find(productId).value))
      ensures store.Find(productId).Some? && Consistent(store.Find(productId).value) ==>
        r.data == Some(store.Find(productId).value.quantity - store.Find(productId).value.reservedQuantity)
    {
      var found := store.Find(productId);
      if found.None? {
        return Fail(NotFoundForProduct, statusCode := 404);
      }
      var stock := new Stock.Load(found.value);
      r := SuccessWith(stock.AvailableQuantity());
    }

    method ValidateStock(stockId: Guids.Guid) returns (r: OperationResult<bool>)
      requires Valid()
      ensures !HasStockId(store.stored, stockId) ==> r == Fail(StockNotFound, statusCode := 404)
      ensures HasStockId(store.stored, stockId) ==> r == SuccessWith(Consistent(store.tracked[ProductOfStock(store.stored, stockId)]))
    {
      var p := FindByStockId(stockId);
      if p.None? {
        return Fail(StockNotFound, statusCode := 404);
      }
      var stock := store.tracked[p.value];
      var isValid := stock.quantity >= 0 && stock.reservedQuantity >= 0 && stock.reservedQuantity <= stock.quantity;
      r := SuccessWith(isValid);
    }
  }
}
