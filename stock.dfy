/**
 * The Stock aggregate of the stock service: the on-hand Quantity of one
 * product, the part of it held by open reservations, and the operations that
 * reserve, release and confirm (consume) reserved units.
 */
module StockDomain {
  import opened Int32s
  import Guids

  /** One row of the Stocks table. */
  datatype StockRow = StockRow(id: Guids.Guid, productId: Guids.Guid, quantity: Int32, reservedQuantity: Int32)

  /** The check ValidateStockAsync applies: nothing negative and no more reserved than on hand. */
  predicate Consistent(s: StockRow)
  {
    s.quantity >= 0 && s.reservedQuantity >= 0 && s.reservedQuantity <= s.quantity
  }

  /** AvailableQuantity: Quantity - ReservedQuantity in unchecked int arithmetic. */
  function Available(s: StockRow): (r: Int32)
    ensures Consistent(s) ==> r == s.quantity - s.reservedQuantity && r >= 0
  {
    Wrap(s.quantity - s.reservedQuantity)
  }

  predicate CanReserve(s: StockRow, quantity: Int32)
  {
    Available(s) >= quantity
  }

  /** ReleaseReservation and ConfirmReservation refuse to take more than is reserved. */
  predicate CoversReservation(s: StockRow, quantity: Int32)
  {
    s.reservedQuantity >= quantity
  }

  /** The row after a successful ReserveStock. */
  function Reserve(s: StockRow, quantity: Int32): StockRow
  {
    s.(reservedQuantity := Wrap(s.reservedQuantity + quantity))
  }

  /** The row after a successful ReleaseReservation. */
  function Release(s: StockRow, quantity: Int32): StockRow
  {
    s.(reservedQuantity := Wrap(s.reservedQuantity - quantity))
  }

  /** The row after a successful ConfirmReservation: the units leave the shelf and the reservation. */
  function Confirm(s: StockRow, quantity: Int32): StockRow
  {
    s.(quantity := Wrap(s.quantity - quantity), reservedQuantity := Wrap(s.reservedQuantity - quantity))
  }

  /** On a consistent row, CanReserve means the request fits in what is not yet reserved. */
  lemma CanReserveMeaning(s: StockRow, quantity: Int32)
    requires Consistent(s)
    ensures CanReserve(s, quantity) <==> s.reservedQuantity + quantity <= s.quantity
  {
  }

  /** A reservation of a non-negative amount keeps a consistent row consistent, without wrap-around. */
  lemma ReserveKeepsConsistent(s: StockRow, quantity: Int32)
    requires Consistent(s) && quantity >= 0 && CanReserve(s, quantity)
    ensures Consistent(Reserve(s, quantity))
    ensures Reserve(s, quantity).reservedQuantity == s.reservedQuantity + quantity
    ensures Available(Reserve(s, quantity)) == Available(s) - quantity
  {
  }

  /** Releasing what was just reserved gives back the exact row. */
  lemma ReleaseUndoesReserve(s: StockRow, quantity: Int32)
    requires Consistent(s) && quantity >= 0 && CanReserve(s, quantity)
    ensures CoversReservation(Reserve(s, quantity), quantity)
    ensures Release(Reserve(s, quantity), quantity) == s
  {
  }

  lemma ReleaseKeepsConsistent(s: StockRow, quantity: Int32)
    requires Consistent(s) && quantity >= 0 && CoversReservation(s, quantity)
    ensures Consistent(Release(s, quantity))
    ensures Release(s, quantity).reservedQuantity == s.reservedQuantity - quantity
  {
  }

  /** Confirming consumes reserved units: on-hand and reserved drop together and availability is unchanged. */
  lemma ConfirmKeepsConsistent(s: StockRow, quantity: Int32)
    requires Consistent(s) && quantity >= 0 && CoversReservation(s, quantity)
    ensures Consistent(Confirm(s, quantity))
    ensures Confirm(s, quantity).quantity == s.quantity - quantity
    ensures Available(Confirm(s, quantity)) == Available(s)
  {
  }

  /** The entity does not guard the sign: a negative "reservation" that it accepts breaks consistency. */
  lemma NegativeReserveBreaksConsistency()
    ensures var s := StockRow(Guids.Empty, Guids.Empty, 10, 0);
      Consistent(s) && CanReserve(s, -1) && !Consistent(Reserve(s, -1))
  {
  }

  /** The tracked Stock entity. */
  class Stock {
    var id: Guids.Guid
    var productId: Guids.Guid
    var quantity: Int32
    var reservedQuantity: Int32

    function Row(): StockRow
      reads this
    {
      StockRow(id, productId, quantity, reservedQuantity)
    }

    /** `new Stock(productId, quantity)`; `id` is the Guid.NewGuid() it draws. */
    constructor (id: Guids.Guid, productId: Guids.Guid, quantity: Int32)
      ensures Row() == StockRow(id, productId, quantity, 0)
    {
      this.id := id;
      this.productId := productId;
      this.quantity := quantity;
      reservedQuantity := 0;
    }

    /** The entity as EF materialises it from a row. */
    constructor Load(row: StockRow)
      ensures Row() == row
    {
      id := row.id;
      productId := row.productId;
      quantity := row.quantity;
      reservedQuantity := row.reservedQuantity;
    }

    function AvailableQuantity(): (r: Int32)
      reads this
      ensures r == Available(Row())
    {
      Wrap(quantity - reservedQuantity)
    }

    function CanReserveNow(quantity: Int32): (b: bool)
      reads this
      ensures b == CanReserve(Row(), quantity)
    {
      AvailableQuantity() >= quantity
    }

    method ReserveStock(quantity: Int32) returns (ok: bool)
      modifies this
      ensures ok == CanReserve(old(Row()), quantity)
      ensures Row() == if ok then Reserve(old(Row()), quantity) else old(Row())
    {
      if !CanReserveNow(quantity) {
        return false;
      }
      reservedQuantity := Wrap(reservedQuantity + quantity);
      return true;
    }

    method ReleaseReservation(quantity: Int32) returns (ok: bool)
      modifies this
      ensures ok == CoversReservation(old(Row()), quantity)
      ensures Row() == if ok then Release(old(Row()), quantity) else old(Row())
    {
      if reservedQuantity < quantity {
        return false;
      }
      reservedQuantity := Wrap(reservedQuantity - quantity);
      return true;
    }

    method ConfirmReservation(quantity: Int32) returns (ok: bool)
      modifies this
      ensures ok == CoversReservation(old(Row()), quantity)
      ensures Row() == if ok then Confirm(old(Row()), quantity) else old(Row())
    {
      if reservedQuantity < quantity {
        return false;
      }
      this.quantity := Wrap(this.quantity - quantity);
      reservedQuantity := Wrap(reservedQuantity - quantity);
      return true;
    }

    /** UpdateQuantity; `thrown` is the InvalidOperationException(BelowReserved) for a quantity below the reserved amount. */
    method UpdateQuantity(newQuantity: Int32) returns (thrown: bool)
      modifies this
      ensures thrown == (newQuantity < old(reservedQuantity))
      ensures Row() == if thrown then old(Row()) else old(Row()).(quantity := newQuantity)
    {
      if newQuantity < reservedQuantity {
        return true;
      }
      quantity := newQuantity;
      return false;
    }
  }

  const BelowReserved: string := "Cannot set quantity below reserved amount"
}
